/**
 * The board of frontend/src/pages/kanban/KanbanPage.tsx: reviews joined with their progress
 * records and grouped into one column per progress status, the neighbour columns a card can move
 * to, and the update a move sends.
 */
module Kanban {
  import opened Wrappers
  import opened Models

  datatype Card = Card(review: VacancyReview, progress: VacancyProgress)

  /** The board's columns, in display order. */
  const AllStatuses: seq<ProgressStatus> := [New, ContactHr, Ignore, Interview, Reject, Offer]

  /** `new Map(progressList.map(p => [p.review_id, p]))`: a later record for the same review
      replaces an earlier one. */
  function ProgressByReview(ps: seq<VacancyProgress>): map<int, VacancyProgress>
    decreases |ps|
  {
    if |ps| == 0 then map[]
    else ProgressByReview(ps[..|ps| - 1])[ps[|ps| - 1].reviewId := ps[|ps| - 1]]
  }

  /** A review id is a key exactly when some record names it, and it maps to the last such record. */
  lemma {:induction false} ProgressByReviewMeaning(ps: seq<VacancyProgress>, k: int)
    ensures k in ProgressByReview(ps) <==> exists i :: 0 <= i < |ps| && ps[i].reviewId == k
    ensures k in ProgressByReview(ps) ==>
      exists i :: 0 <= i < |ps| && ps[i] == ProgressByReview(ps)[k] && ps[i].reviewId == k &&
        forall j :: i < j < |ps| ==> ps[j].reviewId != k
    decreases |ps|
  {
    if |ps| > 0 {
      var n := |ps| - 1;
      var init := ps[..n];
      ProgressByReviewMeaning(init, k);
      assert forall i :: 0 <= i < n ==> init[i] == ps[i];
      if ps[n].reviewId != k && k in ProgressByReview(init) {
        var i :| 0 <= i < |init| && init[i] == ProgressByReview(init)[k] && init[i].reviewId == k &&
                 forall j :: i < j < |init| ==> init[j].reviewId != k;
        assert ps[i] == ProgressByReview(ps)[k];
      }
    }
  }

  /** The cards, one per review that has a progress record, in review order. */
  function Cards(rs: seq<VacancyReview>, m: map<int, VacancyProgress>): (r: seq<Card>)
    ensures forall c :: c in r ==> c.review in rs && c.review.id in m && c.progress == m[c.review.id]
    ensures forall x :: x in rs && x.id in m ==> Card(x, m[x.id]) in r
    decreases |rs|
  {
    if |rs| == 0 then []
    else
      var x := rs[|rs| - 1];
      var init := Cards(rs[..|rs| - 1], m);
      assert forall y :: y in rs <==> y in rs[..|rs| - 1] || y == x by {
        assert rs == rs[..|rs| - 1] + [x];
      }
      init + (if x.id in m then [Card(x, m[x.id])] else [])
  }

  /** The cards of one column, in card order. */
  function Bucket(cards: seq<Card>, st: ProgressStatus): (r: seq<Card>)
    ensures forall c :: c in r <==> c in cards && c.progress.status == st
    decreases |cards|
  {
    if |cards| == 0 then []
    else
      var c := cards[|cards| - 1];
      assert forall y :: y in cards <==> y in cards[..|cards| - 1] || y == c by {
        assert cards == cards[..|cards| - 1] + [c];
      }
      Bucket(cards[..|cards| - 1], st) + (if c.progress.status == st then [c] else [])
  }

  /** The progress records of one status. */
  function InStatus(m: map<int, VacancyProgress>, st: ProgressStatus): map<int, VacancyProgress> {
    map k | k in m && m[k].status == st :: m[k]
  }

  /** A column holds exactly the cards built from the reviews list and the records of that
      status alone, so its cards follow the order of the reviews list. */
  lemma {:induction false} BucketFollowsReviews(rs: seq<VacancyReview>, m: map<int, VacancyProgress>, st: ProgressStatus)
    ensures Bucket(Cards(rs, m), st) == Cards(rs, InStatus(m, st))
    decreases |rs|
  {
    if |rs| > 0 {
      var n := |rs| - 1;
      var x := rs[n];
      var ms := InStatus(m, st);
      var c0 := Cards(rs[..n], m);
      assert rs[..n + 1] == rs;
      BucketFollowsReviews(rs[..n], m, st);
      CardsStep(rs, m, n);
      CardsStep(rs, ms, n);
      if x.id in m {
        var c := Card(x, m[x.id]);
        assert Cards(rs, m) == c0 + [c];
        BucketSnoc(c0, c, st);
        if m[x.id].status == st {
          assert x.id in ms && ms[x.id] == m[x.id];
          assert Cards(rs, ms) == Cards(rs[..n], ms) + [c];
        } else {
          assert x.id !in ms;
          assert Cards(rs, ms) == Cards(rs[..n], ms);
        }
      } else {
        assert x.id !in ms;
        assert Cards(rs, m) == c0;
        assert Cards(rs, ms) == Cards(rs[..n], ms);
      }
    }
  }

  lemma BucketSnoc(cards: seq<Card>, c: Card, st: ProgressStatus)
    ensures Bucket(cards + [c], st) == Bucket(cards, st) + (if c.progress.status == st then [c] else [])
  {
    assert (cards + [c])[..|cards|] == cards;
  }

  /** `grouped`: one column per status, each holding its bucket of `cards`. */
  predicate GroupedAs(grouped: map<ProgressStatus, seq<Card>>, cards: seq<Card>) {
    forall st: ProgressStatus :: st in grouped && grouped[st] == Bucket(cards, st)
  }

  /** The six columns, all empty. */
  const EmptyBoard: map<ProgressStatus, seq<Card>> :=
    map[New := [], ContactHr := [], Ignore := [], Interview := [], Reject := [], Offer := []]

  lemma EmptyBoardGrouped()
    ensures GroupedAs(EmptyBoard, [])
  {
    forall st: ProgressStatus ensures st in EmptyBoard && EmptyBoard[st] == Bucket([], st) {
      assert st.New? || st.ContactHr? || st.Ignore? || st.Interview? || st.Reject? || st.Offer?;
    }
  }

  /** `grouped[card.progress.status].push(card)` keeps the grouping in step with the cards. */
  lemma PushCard(grouped: map<ProgressStatus, seq<Card>>, cards: seq<Card>, c: Card)
    requires GroupedAs(grouped, cards)
    ensures GroupedAs(grouped[c.progress.status := grouped[c.progress.status] + [c]], cards + [c])
  {
    var g := grouped[c.progress.status := grouped[c.progress.status] + [c]];
    forall st: ProgressStatus ensures st in g && g[st] == Bucket(cards + [c], st) {
      assert (cards + [c])[..|cards + [c]| - 1] == cards;
    }
  }

  lemma ProgressByReviewStep(ps: seq<VacancyProgress>, i: int)
    requires 0 <= i < |ps|
    ensures ProgressByReview(ps[..i + 1]) == ProgressByReview(ps[..i])[ps[i].reviewId := ps[i]]
  {
    assert ps[..i + 1][..i] == ps[..i];
  }

  /** The loop filling `progressByReview`. */
  method IndexProgress(ps: seq<VacancyProgress>) returns (byReview: map<int, VacancyProgress>)
    ensures byReview == ProgressByReview(ps)
  {
    byReview := map[];
    var i := 0;
    while i < |ps|
      invariant 0 <= i <= |ps|
      invariant byReview == ProgressByReview(ps[..i])
    {
      ProgressByReviewStep(ps, i);
      byReview := byReview[ps[i].reviewId := ps[i]];
      i := i + 1;
    }
    assert ps[..|ps|] == ps;
  }

  lemma CardsStep(rs: seq<VacancyReview>, m: map<int, VacancyProgress>, i: int)
    requires 0 <= i < |rs|
    ensures Cards(rs[..i + 1], m) ==
      Cards(rs[..i], m) + (if rs[i].id in m then [Card(rs[i], m[rs[i].id])] else [])
  {
    assert rs[..i + 1][..i] == rs[..i];
  }

  /** The loop joining each review with its progress record. */
  method JoinCards(rs: seq<VacancyReview>, m: map<int, VacancyProgress>) returns (cards: seq<Card>)
    ensures cards == Cards(rs, m)
  {
    cards := [];
    var i := 0;
    while i < |rs|
      invariant 0 <= i <= |rs|
      invariant cards == Cards(rs[..i], m)
    {
      CardsStep(rs, m, i);
      if rs[i].id in m {
        cards := cards + [Card(rs[i], m[rs[i].id])];
      }
      i := i + 1;
    }
    assert rs[..|rs|] == rs;
  }

  /** The loop pushing each card onto the column of its status. */
  method GroupCards(cards: seq<Card>) returns (grouped: map<ProgressStatus, seq<Card>>)
    ensures GroupedAs(grouped, cards)
  {
    grouped := EmptyBoard;
    EmptyBoardGrouped();
    assert cards[..0] == [];
    var i := 0;
    while i < |cards|
      invariant 0 <= i <= |cards|
      invariant GroupedAs(grouped, cards[..i])
    {
      var c := cards[i];
      PushCard(grouped, cards[..i], c);
      assert cards[..i + 1] == cards[..i] + [c];
      grouped := grouped[c.progress.status := grouped[c.progress.status] + [c]];
      i := i + 1;
    }
    assert cards[..|cards|] == cards;
  }

  /**
   * `cardsByStatus`: nothing while either list is missing; otherwise every status maps to the
   * cards of that status, built by joining reviews with their (last) progress record.
   */
  method CardsByStatus(reviews: Option<seq<VacancyReview>>, progressList: Option<seq<VacancyProgress>>)
    returns (grouped: map<ProgressStatus, seq<Card>>)
    ensures reviews.None? || progressList.None? ==> grouped == map[]
    ensures reviews.Some? && progressList.Some? ==>
      GroupedAs(grouped, Cards(reviews.value, ProgressByReview(progressList.value)))
  {
    if reviews.None? || progressList.None? {
      return map[];
    }
    var byReview := IndexProgress(progressList.value);
    var cards := JoinCards(reviews.value, byReview);
    grouped := GroupCards(cards);
  }

  /** A review gets a card exactly when some progress record names it, and the card carries the
      last such record. */
  lemma CardForReview(rs: seq<VacancyReview>, ps: seq<VacancyProgress>, x: VacancyReview)
    requires x in rs
    ensures (exists c :: c in Cards(rs, ProgressByReview(ps)) && c.review == x) <==>
            (exists i :: 0 <= i < |ps| && ps[i].reviewId == x.id)
    ensures forall c :: c in Cards(rs, ProgressByReview(ps)) && c.review == x ==>
      exists i :: 0 <= i < |ps| && ps[i] == c.progress && ps[i].reviewId == x.id &&
        forall j :: i < j < |ps| ==> ps[j].reviewId != x.id
  {
    ProgressByReviewMeaning(ps, x.id);
    var m := ProgressByReview(ps);
    if x.id in m {
      assert Card(x, m[x.id]) in Cards(rs, m);
    }
  }

  /** `Object.values(cardsByStatus).flat().length`. */
  function TotalCards(grouped: map<ProgressStatus, seq<Card>>): nat {
    SizeOver(grouped, AllStatuses)
  }

  function SizeOver(grouped: map<ProgressStatus, seq<Card>>, sts: seq<ProgressStatus>): nat
    decreases |sts|
  {
    if |sts| == 0 then 0
    else (if sts[0] in grouped then |grouped[sts[0]]| else 0) + SizeOver(grouped, sts[1..])
  }

  function BucketSizes(cards: seq<Card>, sts: seq<ProgressStatus>): nat
    decreases |sts|
  {
    if |sts| == 0 then 0 else |Bucket(cards, sts[0])| + BucketSizes(cards, sts[1..])
  }

  function Occurrences(sts: seq<ProgressStatus>, st: ProgressStatus): nat
    decreases |sts|
  {
    if |sts| == 0 then 0 else (if sts[0] == st then 1 else 0) + Occurrences(sts[1..], st)
  }

  lemma {:induction false} BucketSizesStep(cards: seq<Card>, c: Card, sts: seq<ProgressStatus>)
    ensures BucketSizes(cards + [c], sts) == BucketSizes(cards, sts) + Occurrences(sts, c.progress.status)
    decreases |sts|
  {
    if |sts| > 0 {
      assert (cards + [c])[..|cards + [c]| - 1] == cards;
      BucketSizesStep(cards, c, sts[1..]);
    }
  }

  lemma EveryStatusOnce(st: ProgressStatus)
    ensures Occurrences(AllStatuses, st) == 1
  {
    assert AllStatuses[1..][1..][1..][1..][1..][1..] == [];
  }

  /** Across the six columns, every card is counted exactly once. */
  lemma {:induction false} BucketsPartition(cards: seq<Card>)
    ensures BucketSizes(cards, AllStatuses) == |cards|
    decreases |cards|
  {
    if |cards| == 0 {
      assert AllStatuses[1..][1..][1..][1..][1..][1..] == [];
    } else {
      var init := cards[..|cards| - 1];
      var c := cards[|cards| - 1];
      assert cards == init + [c];
      BucketsPartition(init);
      BucketSizesStep(init, c, AllStatuses);
      EveryStatusOnce(c.progress.status);
    }
  }

  lemma {:induction false} SizeOverGrouped(grouped: map<ProgressStatus, seq<Card>>, cards: seq<Card>, sts: seq<ProgressStatus>)
    requires GroupedAs(grouped, cards)
    ensures SizeOver(grouped, sts) == BucketSizes(cards, sts)
    decreases |sts|
  {
    if |sts| > 0 {
      SizeOverGrouped(grouped, cards, sts[1..]);
    }
  }

  /** `totalCards` counts every card on the board once; an empty grouping counts none. */
  lemma TotalCardsCount(grouped: map<ProgressStatus, seq<Card>>, cards: seq<Card>)
    requires GroupedAs(grouped, cards)
    ensures TotalCards(grouped) == |cards|
    ensures TotalCards(map[]) == 0
  {
    SizeOverGrouped(grouped, cards, AllStatuses);
    BucketsPartition(cards);
    assert AllStatuses[1..][1..][1..][1..][1..][1..] == [];
  }

  datatype Column = Column(status: ProgressStatus, title: string, color: string)

  /** `COLUMNS`. */
  const Columns: seq<Column> := [
    Column(New, "New", "new"),
    Column(ContactHr, "Contact HR", "contact"),
    Column(Ignore, "Ignored", "ignore"),
    Column(Interview, "Interview", "interview"),
    Column(Reject, "Rejected", "reject"),
    Column(Offer, "Offer", "offer")
  ]

  /** `findIndex`: the first column of that status, -1 when none. */
  function ColumnIndex(cols: seq<Column>, st: ProgressStatus): (r: int)
    ensures -1 <= r < |cols|
    ensures r >= 0 ==> cols[r].status == st && forall j :: 0 <= j < r ==> cols[j].status != st
    ensures r == -1 <==> forall j :: 0 <= j < |cols| ==> cols[j].status != st
    decreases |cols|
  {
    if |cols| == 0 then -1
    else if cols[0].status == st then 0
    else
      var r := ColumnIndex(cols[1..], st);
      if r == -1 then -1 else r + 1
  }

  /** The column a card of this status moves back to: the one before its own, none from the first. */
  function PrevColumn(st: ProgressStatus): (r: Option<Column>)
    ensures r.Some? <==> Rank(st) > 0
    ensures r.Some? ==> r.value in Columns && Rank(r.value.status) == Rank(st) - 1
  {
    ColumnsCoverStatuses(st);
    var i := ColumnIndex(Columns, st);
    if i > 0 then
      RankOfColumn(i - 1);
      Some(Columns[i - 1])
    else None
  }

  /** The column a card of this status moves on to: the one after its own, none from the last. */
  function NextColumn(st: ProgressStatus): (r: Option<Column>)
    ensures r.Some? <==> Rank(st) < |Columns| - 1
    ensures r.Some? ==> r.value in Columns && Rank(r.value.status) == Rank(st) + 1
  {
    ColumnsCoverStatuses(st);
    var i := ColumnIndex(Columns, st);
    if i < |Columns| - 1 then
      RankOfColumn(i + 1);
      Some(Columns[i + 1])
    else None
  }

  /** The first column has no backward move, the last no forward move; every other move goes to
      the adjacent column. */
  lemma ColumnMoves(k: int)
    requires 0 <= k < |Columns|
    ensures ColumnIndex(Columns, Columns[k].status) == k
    ensures PrevColumn(Columns[k].status) == (if k > 0 then Some(Columns[k - 1]) else None)
    ensures NextColumn(Columns[k].status) == (if k < |Columns| - 1 then Some(Columns[k + 1]) else None)
  {
    ColumnIndexOf(k);
  }

  /** A column whose status no earlier column has is found at its own index. */
  lemma IndexOfFirst(cols: seq<Column>, k: int)
    requires 0 <= k < |cols|
    requires forall j :: 0 <= j < k ==> cols[j].status != cols[k].status
    ensures ColumnIndex(cols, cols[k].status) == k
  {
  }

  /** The display position of each status. */
  function Rank(st: ProgressStatus): int {
    match st
    case New => 0 case ContactHr => 1 case Ignore => 2
    case Interview => 3 case Reject => 4 case Offer => 5
  }

  lemma RankOfColumn(i: int)
    requires 0 <= i < |Columns|
    ensures Rank(Columns[i].status) == i
  {
    if i == 0 {
    } else if i == 1 {
    } else if i == 2 {
    } else if i == 3 {
    } else if i == 4 {
    } else {
    }
  }

  lemma ColumnIndexOf(k: int)
    requires 0 <= k < |Columns|
    ensures ColumnIndex(Columns, Columns[k].status) == k
  {
    forall j | 0 <= j < k
      ensures Columns[j].status != Columns[k].status
    {
      RankOfColumn(j);
      RankOfColumn(k);
    }
    IndexOfFirst(Columns, k);
  }

  /** The columns follow the statuses one to one. */
  lemma ColumnsCoverStatuses(st: ProgressStatus)
    ensures ColumnIndex(Columns, st) >= 0
    ensures Columns[ColumnIndex(Columns, st)].status == st
    ensures ColumnIndex(Columns, st) == Rank(st)
  {
    var k := Rank(st);
    assert Columns[k].status == st;
    ColumnIndexOf(k);
  }

  /** A partial progress update: only the fields that are present are written. */
  datatype ProgressPatch = ProgressPatch(status: Option<ProgressStatus>, comment: Option<Option<string>>)

  /** `model_dump(exclude_unset=True)` followed by `setattr` for each present field. */
  function ApplyPatch(p: VacancyProgress, patch: ProgressPatch): (r: VacancyProgress)
    ensures r.id == p.id && r.reviewId == p.reviewId
    ensures r.status == (if patch.status.Some? then patch.status.value else p.status)
    ensures r.comment == (if patch.comment.Some? then patch.comment.value else p.comment)
  {
    VacancyProgress(p.id, p.reviewId, patch.status.GetOr(p.status), patch.comment.GetOr(p.comment))
  }

  /** `handleMoveCard`: the id of the card's progress record and a patch with the new status. */
  function MoveCard(card: Card, newStatus: ProgressStatus): (r: (int, ProgressPatch))
    ensures r.0 == card.progress.id
    ensures r.1.comment.None?
  {
    (card.progress.id, ProgressPatch(Some(newStatus), None))
  }

  /** A move changes the status of the record and nothing else about it. */
  lemma MoveChangesOnlyStatus(card: Card, newStatus: ProgressStatus)
    ensures var (id, patch) := MoveCard(card, newStatus);
      ApplyPatch(card.progress, patch) ==
        VacancyProgress(card.progress.id, card.progress.reviewId, newStatus, card.progress.comment)
  {
  }
}
