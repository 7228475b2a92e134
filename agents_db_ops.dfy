/**
 * The database operations of the review agent (agents/agents/db_ops.py): the filter composition
 * of `get_messages_for_review` over the message table, and `save_reviews`, which upserts reviews
 * by message id and opens a progress record for approved ones.
 */
module AgentsDbOps {
  import opened Wrappers
  import opened Models

  /** A message row joined with its dialog: the dialog's surrogate id and account id. Whether
      the message has a review is not a column: it is read from the review table. */
  datatype MessageRow = MessageRow(id: int, dialogId: int, accountId: int, text: Option<string>)

  /** A row of DialogFolderLink. */
  datatype FolderLink = FolderLink(dialogId: int, folderId: int)

  /** The arguments of get_messages_for_review. */
  datatype ReviewQuery = ReviewQuery(limit: nat, accountId: Option<int>, chatId: Option<int>,
                                     folderId: Option<int>, unreviewedOnly: bool)

  /** `Message.review != None`: some stored review names the message. */
  predicate Reviewed(m: MessageRow, reviews: seq<VacancyReview>) {
    exists k :: 0 <= k < |reviews| && reviews[k].messageId == m.id
  }

  /** The conjunction of the WHERE clauses the query adds. */
  predicate Selected(m: MessageRow, q: ReviewQuery, links: set<FolderLink>, reviews: seq<VacancyReview>) {
    && (!q.unreviewedOnly || !Reviewed(m, reviews))
    && (q.accountId.None? || m.accountId == q.accountId.value)
    && (q.chatId.None? || m.dialogId == q.chatId.value)
    && (q.folderId.None? || FolderLink(m.dialogId, q.folderId.value) in links)
  }

  /** The rows that pass the filters, in table order. */
  function Filtered(rows: seq<MessageRow>, q: ReviewQuery, links: set<FolderLink>, reviews: seq<VacancyReview>): (r: seq<MessageRow>)
    ensures forall m :: m in r <==> m in rows && Selected(m, q, links, reviews)
    ensures |r| <= |rows|
  {
    if |rows| == 0 then []
    else (if Selected(rows[0], q, links, reviews) then [rows[0]] else []) + Filtered(rows[1..], q, links, reviews)
  }

  /** `get_messages_for_review`: the first `limit` rows passing every filter. */
  function MessagesForReview(rows: seq<MessageRow>, q: ReviewQuery, links: set<FolderLink>, reviews: seq<VacancyReview>): (r: seq<MessageRow>)
    ensures |r| <= q.limit
    ensures forall m :: m in r ==> m in rows && Selected(m, q, links, reviews)
    ensures |r| < q.limit ==> forall m :: m in rows && Selected(m, q, links, reviews) ==> m in r
    ensures q.unreviewedOnly ==> forall m, k :: m in r && 0 <= k < |reviews| ==> reviews[k].messageId != m.id
  {
    var f := Filtered(rows, q, links, reviews);
    if |f| <= q.limit then f else f[..q.limit]
  }

  /** The single-filter queries, each keeping one of the four arguments. */
  function OnlyUnreviewed(q: ReviewQuery): ReviewQuery { ReviewQuery(q.limit, None, None, None, q.unreviewedOnly) }
  function OnlyAccount(q: ReviewQuery): ReviewQuery { ReviewQuery(q.limit, q.accountId, None, None, false) }
  function OnlyChat(q: ReviewQuery): ReviewQuery { ReviewQuery(q.limit, None, q.chatId, None, false) }
  function OnlyFolder(q: ReviewQuery): ReviewQuery { ReviewQuery(q.limit, None, None, q.folderId, false) }

  /** The filters are conjunctive: a row is selected exactly when each filter alone selects it,
      and with no filter every row is selected. */
  lemma SelectedConjunctive(m: MessageRow, q: ReviewQuery, links: set<FolderLink>, reviews: seq<VacancyReview>)
    ensures Selected(m, q, links, reviews) <==>
      && Selected(m, OnlyUnreviewed(q), links, reviews) && Selected(m, OnlyAccount(q), links, reviews)
      && Selected(m, OnlyChat(q), links, reviews) && Selected(m, OnlyFolder(q), links, reviews)
    ensures Selected(m, ReviewQuery(q.limit, None, None, None, false), links, reviews)
  {
  }

  /** The rows a batch of stored reviews and progress records lives in. */
  datatype Store = Store(reviews: seq<VacancyReview>, progress: seq<VacancyProgress>,
                         nextReviewId: int, nextProgressId: int)

  /** Index of the first review for `messageId`, or |reviews|. */
  function FindByMessage(reviews: seq<VacancyReview>, messageId: int): (i: nat)
    ensures i <= |reviews|
    ensures i < |reviews| ==> reviews[i].messageId == messageId
    ensures forall k :: 0 <= k < i ==> reviews[k].messageId != messageId
  {
    if |reviews| == 0 || reviews[0].messageId == messageId then 0
    else 1 + FindByMessage(reviews[1..], messageId)
  }

  predicate HasProgressFor(progress: seq<VacancyProgress>, reviewId: int) {
    exists k :: 0 <= k < |progress| && progress[k].reviewId == reviewId
  }

  /** The stored review for a draft: the existing row's id when there is one, a new id otherwise. */
  function SavedReview(st: Store, rv: VacancyReview): VacancyReview {
    var i := FindByMessage(st.reviews, rv.messageId);
    if i < |st.reviews| then rv.(id := st.reviews[i].id) else rv.(id := st.nextReviewId)
  }

  /** One iteration of save_reviews' loop. */
  function SaveOne(st: Store, rv: VacancyReview): Store {
    var i := FindByMessage(st.reviews, rv.messageId);
    var saved := SavedReview(st, rv);
    var afterReview :=
      if i < |st.reviews| then st.(reviews := st.reviews[i := saved])
      else st.(reviews := st.reviews + [saved], nextReviewId := st.nextReviewId + 1);
    if saved.decision == Approve && !HasProgressFor(st.progress, saved.id) then
      afterReview.(progress := st.progress + [VacancyProgress(st.nextProgressId, saved.id, New, None)],
                   nextProgressId := st.nextProgressId + 1)
    else afterReview
  }

  /** The whole loop, in batch order. */
  function SaveAll(st: Store, batch: seq<VacancyReview>): Store
    decreases |batch|
  {
    if |batch| == 0 then st else SaveOne(SaveAll(st, batch[..|batch| - 1]), batch[|batch| - 1])
  }

  /**
   * The store invariant: at most one review per message, review ids distinct and below the next
   * id, at most one progress record per review, progress ids below the next id.
   */
  predicate Good(st: Store) {
    GoodReviews(st.reviews, st.nextReviewId) && GoodProgress(st.progress, st.nextProgressId)
  }

  predicate GoodReviews(reviews: seq<VacancyReview>, nextId: int) {
    && (forall i, j :: 0 <= i < j < |reviews| ==> reviews[i].messageId != reviews[j].messageId)
    && (forall i, j :: 0 <= i < j < |reviews| ==> reviews[i].id != reviews[j].id)
    && (forall i :: 0 <= i < |reviews| ==> reviews[i].id < nextId)
  }

  predicate GoodProgress(progress: seq<VacancyProgress>, nextId: int) {
    && (forall i, j :: 0 <= i < j < |progress| ==> progress[i].reviewId != progress[j].reviewId)
    && (forall i :: 0 <= i < |progress| ==> progress[i].id < nextId)
  }

  /**
   * One save: the message's review now holds the draft's fields with the kept (or a new) id;
   * reviews of other messages are untouched; the old progress records stay as a prefix; a progress
   * record in status New is added exactly when the draft is approved and its review has none.
   */
  lemma SaveOneEffect(st: Store, rv: VacancyReview)
    requires Good(st)
    ensures var after := SaveOne(st, rv);
      var saved := SavedReview(st, rv);
      && saved.(id := rv.id) == rv
      && FindByMessage(after.reviews, rv.messageId) < |after.reviews|
      && after.reviews[FindByMessage(after.reviews, rv.messageId)] == saved
      && (FindByMessage(st.reviews, rv.messageId) < |st.reviews| ==>
            saved.id == st.reviews[FindByMessage(st.reviews, rv.messageId)].id)
      && (forall k :: 0 <= k < |st.reviews| && st.reviews[k].messageId != rv.messageId ==>
            k < |after.reviews| && after.reviews[k] == st.reviews[k])
      && |st.progress| <= |after.progress| && after.progress[..|st.progress|] == st.progress
      && (after.progress != st.progress <==> rv.decision == Approve && !HasProgressFor(st.progress, saved.id))
      && (after.progress != st.progress ==>
            after.progress == st.progress + [VacancyProgress(st.nextProgressId, saved.id, New, None)])
      && (rv.decision == Approve ==> HasProgressFor(after.progress, saved.id))
  {
    SaveOneReviewEffect(st, rv);
    SaveOneProgressEffect(st, rv);
  }

  /** The review half of one save. */
  lemma SaveOneReviewEffect(st: Store, rv: VacancyReview)
    ensures var after := SaveOne(st, rv);
      var saved := SavedReview(st, rv);
      && saved.(id := rv.id) == rv
      && FindByMessage(after.reviews, rv.messageId) < |after.reviews|
      && after.reviews[FindByMessage(after.reviews, rv.messageId)] == saved
      && (FindByMessage(st.reviews, rv.messageId) < |st.reviews| ==>
            saved.id == st.reviews[FindByMessage(st.reviews, rv.messageId)].id)
      && (forall k :: 0 <= k < |st.reviews| && st.reviews[k].messageId != rv.messageId ==>
            k < |after.reviews| && after.reviews[k] == st.reviews[k])
  {
    var after := SaveOne(st, rv);
    var saved := SavedReview(st, rv);
    var i := FindByMessage(st.reviews, rv.messageId);
    if i < |st.reviews| {
      assert after.reviews == st.reviews[i := saved];
      FindByMessageAt(after.reviews, rv.messageId, i);
    } else {
      assert after.reviews == st.reviews + [saved];
      FindByMessageAt(after.reviews, rv.messageId, |st.reviews|);
    }
  }

  /** The progress half of one save. */
  lemma SaveOneProgressEffect(st: Store, rv: VacancyReview)
    ensures var after := SaveOne(st, rv);
      var saved := SavedReview(st, rv);
      && |st.progress| <= |after.progress| && after.progress[..|st.progress|] == st.progress
      && (after.progress != st.progress <==> rv.decision == Approve && !HasProgressFor(st.progress, saved.id))
      && (after.progress != st.progress ==>
            after.progress == st.progress + [VacancyProgress(st.nextProgressId, saved.id, New, None)])
      && (rv.decision == Approve ==> HasProgressFor(after.progress, saved.id))
  {
    var after := SaveOne(st, rv);
    var saved := SavedReview(st, rv);
    assert saved.decision == rv.decision;
    if rv.decision == Approve && !HasProgressFor(st.progress, saved.id) {
      assert after.progress == st.progress + [VacancyProgress(st.nextProgressId, saved.id, New, None)];
      assert after.progress[|st.progress|].reviewId == saved.id;
    } else {
      assert after.progress == st.progress;
    }
  }

  /** The first review for a message positioned at `i` is found at `i`. */
  lemma FindByMessageAt(reviews: seq<VacancyReview>, messageId: int, i: int)
    requires 0 <= i < |reviews| && reviews[i].messageId == messageId
    requires forall k :: 0 <= k < i ==> reviews[k].messageId != messageId
    ensures FindByMessage(reviews, messageId) == i
  {
  }

  /** save_reviews keeps the store invariant. */
  lemma SaveOneGood(st: Store, rv: VacancyReview)
    requires Good(st)
    ensures Good(SaveOne(st, rv))
  {
    SaveOneReviews(st, rv);
    SaveOneProgress(st, rv);
  }

  /** The upsert keeps messages and review ids unique and below the next id. */
  lemma SaveOneReviews(st: Store, rv: VacancyReview)
    requires GoodReviews(st.reviews, st.nextReviewId)
    ensures GoodReviews(SaveOne(st, rv).reviews, SaveOne(st, rv).nextReviewId)
  {
    var after := SaveOne(st, rv);
    var i := FindByMessage(st.reviews, rv.messageId);
    var saved := SavedReview(st, rv);
    if i < |st.reviews| {
      assert after.reviews == st.reviews[i := saved] && after.nextReviewId == st.nextReviewId;
      assert saved.id == st.reviews[i].id && saved.messageId == st.reviews[i].messageId;
      assert forall k :: 0 <= k < |st.reviews| ==>
        after.reviews[k].id == st.reviews[k].id && after.reviews[k].messageId == st.reviews[k].messageId;
    } else {
      assert after.reviews == st.reviews + [saved] && after.nextReviewId == st.nextReviewId + 1;
      assert forall k :: 0 <= k < |st.reviews| ==> after.reviews[k] == st.reviews[k];
    }
  }

  /** Adding a progress record only for a review without one keeps one record per review. */
  lemma SaveOneProgress(st: Store, rv: VacancyReview)
    requires GoodProgress(st.progress, st.nextProgressId)
    ensures GoodProgress(SaveOne(st, rv).progress, SaveOne(st, rv).nextProgressId)
  {
    var after := SaveOne(st, rv);
    var saved := SavedReview(st, rv);
    if saved.decision == Approve && !HasProgressFor(st.progress, saved.id) {
      var rec := VacancyProgress(st.nextProgressId, saved.id, New, None);
      assert after.progress == st.progress + [rec] && after.nextProgressId == st.nextProgressId + 1;
      assert forall k :: 0 <= k < |st.progress| ==> after.progress[k] == st.progress[k];
    } else {
      assert after.progress == st.progress && after.nextProgressId == st.nextProgressId;
    }
  }

  lemma {:induction false} SaveAllGood(st: Store, batch: seq<VacancyReview>)
    requires Good(st)
    ensures Good(SaveAll(st, batch))
    decreases |batch|
  {
    if |batch| > 0 {
      SaveAllGood(st, batch[..|batch| - 1]);
      SaveOneGood(SaveAll(st, batch[..|batch| - 1]), batch[|batch| - 1]);
    }
  }

  /** Existing progress records are never modified or deleted, and the ones added are in status
      New; a batch without approvals adds none. */
  lemma {:induction false} SaveAllProgress(st: Store, batch: seq<VacancyReview>)
    ensures var after := SaveAll(st, batch);
      && |st.progress| <= |after.progress| && after.progress[..|st.progress|] == st.progress
      && (forall k :: |st.progress| <= k < |after.progress| ==> after.progress[k].status == New)
    ensures (forall k :: 0 <= k < |batch| ==> batch[k].decision != Approve) ==> SaveAll(st, batch).progress == st.progress
    decreases |batch|
  {
    if |batch| > 0 {
      var front := batch[..|batch| - 1];
      var mid := SaveAll(st, front);
      var after := SaveOne(mid, batch[|batch| - 1]);
      SaveAllProgress(st, front);
      SaveOneProgressEffect(mid, batch[|batch| - 1]);
      assert after.progress[..|mid.progress|] == mid.progress;
      assert after.progress[..|st.progress|] == mid.progress[..|st.progress|];
      assert forall k :: |mid.progress| <= k < |after.progress| ==> after.progress[k].status == New;
      assert forall k :: 0 <= k < |front| ==> front[k] == batch[k];
    }
  }

  /** The last draft of a batch is saved after all the others. */
  lemma SaveAllStep(st: Store, batch: seq<VacancyReview>, i: nat)
    requires i < |batch|
    ensures SaveAll(st, batch[..i + 1]) == SaveOne(SaveAll(st, batch[..i]), batch[i])
  {
    assert batch[..i + 1][..i] == batch[..i];
  }

  /** An existing review of a message keeps its id through a save of any draft. */
  lemma SaveOneKeepsIds(st: Store, rv: VacancyReview, k: int)
    requires Good(st) && 0 <= k < |st.reviews|
    ensures var after := SaveOne(st, rv);
      && FindByMessage(after.reviews, st.reviews[k].messageId) < |after.reviews|
      && after.reviews[FindByMessage(after.reviews, st.reviews[k].messageId)].id == st.reviews[k].id
  {
    var m := st.reviews[k].messageId;
    var after := SaveOne(st, rv);
    SaveOneEffect(st, rv);
    if m != rv.messageId {
      assert FindByMessage(st.reviews, m) == k by { FindByMessageAt(st.reviews, m, k); }
      assert forall j :: 0 <= j < k ==> after.reviews[j].messageId == st.reviews[j].messageId || after.reviews[j].messageId == rv.messageId;
      FindByMessageAt(after.reviews, m, k);
    } else {
      assert FindByMessage(st.reviews, m) == k by { FindByMessageAt(st.reviews, m, k); }
    }
  }

  /** The id of the stored review for a message, once the message has one. */
  function StoredId(st: Store, messageId: int): Option<int> {
    var i := FindByMessage(st.reviews, messageId);
    if i < |st.reviews| then Some(st.reviews[i].id) else None
  }

  /** Once a review has a progress record it keeps one, under the same review id. */
  lemma SaveOneKeepsProgress(st: Store, rv: VacancyReview, messageId: int)
    requires Good(st) && StoredId(st, messageId).Some? && HasProgressFor(st.progress, StoredId(st, messageId).value)
    ensures StoredId(SaveOne(st, rv), messageId) == StoredId(st, messageId)
    ensures HasProgressFor(SaveOne(st, rv).progress, StoredId(st, messageId).value)
  {
    var k := FindByMessage(st.reviews, messageId);
    SaveOneKeepsIds(st, rv, k);
    SaveOneEffect(st, rv);
    var after := SaveOne(st, rv);
    var j :| 0 <= j < |st.progress| && st.progress[j].reviewId == StoredId(st, messageId).value;
    assert after.progress[j] == st.progress[j];
  }

  /** After save_reviews every message with an approved draft in the batch has a stored review
      with a progress record. */
  lemma {:induction false} SaveAllApproved(st: Store, batch: seq<VacancyReview>, k: int)
    requires Good(st) && 0 <= k < |batch| && batch[k].decision == Approve
    ensures StoredId(SaveAll(st, batch), batch[k].messageId).Some?
    ensures HasProgressFor(SaveAll(st, batch).progress, StoredId(SaveAll(st, batch), batch[k].messageId).value)
    decreases |batch|
  {
    var front := batch[..|batch| - 1];
    var mid := SaveAll(st, front);
    SaveAllGood(st, front);
    var m := batch[k].messageId;
    if k == |batch| - 1 {
      SaveOneEffect(mid, batch[k]);
    } else {
      assert front[k] == batch[k];
      SaveAllApproved(st, front, k);
      SaveOneKeepsProgress(mid, batch[|batch| - 1], m);
    }
  }

  /** Every message of a saved batch has a stored review afterwards. */
  lemma {:induction false} SaveAllStores(st: Store, batch: seq<VacancyReview>, k: int)
    requires Good(st) && 0 <= k < |batch|
    ensures StoredId(SaveAll(st, batch), batch[k].messageId).Some?
    decreases |batch|
  {
    var front := batch[..|batch| - 1];
    var mid := SaveAll(st, front);
    SaveAllGood(st, front);
    if k == |batch| - 1 {
      SaveOneReviewEffect(mid, batch[k]);
    } else {
      assert front[k] == batch[k];
      SaveAllStores(st, front, k);
      SaveOneKeepsIds(mid, batch[|batch| - 1], FindByMessage(mid.reviews, batch[k].messageId));
    }
  }

  /** A message whose draft was saved is no longer picked by an unreviewed-only query. */
  lemma SavedNotRefetched(st: Store, batch: seq<VacancyReview>, k: int, m: MessageRow, q: ReviewQuery, links: set<FolderLink>)
    requires Good(st) && 0 <= k < |batch| && m.id == batch[k].messageId && q.unreviewedOnly
    ensures !Selected(m, q, links, SaveAll(st, batch).reviews)
  {
    SaveAllStores(st, batch, k);
    var after := SaveAll(st, batch);
    var i := FindByMessage(after.reviews, m.id);
    assert after.reviews[i].messageId == m.id;
  }

  /** The review table `save_reviews` writes to. */
  class ReviewDb {
    var reviews: seq<VacancyReview>
    var progress: seq<VacancyProgress>
    var nextReviewId: int
    var nextProgressId: int

    function State(): Store
      reads this
    {
      Store(reviews, progress, nextReviewId, nextProgressId)
    }

    /** `save_reviews`: each draft in order is upserted by message id, then an approved review
        without progress gets a progress record in status New. */
    method SaveReviews(batch: seq<VacancyReview>)
      modifies this
      ensures State() == SaveAll(old(State()), batch)
      ensures Good(old(State())) ==> Good(State())
    {
      ghost var start := State();
      var i := 0;
      while i < |batch|
        invariant 0 <= i <= |batch|
        invariant State() == SaveAll(start, batch[..i])
      {
        SaveAllStep(start, batch, i);
        SaveReview(batch[i]);
        i := i + 1;
      }
      assert batch[..i] == batch;
      if Good(start) {
        SaveAllGood(start, batch);
      }
    }

    /** One pass of save_reviews' loop: the upsert and, for an approval, the progress record. */
    method SaveReview(draft: VacancyReview)
      modifies this
      ensures State() == SaveOne(old(State()), draft)
    {
      var review := draft;
      var existing := FindByMessage(reviews, review.messageId);
      if existing < |reviews| {
        review := review.(id := reviews[existing].id);
        reviews := reviews[existing := review];
      } else {
        review := review.(id := nextReviewId);
        reviews := reviews + [review];
        nextReviewId := nextReviewId + 1;
      }
      assert review == SavedReview(old(State()), draft);
      if review.decision == Approve && !HasProgressFor(progress, review.id) {
        progress := progress + [VacancyProgress(nextProgressId, review.id, New, None)];
        nextProgressId := nextProgressId + 1;
      }
    }
  }
}
