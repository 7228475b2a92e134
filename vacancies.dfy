/**
 * The list logic of frontend/src/pages/vacancies/VacanciesPage.tsx: joining progress records
 * with their reviews, the search and filter chain, the contact links, the Telegram message link
 * and the prompt version shown for a review.
 */
module Vacancies {
  import opened Wrappers
  import opened Strings
  import opened Decimal
  import opened Models
  import opened TelegramConverters

  /** Experience bounds in years; a null bound is None. */
  datatype Experience = Experience(from: Option<int>, to: Option<int>)

  /** The review fields the page reads. */
  datatype ReviewView = ReviewView(
    id: int,
    position: string,
    description: string,
    seniority: Option<Seniority>,
    experience: Option<Experience>,
    accountId: int,
    dialogUsername: Option<string>,
    telegramDialogId: int,
    telegramMessageId: int)

  /** A progress record as listed, with its review when the server sent one. */
  datatype ProgressView = ProgressView(id: int, status: ProgressStatus, review: Option<ReviewView>)

  datatype Entry = Entry(review: ReviewView, progress: ProgressView)

  /** The progress records that have a review, paired with it, in list order. */
  function Paired(ps: seq<ProgressView>): (r: seq<Entry>)
    ensures forall e :: e in r ==> e.progress in ps && e.progress.review == Some(e.review)
    ensures forall p :: p in ps && p.review.Some? ==> Entry(p.review.value, p) in r
    ensures |r| <= |ps|
  {
    if |ps| == 0 then []
    else (if ps[0].review.Some? then [Entry(ps[0].review.value, ps[0])] else []) + Paired(ps[1..])
  }

  predicate SortedDesc(s: seq<Entry>) {
    forall i, j :: 0 <= i < j < |s| ==> s[i].review.id >= s[j].review.id
  }

  /** Inserting before the first entry whose review id is not larger keeps equal ids in order. */
  function Insert(x: Entry, s: seq<Entry>): seq<Entry>
    decreases |s|
  {
    if |s| == 0 || s[0].review.id <= x.review.id then [x] + s else [s[0]] + Insert(x, s[1..])
  }

  /** A stable sort by review id, newest first (`sort((a, b) => b.review.id - a.review.id)`). */
  function SortByReviewDesc(s: seq<Entry>): seq<Entry>
    decreases |s|
  {
    if |s| == 0 then [] else Insert(s[0], SortByReviewDesc(s[1..]))
  }

  /** In a list sorted newest first, no later entry has a larger review id than the head. */
  lemma HeadBound(s: seq<Entry>)
    requires SortedDesc(s) && |s| > 0
    ensures forall e :: e in s[1..] ==> e.review.id <= s[0].review.id
  {
    forall e | e in s[1..] ensures e.review.id <= s[0].review.id {
      var k :| 0 <= k < |s[1..]| && s[1..][k] == e;
      assert s[k + 1] == e;
    }
  }

  /** An entry whose review id bounds a sorted list can go in front of it. */
  lemma ConsSorted(a: Entry, t: seq<Entry>)
    requires SortedDesc(t)
    requires forall e :: e in t ==> e.review.id <= a.review.id
    ensures SortedDesc([a] + t)
  {
    var s := [a] + t;
    forall i, j | 0 <= i < j < |s| ensures s[i].review.id >= s[j].review.id {
      assert s[j] == t[j - 1];
      if i > 0 {
        assert s[i] == t[i - 1];
      } else {
        assert t[j - 1] in t;
      }
    }
  }

  lemma {:induction false} InsertMultiset(x: Entry, s: seq<Entry>)
    ensures multiset(Insert(x, s)) == multiset(s) + multiset{x}
    decreases |s|
  {
    if |s| > 0 && s[0].review.id > x.review.id {
      InsertMultiset(x, s[1..]);
      assert s == [s[0]] + s[1..];
    }
  }

  lemma {:induction false} InsertSorted(x: Entry, s: seq<Entry>)
    requires SortedDesc(s)
    ensures SortedDesc(Insert(x, s))
    decreases |s|
  {
    if |s| == 0 || s[0].review.id <= x.review.id {
      ConsSorted(x, s);
    } else {
      var t := Insert(x, s[1..]);
      InsertSorted(x, s[1..]);
      InsertMultiset(x, s[1..]);
      HeadBound(s);
      forall e | e in t ensures e.review.id <= s[0].review.id {
        assert e in multiset(t);
      }
      ConsSorted(s[0], t);
    }
  }

  lemma {:induction false} SortByReviewDescCorrect(s: seq<Entry>)
    ensures SortedDesc(SortByReviewDesc(s))
    ensures multiset(SortByReviewDesc(s)) == multiset(s)
    decreases |s|
  {
    if |s| > 0 {
      SortByReviewDescCorrect(s[1..]);
      InsertSorted(s[0], SortByReviewDesc(s[1..]));
      InsertMultiset(s[0], SortByReviewDesc(s[1..]));
      assert s == [s[0]] + s[1..];
    }
  }

  /** `entries`: nothing while the list is missing; otherwise the progress records that have a
      review, newest review first, each exactly as often as in the list. */
  function Entries(progressList: Option<seq<ProgressView>>): (r: seq<Entry>)
    ensures progressList.None? ==> r == []
    ensures SortedDesc(r)
    ensures progressList.Some? ==> multiset(r) == multiset(Paired(progressList.value))
    ensures forall e :: e in r ==> progressList.Some? && e.progress in progressList.value && e.progress.review == Some(e.review)
  {
    if progressList.None? then []
    else
      var paired := Paired(progressList.value);
      SortByReviewDescCorrect(paired);
      var r := SortByReviewDesc(paired);
      assert forall e :: e in r ==> e in paired by {
        forall e | e in r ensures e in paired {
          assert e in multiset(r);
        }
      }
      r
  }

  /** A filter selection: "ALL" or one value. */
  datatype Choice<T> = All | Only(value: T)

  datatype Filters = Filters(search: string, status: Choice<ProgressStatus>, seniority: Choice<Seniority>,
                             experience: string, account: Choice<string>)

  /** The range options of the experience select, as (value, min, max). */
  const RangeOptions: seq<(string, int, int)> :=
    [("0-1", 0, 1), ("1-3", 1, 3), ("3-5", 3, 5), ("5-8", 5, 8), ("8+", 8, 100)]

  function FindOption(options: seq<(string, int, int)>, key: string): (r: Option<(int, int)>)
    ensures r.Some? ==> exists k :: 0 <= k < |options| && options[k] == (key, r.value.0, r.value.1)
    ensures r.None? <==> forall k :: 0 <= k < |options| ==> options[k].0 != key
  {
    if |options| == 0 then None
    else if options[0].0 == key then Some((options[0].1, options[0].2))
    else FindOption(options[1..], key)
  }

  function Max(a: int, b: int): int { if a < b then b else a }
  function Min(a: int, b: int): int { if a < b then a else b }

  predicate InRange(y: int, lo: int, hi: int) {
    lo <= y <= hi
  }

  predicate MatchesSearch(r: ReviewView, search: string) {
    Includes(ToLower(r.position), ToLower(search)) || Includes(ToLower(r.description), ToLower(search))
  }

  predicate MatchesExperience(exp: Option<Experience>, filter: string) {
    if filter == "ALL" then true
    else if filter == "NOT_SPECIFIED" then exp.None? || (exp.value.from.None? && exp.value.to.None?)
    else
      match FindOption(RangeOptions, filter)
      case None => true
      case Some(bounds) =>
        exp.Some? &&
        Max(bounds.0, exp.value.from.GetOr(0)) <= Min(bounds.1, exp.value.to.GetOr(100))
  }

  /** The conjunction `matchesSearch && matchesStatus && matchesSeniority && matchesAccount && matchesExperience`. */
  predicate Keep(e: Entry, f: Filters) {
    && MatchesSearch(e.review, f.search)
    && (f.status.All? || e.progress.status == f.status.value)
    && (f.seniority.All? || e.review.seniority == Some(f.seniority.value))
    && (f.account.All? || Show(e.review.accountId) == f.account.value)
    && MatchesExperience(e.review.experience, f.experience)
  }

  /** `filteredEntries`: the entries every filter accepts, in entry order. */
  function FilteredEntries(entries: seq<Entry>, f: Filters): (r: seq<Entry>)
    ensures forall e :: e in r <==> e in entries && Keep(e, f)
    ensures |r| <= |entries|
    ensures SortedDesc(entries) ==> SortedDesc(r)
  {
    if |entries| == 0 then []
    else
      var rest := FilteredEntries(entries[1..], f);
      if Keep(entries[0], f) then
        assert SortedDesc(entries) ==> SortedDesc([entries[0]] + rest) by {
          if SortedDesc(entries) {
            HeadBound(entries);
            ConsSorted(entries[0], rest);
          }
        }
        [entries[0]] + rest
      else rest
  }

  /** An empty search matches every review. */
  lemma EmptySearchMatches(r: ReviewView)
    ensures MatchesSearch(r, "")
  {
    assert ToLower("") == "";
    assert PieceAt(ToLower(r.position), "", 0);
  }

  /** With every filter at "ALL" and an empty search, nothing is filtered out. */
  lemma {:induction false} NoFiltersKeepAll(entries: seq<Entry>)
    ensures FilteredEntries(entries, Filters("", All, All, "ALL", All)) == entries
    decreases |entries|
  {
    if |entries| > 0 {
      EmptySearchMatches(entries[0].review);
      NoFiltersKeepAll(entries[1..]);
    }
  }

  /** Choosing an account by its decimal id keeps exactly that account's reviews. */
  lemma AccountChoiceExact(e: Entry, a: int)
    ensures Show(e.review.accountId) == Show(a) <==> e.review.accountId == a
  {
    ParseIntOfShow(e.review.accountId);
    ParseIntOfShow(a);
  }

  /** NOT_SPECIFIED keeps a review exactly when it has no experience or neither bound. */
  lemma NotSpecifiedExact(exp: Option<Experience>)
    ensures MatchesExperience(exp, "NOT_SPECIFIED") <==> exp.None? || exp.value == Experience(None, None)
  {
  }

  /** Closed intervals overlap exactly when they share a whole year. */
  lemma OverlapShareYear(lo1: int, hi1: int, lo2: int, hi2: int)
    ensures Max(lo1, lo2) <= Min(hi1, hi2) <==> exists y :: InRange(y, lo1, hi1) && InRange(y, lo2, hi2)
  {
    if Max(lo1, lo2) <= Min(hi1, hi2) {
      assert InRange(Max(lo1, lo2), lo1, hi1) && InRange(Max(lo1, lo2), lo2, hi2);
    }
  }

  /**
   * A range option keeps a review exactly when the review states experience and some year lies
   * both in the option's range and in the review's range (missing from read as 0, missing to as
   * 100); a value that names no option keeps everything.
   */
  lemma RangeOptionMeaning(exp: Option<Experience>, filter: string)
    requires filter != "ALL" && filter != "NOT_SPECIFIED"
    ensures FindOption(RangeOptions, filter).None? ==> MatchesExperience(exp, filter)
    ensures FindOption(RangeOptions, filter).Some? ==>
      var b := FindOption(RangeOptions, filter).value;
      (MatchesExperience(exp, filter) <==>
        exp.Some? && exists y :: InRange(y, b.0, b.1) && InRange(y, exp.value.from.GetOr(0), exp.value.to.GetOr(100)))
  {
    if FindOption(RangeOptions, filter).Some? && exp.Some? {
      var b := FindOption(RangeOptions, filter).value;
      OverlapShareYear(b.0, b.1, exp.value.from.GetOr(0), exp.value.to.GetOr(100));
    }
  }

  /** The link of a contact, None when it is shown without one. */
  function ContactHref(c: Contact): (r: Option<string>)
    ensures c.kind == Email ==> r == Some("mailto:" + c.value)
    ensures c.kind == Phone ==> r == Some("tel:" + c.value)
    ensures c.kind == TelegramUsername ==>
      r == Some("https://t.me/" + (if StartsWith(c.value, "@") then c.value[1..] else c.value))
    ensures c.kind == TelegramId ==> (r.Some? <==> JsNumber(c.value).None?)
    ensures c.kind == ExternalPlatform ==> r.Some? && StartsWith(r.value, "http")
    ensures c.kind == OtherContact ==> r.None?
  {
    match c.kind
    case Email => Some("mailto:" + c.value)
    case Phone => Some("tel:" + c.value)
    case TelegramUsername =>
      Some("https://t.me/" + (if StartsWith(c.value, "@") then c.value[1..] else c.value))
    case TelegramId => if JsNumber(c.value).None? then Some("https://t.me/" + c.value) else None
    case ExternalPlatform =>
      var r := if StartsWith(c.value, "http") then c.value else "https://" + c.value;
      assert StartsWith(r, "http") by {
        if !StartsWith(c.value, "http") {
          assert r[..4] == "http";
        }
      }
      Some(r)
    case OtherContact => None
  }

  /** A username with or without its '@' links to the same profile. */
  lemma UsernameAtIgnored(name: string)
    requires !StartsWith(name, "@")
    ensures ContactHref(Contact(TelegramUsername, "@" + name)) == ContactHref(Contact(TelegramUsername, name))
  {
    var v := "@" + name;
    assert StartsWith(v, "@") by { assert v[..1] == "@"; }
    assert v[1..] == name;
  }

  /** A numeric Telegram ID (one the username lookup did not replace) gets no link. */
  lemma NumericTelegramIdHasNoLink(id: int)
    ensures ContactHref(Contact(TelegramId, Show(id))).None?
  {
    JsNumberOfShow(id);
  }

  /** An external link that already starts with "http" is kept as it is. */
  lemma ExternalLinkKept(v: string)
    requires StartsWith(v, "http")
    ensures ContactHref(Contact(ExternalPlatform, v)) == Some(v)
  {
  }

  /** `replace(/^-100/, "")`. */
  function StripChannelPrefix(s: string): (r: string)
    ensures StartsWith(s, "-100") ==> r == s[4..]
    ensures !StartsWith(s, "-100") ==> r == s
  {
    if StartsWith(s, "-100") then s[4..] else s
  }

  /** `getTelegramLink`: by username when the dialog has one, else the private-channel form. */
  function TelegramLink(dialogUsername: Option<string>, dialogId: int, messageId: int): (r: string)
    ensures var tail := "/" + Show(messageId); |tail| <= |r| && r[|r| - |tail|..] == tail
    ensures dialogUsername.Some? && dialogUsername.value != "" ==>
      StartsWith(r, "https://t.me/" + dialogUsername.value + "/")
    ensures dialogUsername.Some? && dialogUsername.value != "" ==>
      r == "https://t.me/" + dialogUsername.value + "/" + Show(messageId)
    ensures !(dialogUsername.Some? && dialogUsername.value != "") ==>
      StartsWith(r, "https://t.me/c/" + StripChannelPrefix(Show(dialogId)) + "/")
  {
    var tail := "/" + Show(messageId);
    var front := if dialogUsername.Some? && dialogUsername.value != "" then "https://t.me/" + dialogUsername.value
                 else "https://t.me/c/" + StripChannelPrefix(Show(dialogId));
    var r := front + tail;
    assert r[|front|..] == tail;
    assert r[..|front| + 1] == front + "/";
    r
  }

  /** For a channel dialog (id spelled "-100" + channel id) the private link carries the channel
      id itself, so the channel-id encoding and the link decoding are inverse. */
  lemma ChannelLinkUsesChannelId(c: int, messageId: int)
    requires c >= 0
    ensures ChannelChatId(c).Some?
    ensures TelegramLink(None, ChannelChatId(c).value, messageId) == "https://t.me/c/" + Show(c) + "/" + Show(messageId)
  {
    ChannelChatIdSpelling(c);
    var s := Show(ChannelChatId(c).value);
    assert s == "-100" + Show(c);
    assert StartsWith(s, "-100") by { assert s[..4] == "-100"; }
    assert s[4..] == Show(c);
  }

  /** A dialog with a non-negative id keeps its id unchanged in the link. */
  lemma PlainDialogLink(d: int, messageId: int)
    requires d >= 0
    ensures TelegramLink(None, d, messageId) == "https://t.me/c/" + Show(d) + "/" + Show(messageId)
  {
    assert !StartsWith(Show(d), "-100") by {
      assert IsDigit(Show(d)[0]);
    }
  }

  /** One version of a prompt in its history. */
  datatype PromptVersion = PromptVersion(id: int, name: string, version: int, content: string)

  function FindVersion(history: seq<PromptVersion>, version: int): (r: Option<PromptVersion>)
    ensures r.Some? ==> r.value in history && r.value.version == version
    ensures r.Some? ==> exists k :: 0 <= k < |history| && history[k] == r.value &&
                          forall j :: 0 <= j < k ==> history[j].version != version
    ensures r.None? <==> forall k :: 0 <= k < |history| ==> history[k].version != version
  {
    if |history| == 0 then None
    else if history[0].version == version then Some(history[0])
    else
      var r := FindVersion(history[1..], version);
      if r.Some? then
        var k :| 0 <= k < |history[1..]| && history[1..][k] == r.value &&
                 forall j :: 0 <= j < k ==> history[1..][j].version != version;
        assert history[k + 1] == r.value;
        r
      else r
  }

  /** The prompt PromptViewModal shows: the requested version when a (non-zero) version is given
      and the history has it, else the first entry of the history. */
  function PickPrompt(history: Option<seq<PromptVersion>>, version: Option<int>): (r: Option<PromptVersion>)
    ensures history.None? ==> r.None?
    ensures history.Some? && version.Some? && version.value != 0 && FindVersion(history.value, version.value).Some? ==>
      r.Some? && r.value.version == version.value && r.value in history.value
    ensures history.Some? && (version.None? || version.value == 0 || FindVersion(history.value, version.value).None?) ==>
      r == (if |history.value| > 0 then Some(history.value[0]) else None)
  {
    if history.None? then None
    else
      var first := if |history.value| > 0 then Some(history.value[0]) else None;
      if version.Some? && version.value != 0 then
        var found := FindVersion(history.value, version.value);
        if found.Some? then found else first
      else first
  }
}
