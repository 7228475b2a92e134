/**
 * The display formatters of frontend/src/lib/utils.ts. Optional numbers follow JavaScript
 * truthiness (undefined and 0 are false); numbers are integers and `toLocaleString` is shown as
 * plain decimal.
 */
module FormatUtils {
  import opened Wrappers
  import opened Strings
  import opened Decimal

  predicate Truthy(n: Option<int>) {
    n.Some? && n.value != 0
  }

  /** `formatSalary(from, to)`. */
  function FormatSalary(from: Option<int>, to: Option<int>): (r: string)
    ensures r == "Not specified" <==> !Truthy(from) && !Truthy(to)
    ensures Truthy(from) && Truthy(to) ==> r == Show(from.value) + " - " + Show(to.value)
    ensures Truthy(from) && !Truthy(to) ==> r == "From " + Show(from.value)
    ensures !Truthy(from) && Truthy(to) ==> r == "Up to " + Show(to.value)
  {
    if !Truthy(from) && !Truthy(to) then "Not specified"
    else if Truthy(from) && Truthy(to) then
      var r := Show(from.value) + " - " + Show(to.value);
      assert r[0] == Show(from.value)[0];
      r
    else if Truthy(from) then
      var r := "From " + Show(from.value);
      assert r[0] == 'F';
      r
    else
      var r := "Up to " + Show(to.value);
      assert r[0] == 'U';
      r
  }

  /** A decimal spelling holds no space. */
  lemma ShowHasNoSpace(i: int)
    ensures forall k :: 0 <= k < |Show(i)| ==> Show(i)[k] != ' '
  {
    if i < 0 {
      assert forall k :: 1 <= k < |Show(i)| ==> Show(i)[k] == ShowNat(-i)[k - 1];
    }
  }

  /** Index of the first space of `s`, or |s|. */
  function FirstSpace(s: string): nat
    decreases |s|
  {
    if |s| == 0 || s[0] == ' ' then 0 else 1 + FirstSpace(s[1..])
  }

  lemma {:induction false} FirstSpaceAfter(a: string, t: string)
    requires forall k :: 0 <= k < |a| ==> a[k] != ' '
    requires |t| > 0 && t[0] == ' '
    ensures FirstSpace(a + t) == |a|
    decreases |a|
  {
    if |a| > 0 {
      assert (a + t)[1..] == a[1..] + t;
      FirstSpaceAfter(a[1..], t);
    }
  }

  /** Cutting `a + sep + b` at the first space recovers `a`, when `a` has no space and `sep` opens with one. */
  lemma SplitAtFirstSpace(a: string, b: string, c: string, d: string, sep: string)
    requires |sep| > 0 && sep[0] == ' '
    requires forall k :: 0 <= k < |a| ==> a[k] != ' '
    requires forall k :: 0 <= k < |c| ==> c[k] != ' '
    requires a + sep + b == c + sep + d
    ensures a == c && b == d
  {
    var s := a + sep + b;
    FirstSpaceAfter(a, sep + b);
    FirstSpaceAfter(c, sep + d);
    assert a + (sep + b) == s && c + (sep + d) == s;
    assert a == s[..|a|] && c == s[..|c|];
    assert b == s[|a| + |sep|..] && d == s[|c| + |sep|..];
  }

  /** Different salary forks with both bounds display differently. */
  lemma SalaryForkInjective(f1: int, t1: int, f2: int, t2: int)
    requires f1 != 0 && t1 != 0 && f2 != 0 && t2 != 0
    requires FormatSalary(Some(f1), Some(t1)) == FormatSalary(Some(f2), Some(t2))
    ensures f1 == f2 && t1 == t2
  {
    ShowHasNoSpace(f1);
    ShowHasNoSpace(f2);
    SplitAtFirstSpace(Show(f1), Show(t1), Show(f2), Show(t2), " - ");
    ParseIntOfShow(f1);
    ParseIntOfShow(f2);
    ParseIntOfShow(t1);
    ParseIntOfShow(t2);
  }

  /** "year" for exactly one, "years" otherwise. */
  function YearWord(n: int): string {
    if n == 1 then "year" else "years"
  }

  /** `formatExperience(from, to)`. */
  function FormatExperience(from: Option<int>, to: Option<int>): (r: string)
    ensures r == "" <==> !Truthy(from) && !Truthy(to)
    ensures Truthy(from) && Truthy(to) && from.value == to.value ==> r == Show(from.value) + " " + YearWord(from.value)
    ensures Truthy(from) && Truthy(to) && from.value != to.value ==> r == Show(from.value) + "-" + Show(to.value) + " years"
    ensures Truthy(from) && !Truthy(to) ==> r == Show(from.value) + "+ years"
    ensures !Truthy(from) && Truthy(to) ==> r == "Up to " + Show(to.value) + " " + YearWord(to.value)
  {
    if !Truthy(from) && !Truthy(to) then ""
    else if Truthy(from) && Truthy(to) then
      if from.value == to.value then Show(from.value) + " " + YearWord(from.value)
      else Show(from.value) + "-" + Show(to.value) + " years"
    else if Truthy(from) then Show(from.value) + "+ years"
    else "Up to " + Show(to.value) + " " + YearWord(to.value)
  }

  /** Equal bounds read in the singular exactly at one year. */
  lemma ExperienceSingular(n: int)
    requires n != 0
    ensures FormatExperience(Some(n), Some(n)) == Show(n) + (if n == 1 then " year" else " years")
    ensures FormatExperience(None, Some(n)) == "Up to " + Show(n) + (if n == 1 then " year" else " years")
  {
  }

  /** JavaScript's `s.slice(0, end)`: a negative end counts from the back. */
  function SliceTo(s: string, end: int): (r: string)
    ensures end >= 0 ==> r == s[..if end <= |s| then end else |s|]
    ensures end < 0 ==> r == s[..if |s| + end >= 0 then |s| + end else 0]
  {
    var e := if end < 0 then |s| + end else end;
    var e' := if e < 0 then 0 else if e > |s| then |s| else e;
    s[..e']
  }

  /** `truncate(str, length)`. */
  function Truncate(s: string, n: int): (r: string)
    ensures |s| <= n ==> r == s
    ensures 0 <= n < |s| ==> r == s[..n] + "..." && |r| == n + 3
    ensures n < 0 ==> r == SliceTo(s, n) + "..."
  {
    if |s| <= n then s else SliceTo(s, n) + "..."
  }

  /** For a non-negative length truncating twice is truncating once. */
  lemma TruncateIdempotent(s: string, n: int)
    requires n >= 0
    ensures Truncate(Truncate(s, n), n) == Truncate(s, n)
  {
    if |s| > n {
      var r := s[..n] + "...";
      assert r[..n] == s[..n];
    }
  }

  /** With a negative length the cut moves on every call, so truncation is not idempotent. */
  lemma TruncateNegativeNotIdempotent()
    ensures Truncate("ab", -1) == "a..."
    ensures Truncate(Truncate("ab", -1), -1) == "a....."
  {
    assert SliceTo("ab", -1) == "a";
    assert SliceTo("a...", -1) == "a..";
  }
}
