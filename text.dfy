/** The string operations the log scripts rely on, over Dafny strings.
    Lines come from files decoded as latin-1, so every character is at
    most U+00FF; whitespace and case folding are those of Python's str
    methods restricted to that range. */
module Text {
  import opened Options

  /** The characters Python's `str.isspace()` accepts below U+0100. */
  const Whitespace: set<char> :=
    {' ', '\t', '\n', '\r', '\U{0B}', '\U{0C}', '\U{1C}', '\U{1D}', '\U{1E}', '\U{1F}', '\U{85}', '\U{A0}'}

  predicate IsDigit(c: char) {
    '0' <= c <= '9'
  }

  function DigitValue(c: char): (v: nat)
    requires IsDigit(c)
    ensures v < 10
  {
    c as int - '0' as int
  }

  /** The digit character of a value below ten. */
  function DigitChar(d: nat): (c: char)
    requires d < 10
    ensures IsDigit(c) && DigitValue(c) == d
  {
    ('0' as int + d) as char
  }

  predicate AllDigits(s: string) {
    forall i :: 0 <= i < |s| ==> IsDigit(s[i])
  }

  /** `s` has `p` at position `i`. */
  predicate OccursAt(s: string, p: string, i: int) {
    0 <= i && i + |p| <= |s| && s[i..i + |p|] == p
  }

  /** Python's `p in s` for strings. */
  predicate Contains(s: string, p: string) {
    exists i :: 0 <= i <= |s| - |p| && OccursAt(s, p, i)
  }

  predicate StartsWith(s: string, p: string) {
    |p| <= |s| && s[..|p|] == p
  }

  /** The end of the run of `cs` characters that starts at `k`. */
  function SkipFrom(s: string, cs: set<char>, k: nat): (n: nat)
    requires k <= |s|
    ensures k <= n <= |s|
    ensures forall i :: k <= i < n ==> s[i] in cs
    ensures n == |s| || s[n] !in cs
    decreases |s| - k
  {
    if k < |s| && s[k] in cs then SkipFrom(s, cs, k + 1) else k
  }

  /** The start of the run of `cs` characters that ends at `k`, going no
      lower than `lo`. */
  function SkipBackFrom(s: string, cs: set<char>, lo: nat, k: nat): (n: nat)
    requires lo <= k <= |s|
    ensures lo <= n <= k
    ensures forall i :: n <= i < k ==> s[i] in cs
    ensures n == lo || s[n - 1] !in cs
    decreases k
  {
    if k > lo && s[k - 1] in cs then SkipBackFrom(s, cs, lo, k - 1) else k
  }

  /** Python's `s.strip(chars)`: the leading run of `cs` characters goes
      first, then the trailing run of what is left. */
  function StripSet(s: string, cs: set<char>): string {
    var lo := SkipFrom(s, cs, 0);
    s[lo..SkipBackFrom(s, cs, lo, |s|)]
  }

  /** Python's `s.strip()`. */
  function Strip(s: string): string {
    StripSet(s, Whitespace)
  }

  /** Python's `str.lower()` on one character below U+0100. */
  function LowerChar(c: char): (d: char)
    ensures 'a' <= d <= 'z' ==> ('a' <= c <= 'z' || 'A' <= c <= 'Z')
    ensures d as int < 128 <==> c as int < 128
  {
    if 'A' <= c <= 'Z' then (c as int + 32) as char
    else if '\U{C0}' <= c <= '\U{DE}' && c != '\U{D7}' then (c as int + 32) as char
    else c
  }

  function Lower(s: string): (r: string)
    ensures |r| == |s|
    ensures forall i :: 0 <= i < |s| ==> r[i] == LowerChar(s[i])
  {
    seq(|s|, i requires 0 <= i < |s| => LowerChar(s[i]))
  }

  /** The capitals that `str.lower()` changes below U+0100: A to Z, and
      À to Þ except the multiplication sign. */
  predicate IsUpper(c: char) {
    'A' <= c <= 'Z' || ('\U{C0}' <= c <= '\U{DE}' && c != '\U{D7}')
  }

  /** `lower()` leaves no capital behind, moves each capital to its small
      letter 32 code points on, and leaves every other character alone. */
  lemma LowerCases(s: string)
    ensures forall i :: 0 <= i < |s| ==> !IsUpper(Lower(s)[i])
    ensures forall i :: 0 <= i < |s| && IsUpper(s[i]) ==> Lower(s)[i] as int == s[i] as int + 32
    ensures forall i :: 0 <= i < |s| && !IsUpper(s[i]) ==> Lower(s)[i] == s[i]
  {
  }

  /** Lower-casing twice is lower-casing once, and a text without
      capitals is its own lower case. */
  lemma LowerIdempotent(s: string)
    ensures Lower(Lower(s)) == Lower(s)
    ensures (forall i :: 0 <= i < |s| ==> !IsUpper(s[i])) <==> Lower(s) == s
  {
    LowerCases(s);
    if Lower(s) == s {
      forall i | 0 <= i < |s| ensures !IsUpper(s[i]) {
        assert s[i] == Lower(s)[i];
      }
    }
  }

  /** Lower-casing a slice is slicing the lower-cased text. */
  lemma LowerSlice(s: string, i: nat, j: nat)
    requires i <= j <= |s|
    ensures Lower(s)[i..j] == Lower(s[i..j])
  {
  }

  /** `m` holds `t` at position `i` with its letters in any mix of upper
      and lower case: that slice of `m` lower-cases to `t`. */
  predicate OccursAnyCaseAt(m: string, t: string, i: int) {
    0 <= i && i + |t| <= |m| && Lower(m[i..i + |t|]) == t
  }

  /** `t in m.lower()` holds exactly when `m` holds `t` in any mix of case,
      so a trigger text written in small letters is found however the log
      line capitalises it. */
  lemma {:induction false} ContainsAnyCase(m: string, t: string)
    ensures Contains(Lower(m), t) <==> exists i :: OccursAnyCaseAt(m, t, i)
  {
    if Contains(Lower(m), t) {
      var i :| 0 <= i <= |Lower(m)| - |t| && OccursAt(Lower(m), t, i);
      LowerSlice(m, i, i + |t|);
      assert OccursAnyCaseAt(m, t, i);
    }
    if exists i :: OccursAnyCaseAt(m, t, i) {
      var i :| OccursAnyCaseAt(m, t, i);
      LowerSlice(m, i, i + |t|);
      assert OccursAt(Lower(m), t, i);
    }
  }

  /** Python's `s.replace(p, "")`: occurrences are found left to right and do not overlap. */
  function RemoveAll(s: string, p: string): (r: string)
    requires |p| > 0
    ensures |r| <= |s|
    decreases |s|
  {
    if |s| < |p| then s
    else if s[..|p|] == p then RemoveAll(s[|p|..], p)
    else [s[0]] + RemoveAll(s[1..], p)
  }

  /** Removing a pattern that does not occur leaves the string as it is. */
  lemma {:induction false} RemoveAllAbsent(s: string, p: string)
    requires |p| > 0 && !Contains(s, p)
    ensures RemoveAll(s, p) == s
  {
    if |s| >= |p| {
      assert !OccursAt(s, p, 0);
      forall i | OccursAt(s[1..], p, i)
        ensures OccursAt(s, p, i + 1)
      {
        assert s[1..][i..i + |p|] == s[i + 1..i + 1 + |p|];
      }
      RemoveAllAbsent(s[1..], p);
    }
  }

  /** The position of the first occurrence of `p` in `s`, if any. */
  function IndexOf(s: string, p: string): (r: Option<nat>)
    ensures r.Some? <==> Contains(s, p)
    ensures r.Some? ==> OccursAt(s, p, r.value)
    ensures r.Some? ==> forall j :: 0 <= j < r.value ==> !OccursAt(s, p, j)
  {
    IndexFrom(s, p, 0)
  }

  function IndexFrom(s: string, p: string, k: nat): (r: Option<nat>)
    requires forall j :: 0 <= j < k ==> !OccursAt(s, p, j)
    ensures r.Some? <==> Contains(s, p)
    ensures r.Some? ==> k <= r.value && OccursAt(s, p, r.value)
    ensures r.Some? ==> forall j :: 0 <= j < r.value ==> !OccursAt(s, p, j)
    decreases |s| - k
  {
    if k + |p| > |s| then None
    else if OccursAt(s, p, k) then Some(k)
    else IndexFrom(s, p, k + 1)
  }

  /** An occurrence inside a suffix is an occurrence in the whole string. */
  lemma OccursInSuffix(s: string, p: string, k: nat, i: int)
    requires k <= |s|
    ensures OccursAt(s[k..], p, i) <==> (0 <= i && OccursAt(s, p, k + i))
  {
    if 0 <= i && i + |p| <= |s| - k {
      assert s[k..][i..i + |p|] == s[k + i..k + i + |p|];
    }
  }

  /** Python's `s.split(p)[-1]`: what follows the last of the
      non-overlapping occurrences of `p`, or all of `s` when there is none. */
  function LastPiece(s: string, p: string): (r: string)
    requires |p| > 0
    ensures |r| <= |s| && r == s[|s| - |r|..]
    ensures !Contains(r, p)
    ensures Contains(s, p) ==> OccursAt(s, p, |s| - |r| - |p|)
    ensures !Contains(s, p) ==> r == s
  {
    var k := LastPieceStart(s, p, 0, 0);
    forall i | OccursAt(s[k..], p, i) ensures false {
      OccursInSuffix(s, p, k, i);
    }
    s[k..]
  }

  /** Where the last piece of `s.split(p)` begins: the scan is at `k`, and
      the piece being read began at `start`. */
  function LastPieceStart(s: string, p: string, k: nat, start: nat): (r: nat)
    requires |p| > 0 && start <= k
    requires start == 0 || (start >= |p| && OccursAt(s, p, start - |p|))
    requires forall j :: start <= j < k ==> !OccursAt(s, p, j)
    ensures start <= r <= |s|
    ensures r == 0 || (r >= |p| && OccursAt(s, p, r - |p|))
    ensures forall j :: r <= j ==> !OccursAt(s, p, j)
    decreases |s| - k
  {
    if k + |p| > |s| then start
    else if OccursAt(s, p, k) then LastPieceStart(s, p, k + |p|, k + |p|)
    else LastPieceStart(s, p, k + 1, start)
  }

  /** An occurrence inside a slice is an occurrence in the whole string. */
  lemma OccursInSlice(s: string, p: string, lo: nat, hi: nat, i: int)
    requires lo <= hi <= |s|
    ensures OccursAt(s[lo..hi], p, i) <==> (0 <= i && OccursAt(s, p, lo + i) && lo + i + |p| <= hi)
  {
    if 0 <= i && lo + i + |p| <= hi {
      var u, v := s[lo..hi][i..i + |p|], s[lo + i..lo + i + |p|];
      assert |u| == |v|;
      forall k | 0 <= k < |p| ensures u[k] == v[k] {
        assert s[lo..hi][i + k] == s[lo + i + k];
      }
      assert u == v;
    }
  }

  /** `s.strip(cs)` is the slice of `s` between a run of `cs` characters
      at each end. */
  lemma StripSetIsSlice(s: string, cs: set<char>) returns (lo: nat, hi: nat)
    ensures lo <= hi <= |s| && StripSet(s, cs) == s[lo..hi]
    ensures forall i :: 0 <= i < lo ==> s[i] in cs
    ensures forall i :: hi <= i < |s| ==> s[i] in cs
    ensures lo < hi ==> s[lo] !in cs && s[hi - 1] !in cs
  {
    lo := SkipFrom(s, cs, 0);
    hi := SkipBackFrom(s, cs, lo, |s|);
  }

  /** An occurrence of `p` whose first and last characters are outside `cs`
      survives stripping `cs` from both ends, so `p in s.strip(cs)` is `p in s`. */
  lemma {:induction false} ContainsAfterStripSet(s: string, p: string, cs: set<char>)
    requires |p| > 0 && p[0] !in cs && p[|p| - 1] !in cs
    ensures Contains(StripSet(s, cs), p) <==> Contains(s, p)
  {
    var lo, hi := StripSetIsSlice(s, cs);
    var r := StripSet(s, cs);
    if Contains(r, p) {
      var i :| 0 <= i <= |r| - |p| && OccursAt(r, p, i);
      OccursInSlice(s, p, lo, hi, i);
      assert OccursAt(s, p, lo + i);
    }
    if Contains(s, p) {
      var i :| 0 <= i <= |s| - |p| && OccursAt(s, p, i);
      OccurrenceInsideTrim(s, p, cs, lo, hi, i);
      OccursInSlice(s, p, lo, hi, i - lo);
      assert OccursAt(r, p, i - lo);
    }
  }

  /** An occurrence of a pattern that neither starts nor ends with a
      character of `cs` lies between the trimmed runs of `cs`. */
  lemma OccurrenceInsideTrim(s: string, p: string, cs: set<char>, lo: nat, hi: nat, i: int)
    requires |p| > 0 && p[0] !in cs && p[|p| - 1] !in cs
    requires lo <= hi <= |s| && OccursAt(s, p, i)
    requires forall k :: 0 <= k < lo ==> s[k] in cs
    requires forall k :: hi <= k < |s| ==> s[k] in cs
    ensures lo <= i && i + |p| <= hi
  {
    assert s[i] == s[i..i + |p|][0] == p[0];
    assert s[i + |p| - 1] == s[i..i + |p|][|p| - 1] == p[|p| - 1];
  }

}
