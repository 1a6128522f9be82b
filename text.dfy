/**
 * Character-level helpers shared by the two Python files: the whitespace class
 * used by `str.strip()` and by the regular-expression class `\s`, substring
 * search, `str.join` and `str(int)`.
 */
module Text {
  import opened Wrappers

  /**
   * The characters Python's `str.isspace()` accepts; `str.strip()` with no
   * argument and the `\s` class of a `str` pattern both use this set.
   */
  predicate IsSpace(c: char)
  {
    c == ' ' || ('\t' <= c <= '\r') || ('\U{1C}' <= c <= '\U{1F}')
    || c == '\U{85}' || c == '\U{A0}' || c == '\U{1680}'
    || ('\U{2000}' <= c <= '\U{200A}') || c == '\U{2028}' || c == '\U{2029}'
    || c == '\U{202F}' || c == '\U{205F}' || c == '\U{3000}'
  }

  /** Every character of `s` from index `i` up to `j` is whitespace. */
  predicate SpaceBetween(s: string, i: nat, j: nat)
  {
    i <= j <= |s| && forall k :: i <= k < j ==> IsSpace(s[k])
  }

  predicate AllSpace(s: string)
  {
    SpaceBetween(s, 0, |s|)
  }

  /** Where the run of whitespace that starts at `i` ends, not looking past `j`. */
  function SkipSpace(s: string, i: nat, j: nat): (k: nat)
    requires i <= j <= |s|
    ensures i <= k <= j && SpaceBetween(s, i, k) && (k < j ==> !IsSpace(s[k]))
    decreases j - i
  {
    if i == j || !IsSpace(s[i]) then i else SkipSpace(s, i + 1, j)
  }

  /** Where the run of whitespace that ends at `j` starts, not looking before `i`. */
  function SkipSpaceBack(s: string, i: nat, j: nat): (k: nat)
    requires i <= j <= |s|
    ensures i <= k <= j && SpaceBetween(s, k, j) && (i < k ==> !IsSpace(s[k - 1]))
    decreases j - i
  {
    if i == j || !IsSpace(s[j - 1]) then j else SkipSpaceBack(s, i, j - 1)
  }

  /** The ensures of `SkipSpace` pin its result down. */
  lemma SkipSpaceUnique(s: string, i: nat, j: nat, k: nat)
    requires i <= k <= j <= |s| && SpaceBetween(s, i, k) && (k < j ==> !IsSpace(s[k]))
    ensures SkipSpace(s, i, j) == k
  {
  }

  /** The ensures of `SkipSpaceBack` pin its result down. */
  lemma SkipSpaceBackUnique(s: string, i: nat, j: nat, k: nat)
    requires i <= k <= j <= |s| && SpaceBetween(s, k, j) && (i < k ==> !IsSpace(s[k - 1]))
    ensures SkipSpaceBack(s, i, j) == k
  {
  }

  /** Whitespace runs inside `s` do not change when more text follows `s`. */
  lemma SkipSpaceExtend(s: string, more: string, i: nat, j: nat)
    requires i <= j <= |s|
    ensures SkipSpace(s + more, i, j) == SkipSpace(s, i, j)
    ensures SkipSpaceBack(s + more, i, j) == SkipSpaceBack(s, i, j)
  {
    var k, m := SkipSpace(s, i, j), SkipSpaceBack(s, i, j);
    assert forall x :: 0 <= x < |s| ==> (s + more)[x] == s[x];
    SkipSpaceUnique(s + more, i, j, k);
    SkipSpaceBackUnique(s + more, i, j, m);
  }

  /**
   * Python's `s.strip()`: the part of `s` left once the whitespace at both
   * ends is removed. It neither starts nor ends with whitespace, and it is
   * empty exactly when `s` is all whitespace; `StripSlice` says where in `s`
   * it lies.
   */
  function Strip(s: string): (r: string)
    ensures |r| <= |s|
    ensures r == [] || (!IsSpace(r[0]) && !IsSpace(r[|r| - 1]))
    ensures r == [] <==> AllSpace(s)
  {
    var a := SkipSpace(s, 0, |s|);
    s[a..SkipSpaceBack(s, a, |s|)]
  }

  /** A string with no whitespace at either end is its own strip. */
  lemma StripTrimmed(s: string)
    requires s == [] || (!IsSpace(s[0]) && !IsSpace(s[|s| - 1]))
    ensures Strip(s) == s
  {
    SkipSpaceUnique(s, 0, |s|, 0);
    SkipSpaceBackUnique(s, 0, |s|, |s|);
  }

  /**
   * Where the text `Strip` keeps of the slice `s[a..c]` lies in `s`: it runs
   * from the end of the whitespace after `a` to the start of the whitespace
   * before `c`.
   */
  lemma StripSlice(s: string, a: nat, c: nat) returns (gs: nat, ge: nat)
    requires a <= c <= |s|
    ensures gs == SkipSpace(s, a, c) && ge == SkipSpaceBack(s, gs, c)
    ensures a <= gs <= ge <= c && SpaceBetween(s, a, gs) && SpaceBetween(s, ge, c)
    ensures Strip(s[a..c]) == s[gs..ge]
  {
    gs := SkipSpace(s, a, c);
    ge := SkipSpaceBack(s, gs, c);
    var t := s[a..c];
    assert a + |t| == c;
    assert CopyAt(t, s, a);
    StripShifted(t, s, a);
    assert SkipSpace(s, a, a + |t|) == gs && SkipSpaceBack(s, gs, a + |t|) == ge;
  }

  /** `t` is a copy of the part of `s` that starts at index `a`. */
  predicate CopyAt(t: string, s: string, a: nat)
  {
    a + |t| <= |s| && forall k :: 0 <= k < |t| ==> t[k] == s[a + k]
  }

  /** Stripping a copy of part of `s` keeps the same characters `s` has there. */
  lemma StripShifted(t: string, s: string, a: nat)
    requires CopyAt(t, s, a)
    ensures var x := SkipSpace(s, a, a + |t|);
            Strip(t) == s[x..SkipSpaceBack(s, x, a + |t|)]
  {
    var x := SkipSpace(t, 0, |t|);
    var y := SkipSpaceBack(t, x, |t|);
    assert Strip(t) == t[x..y];
    SkipSpaceShifted(t, s, a, 0, |t|);
    SkipSpaceBackShifted(t, s, a, x, |t|);
    CopySlice(t, s, a, x, y);
    var x', y' := a + x, a + y;
    assert x' == SkipSpace(s, a, a + |t|) && y' == SkipSpaceBack(s, x', a + |t|);
    assert Strip(t) == s[x'..y'];
  }

  /** A slice of a copy is the matching slice of the original. */
  lemma CopySlice(t: string, s: string, a: nat, x: nat, y: nat)
    requires CopyAt(t, s, a) && x <= y <= |t|
    ensures t[x..y] == s[a + x..a + y]
  {
  }

  /** Skipping whitespace in a copy is skipping it in the original, shifted. */
  lemma {:induction false} SkipSpaceShifted(t: string, s: string, a: nat, i: nat, j: nat)
    requires CopyAt(t, s, a) && i <= j <= |t|
    ensures SkipSpace(t, i, j) + a == SkipSpace(s, a + i, a + j)
    decreases j - i
  {
    if i < j {
      SkipSpaceShifted(t, s, a, i + 1, j);
    }
  }

  /** Skipping whitespace backwards in a copy is skipping it in the original, shifted. */
  lemma {:induction false} SkipSpaceBackShifted(t: string, s: string, a: nat, i: nat, j: nat)
    requires CopyAt(t, s, a) && i <= j <= |t|
    ensures SkipSpaceBack(t, i, j) + a == SkipSpaceBack(s, a + i, a + j)
    decreases j - i
  {
    if i < j {
      SkipSpaceBackShifted(t, s, a, i, j - 1);
    }
  }

  /** `pat` occurs in `s` starting at index `k`. */
  predicate OccursAt(s: string, pat: string, k: nat)
  {
    k + |pat| <= |s| && forall i :: 0 <= i < |pat| ==> s[k + i] == pat[i]
  }

  /** Python's `s.find(pat, start)`, as an option: the first occurrence at or after `start`. */
  function Find(s: string, pat: string, start: nat): (r: Option<nat>)
    ensures r.Some? ==> start <= r.value && OccursAt(s, pat, r.value)
    ensures r.Some? ==> forall j :: start <= j < r.value ==> !OccursAt(s, pat, j)
    ensures r.None? ==> forall j :: start <= j ==> !OccursAt(s, pat, j)
    decreases |s| - start
  {
    if start + |pat| > |s| then None
    else if OccursAt(s, pat, start) then Some(start)
    else Find(s, pat, start + 1)
  }

  /** The first occurrence found in `s` stays the first one when more text follows `s`. */
  lemma {:induction false} FindExtend(s: string, t: string, pat: string, start: nat)
    requires Find(s, pat, start).Some?
    ensures Find(s + t, pat, start) == Find(s, pat, start)
    decreases |s| - start
  {
    var k := Find(s, pat, start).value;
    assert (s + t)[start..start + |pat|] == s[start..start + |pat|];
    if start < k {
      FindExtend(s, t, pat, start + 1);
    }
  }

  /** Python's `s.find(c)` for one character, as an option: its first occurrence. */
  function FindFirst(s: string, c: char): (r: Option<nat>)
    ensures r.Some? ==> r.value < |s| && s[r.value] == c
                        && forall j :: 0 <= j < r.value ==> s[j] != c
    ensures r.None? ==> forall j :: 0 <= j < |s| ==> s[j] != c
  {
    if s == [] then None
    else if s[0] == c then Some(0)
    else match FindFirst(s[1..], c)
      case None => None
      case Some(k) => Some(k + 1)
  }

  /** Python's `s.rfind(c)` for one character, as an option: its last occurrence. */
  function FindLast(s: string, c: char): (r: Option<nat>)
    ensures r.Some? ==> r.value < |s| && s[r.value] == c
                        && forall j :: r.value < j < |s| ==> s[j] != c
    ensures r.None? ==> forall j :: 0 <= j < |s| ==> s[j] != c
  {
    if s == [] then None
    else if s[|s| - 1] == c then Some(|s| - 1)
    else FindLast(s[..|s| - 1], c)
  }

  /** Python's `sep.join(parts)`. */
  function Join(sep: string, parts: seq<string>): string
  {
    if |parts| == 0 then ""
    else if |parts| == 1 then parts[0]
    else parts[0] + sep + Join(sep, parts[1..])
  }

  function DigitChar(d: nat): (c: char)
    requires d < 10
    ensures '0' <= c <= '9' && c as int - '0' as int == d
  {
    ('0' as int + d) as char
  }

  /** The integer a string of decimal digits denotes. */
  function DecimalValue(s: string): int
  {
    if s == [] then 0 else 10 * DecimalValue(s[..|s| - 1]) + (s[|s| - 1] as int - '0' as int)
  }

  predicate IsDigits(s: string)
  {
    forall i :: 0 <= i < |s| ==> '0' <= s[i] <= '9'
  }

  /** Python's `str(n)` for a non-negative integer: its shortest decimal numeral. */
  function NatToString(n: nat): (r: string)
    ensures r != [] && IsDigits(r) && DecimalValue(r) == n
    ensures r[0] == '0' ==> r == "0"
  {
    if n < 10 then [DigitChar(n)]
    else
      var p := NatToString(n / 10);
      var d := DigitChar(n % 10);
      AppendDigit(p, d);
      p + [d]
  }

  lemma AppendDigit(p: string, d: char)
    requires IsDigits(p) && '0' <= d <= '9'
    ensures IsDigits(p + [d]) && (p + [d])[0] == (if p == [] then d else p[0])
    ensures DecimalValue(p + [d]) == 10 * DecimalValue(p) + (d as int - '0' as int)
  {
    assert (p + [d])[..|p|] == p;
  }

  /**
   * Python's `str(i)` for any integer: the shortest decimal numeral of `i`,
   * after a minus sign when `i` is negative.
   */
  function IntToString(i: int): (r: string)
    ensures i >= 0 ==> r != [] && IsDigits(r) && DecimalValue(r) == i && (r[0] == '0' ==> r == "0")
    ensures i < 0 ==> |r| >= 2 && r[0] == '-' && r[1] != '0' && IsDigits(r[1..]) && DecimalValue(r[1..]) == -i
  {
    if i >= 0 then NatToString(i)
    else
      var digits := NatToString(-i);
      assert ("-" + digits)[1..] == digits;
      "-" + digits
  }
}
