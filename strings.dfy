/**
 * The Python built-ins that the keyboards and the ОКО handlers lean on, stated
 * over `string` (a sequence of Unicode scalar values, like a Python `str`):
 * `str(n)` for a non-negative integer, `str.strip()`, `s.split(sep, 1)[1]`,
 * `sorted` on a set of option numbers and `", ".join(...)` of their decimal
 * strings. Each comes with the inverse or characterisation that says what it
 * computes.
 */
module Strings {
  import opened Wrappers

  predicate IsDigit(c: char) {
    '0' <= c <= '9'
  }

  predicate AllDigits(s: string) {
    forall k :: 0 <= k < |s| ==> IsDigit(s[k])
  }

  predicate StartsWith(s: string, prefix: string) {
    |prefix| <= |s| && s[..|prefix|] == prefix
  }

  function DigitChar(d: nat): (c: char)
    requires d < 10
    ensures IsDigit(c)
  {
    ('0' as int + d) as char
  }

  function DigitValue(c: char): (d: nat)
    requires IsDigit(c)
    ensures d < 10 && DigitChar(d) == c
  {
    c as int - '0' as int
  }

  /** Python's `str(n)` for `n >= 0`: the shortest decimal numeral of `n`. */
  function NatToString(n: nat): (s: string)
    ensures |s| >= 1 && AllDigits(s)
    ensures s[0] == '0' ==> n == 0 && s == "0"
    decreases n
  {
    if n < 10 then [DigitChar(n)] else NatToString(n / 10) + [DigitChar(n % 10)]
  }

  /** Reads a decimal numeral (the inverse of `NatToString`). */
  function ParseNat(s: string): nat
    requires AllDigits(s)
    decreases |s|
  {
    if s == [] then 0 else ParseNat(s[..|s| - 1]) * 10 + DigitValue(s[|s| - 1])
  }

  lemma {:induction false} ParseNatToString(n: nat)
    ensures ParseNat(NatToString(n)) == n
    decreases n
  {
    if n >= 10 {
      var s := NatToString(n);
      assert s[..|s| - 1] == NatToString(n / 10);
      ParseNatToString(n / 10);
    }
  }

  lemma NatToStringInjective(m: nat, n: nat)
    requires NatToString(m) == NatToString(n)
    ensures m == n
  {
    ParseNatToString(m);
    ParseNatToString(n);
  }

  // ---------------------------------------------------------------------------
  // str.strip()

  /** The characters for which Python's `str.isspace()` holds, which `str.strip()` removes. */
  predicate IsSpace(c: char) {
    || '\t' <= c <= '\r'
    || '\U{1C}' <= c <= ' '
    || c == '\U{85}' || c == '\U{A0}' || c == '\U{1680}'
    || '\U{2000}' <= c <= '\U{200A}'
    || c == '\U{2028}' || c == '\U{2029}' || c == '\U{202F}' || c == '\U{205F}' || c == '\U{3000}'
  }

  predicate AllSpace(s: string) {
    forall k :: 0 <= k < |s| ==> IsSpace(s[k])
  }

  /** No leading and no trailing white space. */
  predicate Trimmed(s: string) {
    s == [] || (!IsSpace(s[0]) && !IsSpace(s[|s| - 1]))
  }

  /** The length of the white-space run that starts `s`. */
  function LeadingSpaces(s: string): (n: nat)
    ensures n <= |s|
    ensures AllSpace(s[..n])
    ensures n < |s| ==> !IsSpace(s[n])
    decreases |s|
  {
    if s == [] || !IsSpace(s[0]) then 0 else 1 + LeadingSpaces(s[1..])
  }

  /** The length of the white-space run that ends `s`. */
  function TrailingSpaces(s: string): (n: nat)
    ensures n <= |s|
    ensures AllSpace(s[|s| - n..])
    ensures n < |s| ==> !IsSpace(s[|s| - 1 - n])
    decreases |s|
  {
    if s == [] || !IsSpace(s[|s| - 1]) then 0 else 1 + TrailingSpaces(s[..|s| - 1])
  }

  /** Python's `s.strip()`: `s` without its leading and trailing white space. */
  function Strip(s: string): (r: string)
    ensures Trimmed(r)
    ensures |r| <= |s|
    ensures r == [] <==> AllSpace(s)
  {
    var t := s[LeadingSpaces(s)..];
    assert AllSpace(s) <== t == [];
    t[..|t| - TrailingSpaces(t)]
  }

  lemma LeadingSpacesOfPadded(a: string, m: string)
    requires AllSpace(a)
    requires m == [] || !IsSpace(m[0])
    ensures LeadingSpaces(a + m) == |a|
  {
    var s := a + m;
    assert s[..|a|] == a;
    if m != [] {
      assert s[|a|] == m[0];
    }
  }

  lemma TrailingSpacesOfPadded(m: string, b: string)
    requires AllSpace(b)
    requires m == [] || !IsSpace(m[|m| - 1])
    ensures TrailingSpaces(m + b) == |b|
  {
    var s := m + b;
    assert s[|m|..] == b;
    if m != [] {
      assert s[|m| - 1] == m[|m| - 1];
    }
  }

  /**
   * What `strip` computes, characterised without reference to its body: text
   * padded on both sides by white space strips to the text itself.
   */
  lemma {:induction false} StripPadded(a: string, m: string, b: string)
    requires AllSpace(a) && AllSpace(b) && Trimmed(m)
    ensures Strip(a + m + b) == m
  {
    var s := a + m + b;
    if m == [] {
      assert s == a + b;
      assert AllSpace(s) by {
        forall k | 0 <= k < |s| ensures IsSpace(s[k]) {
          if k < |a| { assert s[k] == a[k]; } else { assert s[k] == b[k - |a|]; }
        }
      }
    } else {
      assert s == a + (m + b);
      LeadingSpacesOfPadded(a, m + b);
      var t := s[|a|..];
      assert t == m + b;
      TrailingSpacesOfPadded(m, b);
    }
  }

  lemma StripIdempotent(s: string)
    ensures Strip(Strip(s)) == Strip(s)
  {
    var r := Strip(s);
    StripPadded([], r, []);
    assert [] + r + [] == r;
  }

  // ---------------------------------------------------------------------------
  // s.split(sep, 1)[1]

  /** The position of the first `c` in `s`, if any (Python's `s.find(c)` with -1 as `None`). */
  function IndexOf(s: string, c: char): (r: Option<nat>)
    ensures r.Some? ==> r.value < |s| && s[r.value] == c && c !in s[..r.value]
    ensures r.None? ==> c !in s
    decreases |s|
  {
    if s == [] then None
    else if s[0] == c then Some(0)
    else match IndexOf(s[1..], c)
      case None => None
      case Some(i) =>
        assert s[..i + 1] == [s[0]] + s[1..][..i];
        Some(i + 1)
  }

  /**
   * Python's `s.split(sep, 1)[1]`: everything after the first `sep`;
   * `None` where Python raises `IndexError` (no `sep` in `s`).
   */
  function AfterFirst(s: string, sep: char): (r: Option<string>)
    ensures r.None? <==> sep !in s
  {
    match IndexOf(s, sep)
    case None => None
    case Some(i) => Some(s[i + 1..])
  }

  lemma AfterFirstOfPrefixed(p: string, sep: char, x: string)
    requires sep !in p
    ensures AfterFirst(p + [sep] + x, sep) == Some(x)
  {
    var s := p + [sep] + x;
    assert s[..|p|] == p;
    assert s[|p|] == sep;
    assert s[|p| + 1..] == x;
  }

  // ---------------------------------------------------------------------------
  // sorted(set)

  /** Some element of `s` is at most `y` and no larger than any other. */
  lemma HasMinimum(s: set<nat>, y: nat)
    requires y in s
    ensures exists m :: m in s && forall x :: x in s ==> m <= x
    decreases y
  {
    if z :| z in s && z < y {
      HasMinimum(s, z);
    } else {
      assert forall x :: x in s ==> y <= x;
    }
  }

  function SetMin(s: set<nat>): (m: nat)
    requires s != {}
    ensures m in s && forall x :: x in s ==> m <= x
  {
    var y :| y in s;
    HasMinimum(s, y);
    var m :| m in s && forall x :: x in s ==> m <= x;
    m
  }

  function Elements(xs: seq<nat>): set<nat> {
    set k | 0 <= k < |xs| :: xs[k]
  }

  lemma ElementsCons(m: nat, r: seq<nat>)
    ensures Elements([m] + r) == {m} + Elements(r)
  {
    var xs := [m] + r;
    forall x | x in Elements(r)
      ensures x in Elements(xs)
    {
      var k :| 0 <= k < |r| && r[k] == x;
      assert xs[k + 1] == x;
    }
    assert xs[0] == m;
  }

  predicate StrictlyIncreasing(xs: seq<nat>) {
    forall i, j :: 0 <= i < j < |xs| ==> xs[i] < xs[j]
  }

  lemma SortedCons(s: set<nat>, m: nat, r: seq<nat>)
    requires m in s && forall x :: x in s ==> m <= x
    requires |r| == |s - {m}| && Elements(r) == s - {m} && StrictlyIncreasing(r)
    ensures |[m] + r| == |s| && Elements([m] + r) == s && StrictlyIncreasing([m] + r)
  {
    ElementsCons(m, r);
    assert {m} + (s - {m}) == s;
    IncreasingCons(m, r);
  }

  lemma IncreasingCons(m: nat, r: seq<nat>)
    requires forall x :: x in Elements(r) ==> m < x
    requires StrictlyIncreasing(r)
    ensures StrictlyIncreasing([m] + r)
  {
    var xs := [m] + r;
    forall i, j | 0 <= i < j < |xs|
      ensures xs[i] < xs[j]
    {
      assert xs[j] == r[j - 1];
      if i == 0 {
        assert r[j - 1] in Elements(r);
      } else {
        assert xs[i] == r[i - 1];
      }
    }
  }

  /** Python's `sorted(s)` for a set of option numbers: the least element first, then the rest sorted. */
  function Sorted(s: set<nat>): (r: seq<nat>)
    decreases |s|
  {
    if s == {} then []
    else
      var m := SetMin(s);
      [m] + Sorted(s - {m})
  }

  /** `sorted(s)` lists every element of `s` once, in strictly increasing order. */
  lemma {:induction false} SortedSpec(s: set<nat>)
    ensures |Sorted(s)| == |s|
    ensures Elements(Sorted(s)) == s
    ensures StrictlyIncreasing(Sorted(s))
    decreases |s|
  {
    if s != {} {
      var m := SetMin(s);
      SortedSpec(s - {m});
      SortedCons(s, m, Sorted(s - {m}));
    }
  }

  lemma SortedInjective(s: set<nat>, t: set<nat>)
    requires Sorted(s) == Sorted(t)
    ensures s == t
  {
    SortedSpec(s);
    SortedSpec(t);
  }

  // ---------------------------------------------------------------------------
  // ", ".join(str(n) for n in xs)

  const Separator: string := ", "

  /** Python's `", ".join(str(n) for n in xs)`. */
  function JoinNums(xs: seq<nat>): string
    decreases |xs|
  {
    if xs == [] then ""
    else if |xs| == 1 then NatToString(xs[0])
    else NatToString(xs[0]) + Separator + JoinNums(xs[1..])
  }

  /** The length of the run of decimal digits that starts `s`. */
  function DigitRun(s: string): (n: nat)
    ensures n <= |s| && AllDigits(s[..n])
    ensures n < |s| ==> !IsDigit(s[n])
    decreases |s|
  {
    if s == [] || !IsDigit(s[0]) then 0 else 1 + DigitRun(s[1..])
  }

  /** Reads back a non-empty list written by `JoinNums`. */
  function ParseNumList(s: string): Option<seq<nat>>
    decreases |s|
  {
    var k := DigitRun(s);
    if k == 0 then None
    else if k == |s| then Some([ParseNat(s)])
    else if |s| >= k + 2 && s[k..k + 2] == Separator then
      match ParseNumList(s[k + 2..])
      case None => None
      case Some(rest) => Some([ParseNat(s[..k])] + rest)
    else None
  }

  /** Reads back any list written by `JoinNums`; the empty string is the empty list. */
  function ParseNums(s: string): Option<seq<nat>> {
    if s == "" then Some([]) else ParseNumList(s)
  }

  lemma DigitRunOfNumeral(d: string, rest: string)
    requires AllDigits(d)
    requires rest == [] || !IsDigit(rest[0])
    ensures DigitRun(d + rest) == |d|
  {
    var s := d + rest;
    assert s[..|d|] == d;
    if rest != [] {
      assert s[|d|] == rest[0];
    }
  }

  /** A numeral followed by the separator reads as that number in front of the rest of the list. */
  lemma ParseNumListCons(d: string, rest: string)
    requires d != [] && AllDigits(d)
    requires ParseNumList(rest).Some?
    ensures ParseNumList(d + Separator + rest) == Some([ParseNat(d)] + ParseNumList(rest).value)
  {
    var tail := Separator + rest;
    var s := d + tail;
    assert s == d + Separator + rest;
    assert tail[0] == ',';
    DigitRunOfNumeral(d, tail);
    assert s[..|d|] == d && s[|d|..] == tail;
    assert tail[..2] == Separator && tail[2..] == rest;
  }

  lemma {:induction false} ParseJoinNumsNonEmpty(xs: seq<nat>)
    requires xs != []
    ensures ParseNumList(JoinNums(xs)) == Some(xs)
    decreases |xs|
  {
    var d := NatToString(xs[0]);
    ParseNatToString(xs[0]);
    if |xs| == 1 {
      DigitRunOfNumeral(d, []);
      assert d + [] == d;
      assert xs == [xs[0]];
    } else {
      ParseJoinNumsNonEmpty(xs[1..]);
      ParseNumListCons(d, JoinNums(xs[1..]));
      assert [xs[0]] + xs[1..] == xs;
    }
  }

  /** `JoinNums` loses nothing: its output reads back to the same list. */
  lemma ParseJoinNums(xs: seq<nat>)
    ensures ParseNums(JoinNums(xs)) == Some(xs)
  {
    if xs != [] {
      ParseJoinNumsNonEmpty(xs);
      assert |NatToString(xs[0])| >= 1;
      assert JoinNums(xs) != "";
    }
  }
}
