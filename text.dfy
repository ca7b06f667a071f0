/**
 * String helpers with the semantics of the JavaScript string methods the
 * dashboard calls: `toLowerCase`, `includes`, `indexOf`, `startsWith`,
 * `split`, `join`, `trim` and `parseInt`, plus the decimal rendering of a
 * natural number that template literals perform.
 */
module Text {
  import opened Wrappers
  import Sorting

  // ---------------------------------------------------------------- case

  /** Lower-cases one character (ASCII letters only; every other character is kept). */
  function LowerChar(c: char): char {
    if 'A' <= c <= 'Z' then (c as int + 32) as char else c
  }

  /** `s.toLowerCase()`, restricted to ASCII letters. */
  function Lower(s: string): (r: string)
    ensures |r| == |s|
    ensures forall i :: 0 <= i < |s| ==> r[i] == LowerChar(s[i])
  {
    if s == [] then [] else [LowerChar(s[0])] + Lower(s[1..])
  }

  lemma LowerAppend(a: string, b: string)
    ensures Lower(a + b) == Lower(a) + Lower(b)
  {
    var l, r := Lower(a + b), Lower(a) + Lower(b);
    forall i | 0 <= i < |l|
      ensures l[i] == r[i]
    {
      if i < |a| {
        assert (a + b)[i] == a[i];
      } else {
        assert (a + b)[i] == b[i - |a|];
      }
    }
    assert l == r;
  }

  /** Lower-casing leaves text without capital letters as it is. */
  lemma {:induction false} LowerKeeps(s: string)
    requires forall i :: 0 <= i < |s| ==> !('A' <= s[i] <= 'Z')
    ensures Lower(s) == s
  {
    if s != [] {
      LowerKeeps(s[1..]);
      assert s == [s[0]] + s[1..];
    }
  }

  /** Lower-casing twice is lower-casing once. */
  lemma LowerIdempotent(s: string)
    ensures Lower(Lower(s)) == Lower(s)
  {
    var l := Lower(s);
    assert forall i :: 0 <= i < |l| ==> !('A' <= l[i] <= 'Z');
    LowerKeeps(l);
  }

  // ---------------------------------------------------------------- search

  /** `t` occurs in `s` at position `i`. */
  predicate At(s: string, t: string, i: int) {
    0 <= i && i + |t| <= |s| && s[i..i + |t|] == t
  }

  /** `s.startsWith(p)`. */
  predicate StartsWith(s: string, p: string) {
    |p| <= |s| && s[..|p|] == p
  }

  /** `s.indexOf(t, from)`: the first position at or after `from` where `t` occurs. */
  function IndexOfFrom(s: string, t: string, from: nat): (r: Option<nat>)
    ensures r.Some? ==> from <= r.value && At(s, t, r.value)
    ensures r.Some? ==> forall j :: from <= j < r.value ==> !At(s, t, j)
    ensures r.None? ==> forall j :: from <= j ==> !At(s, t, j)
    decreases |s| - from
  {
    if from + |t| > |s| then None
    else if s[from..from + |t|] == t then Some(from)
    else IndexOfFrom(s, t, from + 1)
  }

  /** `s.indexOf(t)`, with -1 read as None. */
  function IndexOf(s: string, t: string): (r: Option<nat>)
    ensures r.Some? ==> At(s, t, r.value) && forall j :: 0 <= j < r.value ==> !At(s, t, j)
    ensures r.None? ==> forall j :: !At(s, t, j)
  {
    IndexOfFrom(s, t, 0)
  }

  /** `s.includes(t)`. */
  predicate Contains(s: string, t: string) {
    IndexOf(s, t).Some?
  }

  lemma ContainsAt(s: string, t: string, i: int)
    requires At(s, t, i)
    ensures Contains(s, t)
  {
  }

  lemma ContainsEmpty(s: string)
    ensures Contains(s, "")
  {
    assert At(s, "", 0);
  }

  /** Every string contains itself; the witness is position 0. */
  lemma ContainsSelf(s: string)
    ensures Contains(s, s)
  {
    assert At(s, s, 0);
  }

  // ---------------------------------------------------------------- split / join

  /** `s.split(sep)` for a non-empty separator: the pieces between the leftmost non-overlapping occurrences. */
  function Split(s: string, sep: string): (r: seq<string>)
    requires |sep| > 0
    ensures |r| >= 1
    decreases |s|
  {
    match IndexOf(s, sep)
    case None => [s]
    case Some(i) => [s[..i]] + Split(s[i + |sep|..], sep)
  }

  /** `parts.join(sep)`. */
  function Join(parts: seq<string>, sep: string): string {
    if parts == [] then ""
    else if |parts| == 1 then parts[0]
    else parts[0] + sep + Join(parts[1..], sep)
  }

  /** Splitting text that has no separator in it yields the text itself. */
  lemma SplitNoSep(s: string, sep: string)
    requires |sep| > 0
    requires !Contains(s, sep)
    ensures Split(s, sep) == [s]
  {
  }

  /**
   * Splitting `a + sep + b` cuts right after `a` when `sep` does not occur in
   * `a` and no occurrence straddles the end of `a`.
   */
  lemma SplitFirst(a: string, sep: string, b: string)
    requires |sep| > 0
    requires forall j :: 0 <= j < |a| ==> !At(a + sep + b, sep, j)
    ensures Split(a + sep + b, sep) == [a] + Split(b, sep)
  {
    var s := a + sep + b;
    assert At(s, sep, |a|) by {
      assert s[|a|..|a| + |sep|] == sep;
    }
    assert IndexOf(s, sep) == Some(|a|);
    assert s[..|a|] == a;
    assert s[|a| + |sep|..] == b;
  }

  /** Joining pieces that never contain the one-character separator `c`, then splitting on `c`, gives the pieces back. */
  lemma {:induction false} SplitJoin(parts: seq<string>, c: char)
    requires |parts| >= 1
    requires forall k :: 0 <= k < |parts| ==> c !in parts[k]
    ensures Split(Join(parts, [c]), [c]) == parts
  {
    if |parts| == 1 {
      forall j
        ensures !At(parts[0], [c], j)
      {
        if 0 <= j < |parts[0]| {
          assert parts[0][j..j + 1][0] == parts[0][j];
        }
      }
      SplitNoSep(parts[0], [c]);
    } else {
      var a := parts[0];
      var rest := Join(parts[1..], [c]);
      forall j | 0 <= j < |a|
        ensures !At(a + [c] + rest, [c], j)
      {
        assert (a + [c] + rest)[j] == a[j];
      }
      SplitFirst(a, [c], rest);
      SplitJoin(parts[1..], c);
      assert parts == [a] + parts[1..];
    }
  }

  /**
   * The same for a doubled separator `cc`: no piece may contain it, and no
   * piece but the last may end in `c` (its last character and the separator
   * would form an earlier occurrence).
   */
  lemma {:induction false} SplitJoinDouble(parts: seq<string>, c: char)
    requires |parts| >= 1
    requires forall k :: 0 <= k < |parts| ==> !Contains(parts[k], [c, c])
    requires forall k :: 0 <= k < |parts| - 1 ==> parts[k] == [] || parts[k][|parts[k]| - 1] != c
    ensures Split(Join(parts, [c, c]), [c, c]) == parts
  {
    if |parts| == 1 {
      SplitNoSep(parts[0], [c, c]);
    } else {
      var a := parts[0];
      var rest := Join(parts[1..], [c, c]);
      NoDoubleBefore(a, rest, c);
      SplitFirst(a, [c, c], rest);
      SplitJoinDouble(parts[1..], c);
      assert parts == [a] + parts[1..];
    }
  }

  /** A piece free of `cc` that does not end in `c` has no `cc` starting inside it, whatever follows it. */
  lemma NoDoubleBefore(a: string, rest: string, c: char)
    requires !Contains(a, [c, c]) && (a == [] || a[|a| - 1] != c)
    ensures forall j :: 0 <= j < |a| ==> !At(a + [c, c] + rest, [c, c], j)
  {
    var s := a + [c, c] + rest;
    forall j | 0 <= j < |a|
      ensures !At(s, [c, c], j)
    {
      if j + 1 < |a| {
        assert s[j..j + 2] == a[j..j + 2];
        assert !At(a, [c, c], j);
      } else {
        assert s[j] == a[|a| - 1];
      }
    }
  }

  // ---------------------------------------------------------------- order

  /**
   * The order `Array.prototype.sort` uses without a comparator: character by
   * character, a proper prefix first.
   */
  predicate StrLe(a: string, b: string) {
    a == [] || (b != [] && (a[0] < b[0] || (a[0] == b[0] && StrLe(a[1..], b[1..]))))
  }

  lemma {:induction false} StrLeTotal(a: string, b: string)
    ensures StrLe(a, b) || StrLe(b, a)
  {
    if a != [] && b != [] && a[0] == b[0] {
      StrLeTotal(a[1..], b[1..]);
    }
  }

  lemma {:induction false} StrLeTransitive(a: string, b: string, c: string)
    requires StrLe(a, b) && StrLe(b, c)
    ensures StrLe(a, c)
  {
    if a != [] && a[0] == b[0] && b[0] == c[0] {
      StrLeTransitive(a[1..], b[1..], c[1..]);
    }
  }

  lemma {:induction false} StrLeAntisymmetric(a: string, b: string)
    requires StrLe(a, b) && StrLe(b, a)
    ensures a == b
  {
    if a != [] {
      StrLeAntisymmetric(a[1..], b[1..]);
      assert a == [a[0]] + a[1..] && b == [b[0]] + b[1..];
    }
  }

  /** The default string order is a total order. */
  lemma StrLeTotalOrder()
    ensures Sorting.TotalPreorder(StrLe)
    ensures Sorting.Antisymmetric(StrLe)
  {
    forall a, b ensures StrLe(a, b) || StrLe(b, a) {
      StrLeTotal(a, b);
    }
    forall a, b, c | StrLe(a, b) && StrLe(b, c) ensures StrLe(a, c) {
      StrLeTransitive(a, b, c);
    }
    forall a, b | StrLe(a, b) && StrLe(b, a) ensures a == b {
      StrLeAntisymmetric(a, b);
    }
  }

  // ---------------------------------------------------------------- length

  /** A character above U+FFFF takes a surrogate pair, two UTF-16 code units; any other takes one. */
  function Units(c: char): nat {
    if c > '\U{FFFF}' then 2 else 1
  }

  /** `s.length`: the number of UTF-16 code units of `s`. */
  function Utf16Length(s: string): (r: nat)
    ensures |s| <= r <= 2 * |s|
    ensures r == |s| <==> forall i :: 0 <= i < |s| ==> s[i] <= '\U{FFFF}'
  {
    if s == [] then 0
    else
      var r := Units(s[0]) + Utf16Length(s[1..]);
      assert forall i :: 1 <= i < |s| ==> s[i] == s[1..][i - 1];
      r
  }

  // ---------------------------------------------------------------- trim

  /**
   * The characters `String.prototype.trim` removes: the ECMAScript
   * WhiteSpace characters (tab, vertical tab, form feed, U+FEFF and every
   * space separator of Unicode category Zs) and the LineTerminators.
   */
  predicate IsSpace(c: char) {
    c == '\t' || c == '\U{B}' || c == '\U{C}' || c == '\U{FEFF}'
    || c == ' ' || c == '\U{A0}' || c == '\U{1680}' || ('\U{2000}' <= c <= '\U{200A}')
    || c == '\U{202F}' || c == '\U{205F}' || c == '\U{3000}'
    || c == '\n' || c == '\r' || c == '\U{2028}' || c == '\U{2029}'
  }

  function TrimStart(s: string): (r: string)
    ensures |r| <= |s| && r == s[|s| - |r|..]
    ensures r == [] || !IsSpace(r[0])
  {
    if |s| > 0 && IsSpace(s[0]) then TrimStart(s[1..]) else s
  }

  function TrimEnd(s: string): (r: string)
    ensures |r| <= |s| && r == s[..|r|]
    ensures r == [] || !IsSpace(r[|r| - 1])
  {
    if |s| > 0 && IsSpace(s[|s| - 1]) then TrimEnd(s[..|s| - 1]) else s
  }

  /** `s.trim()`. */
  function Trim(s: string): string {
    TrimEnd(TrimStart(s))
  }

  /** Text with no removable white space at either end. */
  predicate IsTrimmed(s: string) {
    s == [] || (!IsSpace(s[0]) && !IsSpace(s[|s| - 1]))
  }

  lemma TrimTrimmed(s: string)
    requires IsTrimmed(s)
    ensures Trim(s) == s
  {
  }

  /** `s.trim()` is empty exactly when every character of `s` is white space. */
  predicate IsBlank(s: string) {
    Trim(s) == ""
  }

  // ---------------------------------------------------------------- numbers

  predicate IsDigit(c: char) {
    '0' <= c <= '9'
  }

  function DigitValue(c: char): nat
    requires IsDigit(c)
  {
    c as int - '0' as int
  }

  function DigitChar(d: nat): (c: char)
    requires d < 10
    ensures IsDigit(c) && DigitValue(c) == d
  {
    ('0' as int + d) as char
  }

  /** Length of the run of decimal digits at the front of `s`. */
  function LeadingDigits(s: string): (n: nat)
    ensures n <= |s|
    ensures forall i :: 0 <= i < n ==> IsDigit(s[i])
    ensures n < |s| ==> !IsDigit(s[n])
  {
    if |s| > 0 && IsDigit(s[0]) then 1 + LeadingDigits(s[1..]) else 0
  }

  /** The number a string of decimal digits denotes. */
  function DigitsValue(d: string): nat
    requires forall i :: 0 <= i < |d| ==> IsDigit(d[i])
  {
    if d == [] then 0 else DigitsValue(d[..|d| - 1]) * 10 + DigitValue(d[|d| - 1])
  }

  /**
   * `parseInt(s)` in base 10: leading white space, an optional sign, then at
   * least one digit; None stands for NaN.
   */
  function ParseInt(s: string): Option<int> {
    var t := TrimStart(s);
    if |t| > 0 && (t[0] == '-' || t[0] == '+') then
      match LeadingValue(t[1..])
      case None => None
      case Some(v) => if t[0] == '-' then Some(-(v as int)) else Some(v as int)
    else
      match LeadingValue(t)
      case None => None
      case Some(v) => Some(v as int)
  }

  /** The number the run of decimal digits at the front of `t` denotes, None when `t` does not start with a digit. */
  function LeadingValue(t: string): (r: Option<nat>)
    ensures r.None? <==> LeadingDigits(t) == 0
  {
    var d := t[..LeadingDigits(t)];
    assert forall i :: 0 <= i < |d| ==> IsDigit(d[i]);
    if d == [] then None else Some(DigitsValue(d))
  }

  /** The decimal rendering of a natural number, as `${n}` produces it. */
  function NatToString(n: nat): (r: string)
    ensures |r| > 0
    ensures forall i :: 0 <= i < |r| ==> IsDigit(r[i])
  {
    if n < 10 then [DigitChar(n)] else NatToString(n / 10) + [DigitChar(n % 10)]
  }

  lemma {:induction false} NatToStringValue(n: nat)
    ensures DigitsValue(NatToString(n)) == n
  {
    if n >= 10 {
      NatToStringValue(n / 10);
      var r := NatToString(n);
      assert r[..|r| - 1] == NatToString(n / 10);
    }
  }

  /** Rendering a natural number and parsing it back gives the number. */
  lemma ParseIntNatToString(n: nat)
    ensures ParseInt(NatToString(n)) == Some(n)
  {
    ParseIntDigits(NatToString(n));
    NatToStringValue(n);
  }

  /** A non-empty string of decimal digits parses to the number it denotes. */
  lemma ParseIntDigits(d: string)
    requires |d| > 0 && forall i :: 0 <= i < |d| ==> IsDigit(d[i])
    ensures ParseInt(d) == Some(DigitsValue(d))
  {
    assert !IsSpace(d[0]) && d[0] != '-' && d[0] != '+' by {
      assert IsDigit(d[0]);
    }
    assert TrimStart(d) == d;
    LeadingDigitsAll(d);
    assert d[..|d|] == d;
  }

  lemma {:induction false} LeadingDigitsAll(s: string)
    requires forall i :: 0 <= i < |s| ==> IsDigit(s[i])
    ensures LeadingDigits(s) == |s|
  {
    if |s| > 0 {
      LeadingDigitsAll(s[1..]);
    }
  }
}
