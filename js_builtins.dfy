/**
 * The JavaScript built-ins the core relies on, with the semantics the
 * ECMAScript standard gives them: String.prototype.includes, toLowerCase
 * (restricted to ASCII), trim, replace with a string pattern, and
 * Array.prototype.slice with one argument.
 */
module JsBuiltins {

  function Min(a: int, b: int): int { if a <= b then a else b }
  function Max(a: int, b: int): int { if a <= b then b else a }

  // ---------------------------------------------------------------------
  // String.prototype.includes

  /** `t` occurs in `s` starting at index `i`. */
  ghost predicate OccursAt(s: string, t: string, i: int)
  {
    0 <= i && i + |t| <= |s| && s[i..i + |t|] == t
  }

  /** A slice of the tail is the slice of the whole one place later. */
  lemma TailSlice(s: string, a: int, b: int)
    requires 1 <= a <= b <= |s|
    ensures s[1..][a - 1..b - 1] == s[a..b]
  {
    assert |s[1..][a - 1..b - 1]| == b - a;
    forall k | 0 <= k < b - a ensures s[1..][a - 1..b - 1][k] == s[a..b][k] {
      assert s[1..][a - 1..b - 1][k] == s[a + k];
    }
  }

  /** An occurrence in `s[1..]` is an occurrence in `s` one place later, and back. */
  lemma ShiftOccurrence(s: string, t: string)
    requires |t| <= |s| && s[..|t|] != t
    ensures (exists i :: OccursAt(s, t, i)) <==> (exists i :: OccursAt(s[1..], t, i))
  {
    forall i | OccursAt(s[1..], t, i) ensures OccursAt(s, t, i + 1) {
      TailSlice(s, i + 1, i + 1 + |t|);
    }
    forall i | OccursAt(s, t, i) ensures OccursAt(s[1..], t, i - 1) {
      assert i != 0;
      TailSlice(s, i, i + |t|);
    }
  }

  /** `s.includes(t)`: true exactly when `t` occurs somewhere in `s`. */
  function Includes(s: string, t: string): (r: bool)
    ensures r <==> exists i :: OccursAt(s, t, i)
    decreases |s|
  {
    if |t| > |s| then
      false
    else if s[..|t|] == t then
      assert OccursAt(s, t, 0);
      true
    else
      ShiftOccurrence(s, t);
      Includes(s[1..], t)
  }

  // ---------------------------------------------------------------------
  // String.prototype.toLowerCase, on the ASCII letters

  predicate IsUpperAscii(c: char) { 'A' <= c <= 'Z' }

  function LowerChar(c: char): (l: char)
    ensures !IsUpperAscii(l)
    ensures IsUpperAscii(c) ==> l as int == c as int + 32
    ensures !IsUpperAscii(c) ==> l == c
  {
    if IsUpperAscii(c) then (c as int + 32) as char else c
  }

  /** Lower-cases every ASCII capital and keeps every other character. */
  function ToLower(s: string): (r: string)
    ensures |r| == |s|
    ensures forall i :: 0 <= i < |s| ==> r[i] == LowerChar(s[i])
  {
    if s == [] then [] else [LowerChar(s[0])] + ToLower(s[1..])
  }

  lemma {:induction false} ToLowerIdempotent(s: string)
    ensures ToLower(ToLower(s)) == ToLower(s)
  {
    var l := ToLower(s);
    assert forall i :: 0 <= i < |l| ==> ToLower(l)[i] == l[i];
  }

  // ---------------------------------------------------------------------
  // String.prototype.trim

  /**
   * The characters trim removes: the WhiteSpace and LineTerminator
   * productions of the ECMAScript grammar (TAB, LF, VT, FF, CR, SPACE,
   * NBSP, ZWNBSP, the other Unicode space separators, LS and PS).
   */
  predicate IsWhiteSpace(c: char)
  {
    var n := c as int;
    (9 <= n <= 13) || n == 0x20 || n == 0xA0 || n == 0x1680 ||
    (0x2000 <= n <= 0x200A) || n == 0x2028 || n == 0x2029 ||
    n == 0x202F || n == 0x205F || n == 0x3000 || n == 0xFEFF
  }

  /** Length of the run of white space that starts `s`. */
  function LeadingSpace(s: string): (n: nat)
    ensures n <= |s|
    ensures forall k :: 0 <= k < n ==> IsWhiteSpace(s[k])
    ensures n < |s| ==> !IsWhiteSpace(s[n])
  {
    if s != [] && IsWhiteSpace(s[0]) then 1 + LeadingSpace(s[1..]) else 0
  }

  /** Length of the run of white space that ends `s`. */
  function TrailingSpace(s: string): (n: nat)
    ensures n <= |s|
    ensures forall k :: |s| - n <= k < |s| ==> IsWhiteSpace(s[k])
    ensures n < |s| ==> !IsWhiteSpace(s[|s| - 1 - n])
  {
    if s != [] && IsWhiteSpace(s[|s| - 1]) then 1 + TrailingSpace(s[..|s| - 1]) else 0
  }

  /**
   * `s.trim()`: the part of `s` left after the leading and trailing white
   * space is removed. The result is a slice of `s`, everything cut off is
   * white space, and the result neither starts nor ends with white space.
   */
  function Trim(s: string): (r: string)
    ensures LeadingSpace(s) + |r| <= |s|
    ensures r == s[LeadingSpace(s)..LeadingSpace(s) + |r|]
    ensures forall k :: LeadingSpace(s) + |r| <= k < |s| ==> IsWhiteSpace(s[k])
    ensures r != [] ==> !IsWhiteSpace(r[0]) && !IsWhiteSpace(r[|r| - 1])
  {
    var rest := s[LeadingSpace(s)..];
    var r := rest[..|rest| - TrailingSpace(rest)];
    assert r != [] ==> r[0] == rest[0];
    r
  }

  /** A string without white space at either end is its own trim. */
  lemma TrimKeepsTrimmed(s: string)
    requires s != [] ==> !IsWhiteSpace(s[0]) && !IsWhiteSpace(s[|s| - 1])
    ensures Trim(s) == s
  {
    if s != [] {
      assert LeadingSpace(s) == 0;
      assert TrailingSpace(s) == 0;
    }
  }

  /** Trimming twice is trimming once. */
  lemma TrimIdempotent(s: string)
    ensures Trim(Trim(s)) == Trim(s)
  {
    TrimKeepsTrimmed(Trim(s));
  }

  // ---------------------------------------------------------------------
  // String.prototype.replace(c, "") with a one-character string pattern

  /** Index of the first `c` in `s`. */
  function IndexOf(s: string, c: char): (i: nat)
    requires c in s
    ensures i < |s| && s[i] == c && c !in s[..i]
  {
    if s[0] == c then 0 else 1 + IndexOf(s[1..], c)
  }

  /** `s.replace(c, "")`: removes the first occurrence of `c`, if any, and nothing else. */
  function RemoveFirst(s: string, c: char): (r: string)
    ensures c !in s ==> r == s
    ensures c in s ==> |r| == |s| - 1
    ensures c in s ==> s == r[..IndexOf(s, c)] + [c] + r[IndexOf(s, c)..] && c !in r[..IndexOf(s, c)]
  {
    if c in s then
      var i := IndexOf(s, c);
      var r := s[..i] + s[i + 1..];
      assert r[..i] == s[..i];
      assert r[i..] == s[i + 1..];
      assert s == s[..i] + [c] + s[i + 1..];
      r
    else s
  }

  // ---------------------------------------------------------------------
  // Array.prototype.slice(start)

  /**
   * `s.slice(start)`: a negative start counts from the end and is clamped
   * at 0, a start past the end gives the empty sequence. In particular a
   * start of -n (n >= 1) keeps the last min(n, |s|) elements, and a start
   * of -0, which is 0, keeps all of them.
   */
  function SliceFrom<T>(s: seq<T>, start: int): (r: seq<T>)
    ensures start < 0 ==> |r| == Min(-start, |s|) && r == s[|s| - |r|..]
    ensures 0 <= start ==> |r| == Max(|s| - start, 0) && r == s[|s| - |r|..]
  {
    if start < 0 then
      (if |s| + start < 0 then s else s[|s| + start..])
    else if start > |s| then []
    else s[start..]
  }

  // ---------------------------------------------------------------------
  // parseInt on the decimal digits that start a string

  predicate IsDigit(c: char) { '0' <= c <= '9' }

  /** Value of the run of decimal digits at the start of `s`; 0 when there is none. */
  function LeadingNumber(s: string): (n: nat)
    decreases |s|
  {
    DigitsValue(s[..LeadingDigits(s)])
  }

  function LeadingDigits(s: string): (n: nat)
    ensures n <= |s|
    ensures forall k :: 0 <= k < n ==> IsDigit(s[k])
    ensures n < |s| ==> !IsDigit(s[n])
  {
    if s != [] && IsDigit(s[0]) then 1 + LeadingDigits(s[1..]) else 0
  }

  function DigitsValue(d: string): nat
    requires forall k :: 0 <= k < |d| ==> IsDigit(d[k])
  {
    if d == [] then 0
    else
      assert IsDigit(d[|d| - 1]);
      10 * DigitsValue(d[..|d| - 1]) + (d[|d| - 1] as int - '0' as int)
  }
}
