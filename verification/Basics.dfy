/** Small types and text operations that every other module uses.

    A Go string is a `string`, that is, a sequence of Unicode scalar values. A Go `int` or `int64`
    is an `int`; `Wrap64` is written wherever an `int` of the Go code could leave its 64 bits.
 */
module Basics {
  datatype Option<+T> = None | Some(value: T)

  datatype Result<+T, +E> = Ok(value: T) | Err(error: E)

  const INT64_MIN := -0x8000_0000_0000_0000
  const INT64_MAX := 0x7fff_ffff_ffff_ffff
  const TWO_TO_THE_64 := 0x1_0000_0000_0000_0000

  predicate IsInt64(x: int) {
    INT64_MIN <= x <= INT64_MAX
  }

  /** The value Go's two's-complement arithmetic leaves when the exact result is `x`. */
  function Wrap64(x: int): (r: int)
    ensures IsInt64(r)
    ensures IsInt64(x) ==> r == x
  {
    (x - INT64_MIN) % TWO_TO_THE_64 + INT64_MIN
  }

  /** unicode.IsSpace, the set that strings.TrimSpace removes. */
  predicate IsSpace(c: char) {
    || '\t' <= c <= '\r' || c == ' ' || c == '\U{85}' || c == '\U{A0}' || c == '\U{1680}'
    || '\U{2000}' <= c <= '\U{200A}' || c == '\U{2028}' || c == '\U{2029}' || c == '\U{202F}'
    || c == '\U{205F}' || c == '\U{3000}'
  }

  predicate IsDigit(c: char) {
    '0' <= c <= '9'
  }

  /** Drops the leading characters that satisfy `cut`. */
  function TrimLeft(s: string, cut: char -> bool): (r: string)
    ensures r != "" ==> !cut(r[0])
  {
    if s != "" && cut(s[0]) then TrimLeft(s[1..], cut) else s
  }

  /** Drops the trailing characters that satisfy `cut`. */
  function TrimRight(s: string, cut: char -> bool): (r: string)
    ensures r <= s
    ensures r != "" ==> !cut(r[|r| - 1])
  {
    if s != "" && cut(s[|s| - 1]) then TrimRight(s[..|s| - 1], cut) else s
  }

  /** strings.Trim with the cutset given as a predicate. */
  function Trim(s: string, cut: char -> bool): (r: string)
    ensures Trimmed(r, cut)
  {
    TrimRight(TrimLeft(s, cut), cut)
  }

  function TrimSpace(s: string): (r: string)
    ensures Trimmed(r, IsSpace)
  {
    Trim(s, IsSpace)
  }

  /** Nothing at either end is left to trim. */
  predicate Trimmed(s: string, cut: char -> bool) {
    s != "" ==> !cut(s[0]) && !cut(s[|s| - 1])
  }

  lemma TrimOfTrimmed(s: string, cut: char -> bool)
    requires Trimmed(s, cut)
    ensures Trim(s, cut) == s
  {
  }

  /** Trimming removes exactly the margins. */
  lemma TrimStripsMargins(a: string, s: string, b: string, cut: char -> bool)
    requires Trimmed(s, cut)
    requires (forall i :: 0 <= i < |a| ==> cut(a[i])) && (forall i :: 0 <= i < |b| ==> cut(b[i]))
    ensures Trim(a + s + b, cut) == s
  {
    assert a + s + b == a + (s + b);
    if s == "" {
      assert s + b == b && a + b == a + b + "";
      assert forall i :: 0 <= i < |a + b| ==> cut((a + b)[i]);
      TrimLeftStrips(a + b, "", cut);
      assert TrimRight("", cut) == "";
    } else {
      TrimLeftStrips(a, s + b, cut);
      TrimRightStrips(s, b, cut);
    }
  }

  lemma {:induction false} TrimLeftStrips(a: string, s: string, cut: char -> bool)
    requires (forall i :: 0 <= i < |a| ==> cut(a[i])) && (s != "" ==> !cut(s[0]))
    ensures TrimLeft(a + s, cut) == s
  {
    if a == "" {
      assert a + s == s;
    } else {
      assert (a + s)[1..] == a[1..] + s;
      TrimLeftStrips(a[1..], s, cut);
    }
  }

  lemma {:induction false} TrimRightStrips(s: string, b: string, cut: char -> bool)
    requires (forall i :: 0 <= i < |b| ==> cut(b[i])) && (s != "" ==> !cut(s[|s| - 1]))
    ensures TrimRight(s + b, cut) == s
  {
    if b == "" {
      assert s + b == s;
    } else {
      assert (s + b)[..|s + b| - 1] == s + b[..|b| - 1];
      TrimRightStrips(s, b[..|b| - 1], cut);
    }
  }

  /** A text that starts with something to keep does not trim to nothing. */
  lemma TrimKeepsFirst(s: string, cut: char -> bool)
    requires s != "" && !cut(s[0])
    ensures Trim(s, cut) != ""
  {
    TrimRightKeepsFirst(s, cut);
  }

  lemma {:induction false} TrimRightKeepsFirst(s: string, cut: char -> bool)
    requires s != "" && !cut(s[0])
    ensures TrimRight(s, cut) != ""
  {
    if |s| > 1 && cut(s[|s| - 1]) {
      TrimRightKeepsFirst(s[..|s| - 1], cut);
    }
  }

  /** ASCII lower-casing of one character: A-Z and nothing else. */
  function LowerAscii(c: char): char {
    if 'A' <= c <= 'Z' then (c as int + 32) as char else c
  }

  function FoldAscii(s: string): (r: string)
    ensures |r| == |s|
    ensures forall i :: 0 <= i < |s| ==> r[i] == LowerAscii(s[i])
  {
    seq(|s|, i requires 0 <= i < |s| => LowerAscii(s[i]))
  }

  /** The order SQLite's BINARY collation and Go's `<` put on two strings. */
  ghost predicate TextLess(a: string, b: string) {
    if a == "" then b != ""
    else if b == "" then false
    else a[0] < b[0] || (a[0] == b[0] && TextLess(a[1..], b[1..]))
  }

  lemma TextLessIrreflexive(a: string)
    ensures !TextLess(a, a)
  {
  }

  lemma {:induction false} TextLessTransitive(a: string, b: string, c: string)
    requires TextLess(a, b) && TextLess(b, c)
    ensures TextLess(a, c)
  {
    if a != "" && a[0] == b[0] && b[0] == c[0] {
      TextLessTransitive(a[1..], b[1..], c[1..]);
    }
  }

  lemma {:induction false} TextLessTotal(a: string, b: string)
    ensures TextLess(a, b) || a == b || TextLess(b, a)
  {
    if a != "" && b != "" && a[0] == b[0] {
      TextLessTotal(a[1..], b[1..]);
      assert a == [a[0]] + a[1..] && b == [b[0]] + b[1..];
    }
  }
}
