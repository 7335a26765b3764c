/**
 * Shared text helpers used by every revision of the front end: the rune a
 * cursor reads (a character, or the end-of-input marker), ASCII character
 * classes, runs of characters, and the small renderings that error messages
 * embed (decimal numbers, `%#U`, `%q`).
 */
module Runes {

  /** What a lexer's `next` returns: one character, or the end-of-input marker. */
  datatype Rune = Eof | Ch(c: char)

  /** The rune at index `p`, or EOF past the end. */
  function At(s: string, p: nat): (r: Rune)
    ensures r.Eof? <==> p >= |s|
    ensures r.Ch? ==> r.c == s[p]
  {
    if p < |s| then Ch(s[p]) else Eof
  }

  predicate IsDecimalDigit(c: char) { '0' <= c <= '9' }

  predicate IsAsciiLetter(c: char) { 'a' <= c <= 'z' || 'A' <= c <= 'Z' }

  /** `unicode.IsLetter`, restricted to ASCII. */
  predicate IsLetter(c: char) { IsAsciiLetter(c) }

  /** `unicode.IsDigit`, restricted to ASCII. */
  predicate IsDigit(c: char) { IsDecimalDigit(c) }

  /** `isAlphaNumeric` of the channel lexers: '_', a letter or a digit. */
  predicate IsAlphaNumeric(c: char) { c == '_' || IsLetter(c) || IsDigit(c) }

  /** `strings.ContainsRune(valid, r)`; the end marker is in no set. */
  predicate RuneIn(r: Rune, valid: string) { r.Ch? && r.c in valid }

  /** The first index at or after `p` whose character is not in `valid`. */
  function RunEnd(s: string, p: nat, valid: string): (e: nat)
    requires p <= |s|
    decreases |s| - p
    ensures p <= e <= |s|
    ensures forall k :: p <= k < e ==> s[k] in valid
    ensures e == |s| || s[e] !in valid
  {
    if p < |s| && s[p] in valid then RunEnd(s, p + 1, valid) else p
  }

  // ---------------------------------------------------------------------
  // Decimal rendering (`%d`, `strconv.Itoa`)

  function DigitChar(d: nat): (c: char)
    requires d < 10
    ensures IsDecimalDigit(c) && DigitValue(c) == d
  {
    ['0', '1', '2', '3', '4', '5', '6', '7', '8', '9'][d]
  }

  /** The value of one decimal digit. */
  function DigitValue(c: char): (d: nat)
    requires IsDecimalDigit(c)
    ensures d < 10
  {
    (c as int) - ('0' as int)
  }

  /** The number a string of decimal digits denotes. */
  function DecimalValue(s: string): nat
    requires forall k :: 0 <= k < |s| ==> IsDecimalDigit(s[k])
  {
    if s == [] then 0
    else DecimalValue(s[..|s| - 1]) * 10 + DigitValue(s[|s| - 1])
  }

  /** The shortest decimal spelling of `n`. */
  function NatToString(n: nat): (s: string)
    ensures |s| > 0
    ensures forall k :: 0 <= k < |s| ==> IsDecimalDigit(s[k])
    ensures DecimalValue(s) == n
    ensures s[0] == '0' ==> n == 0
  {
    if n < 10 then [DigitChar(n)]
    else
      var init := NatToString(n / 10);
      assert (init + [DigitChar(n % 10)])[..|init|] == init;
      init + [DigitChar(n % 10)]
  }

  /** `strconv.Itoa`: a leading '-' for negative numbers. */
  function IntToString(i: int): (s: string)
    ensures |s| > 0
    ensures i >= 0 ==> s == NatToString(i)
    ensures i < 0 ==> s == "-" + NatToString(-i)
  {
    if i >= 0 then NatToString(i) else "-" + NatToString(-i)
  }

  // ---------------------------------------------------------------------
  // Renderings of message arguments. Only their fixed parts are modelled:
  // `%#U` renders as U+XXXX 'c' (four or more upper-case hex digits);
  // `%q` renders as the text between double quotes, without escaping.

  function HexDigit(d: nat): (c: char)
    requires d < 16
  {
    "0123456789ABCDEF"[d]
  }

  function Hex(n: nat): (s: string)
    ensures |s| > 0
  {
    if n < 16 then [HexDigit(n)] else Hex(n / 16) + [HexDigit(n % 16)]
  }

  function PadLeft(s: string, width: nat, fill: char): (r: string)
    ensures |r| == if |s| < width then width else |s|
    ensures r[|r| - |s|..] == s
  {
    if |s| < width then seq(width - |s|, _ => fill) + s else s
  }

  /** `fmt.Sprintf("%#U", c)`. */
  function RuneU(c: char): (s: string)
    ensures |s| >= 10 && s[..2] == "U+" && s[|s| - 4..] == [' ', '\'', c, '\'']
  {
    "U+" + PadLeft(Hex(c as nat), 4, '0') + " '" + [c] + "'"
  }

  /** `fmt.Sprintf("%q", s)`, without escaping. */
  function Quote(s: string): (r: string)
    ensures |r| == |s| + 2
  {
    "\"" + s + "\""
  }

  /** `strings.Count(s, string(c))`: how many times `c` occurs in `s`. */
  function CountOf(s: string, c: char): (n: nat)
    ensures n <= |s|
  {
    if s == [] then 0 else (if s[0] == c then 1 else 0) + CountOf(s[1..], c)
  }

  /** A rune that does not occur is counted zero times. */
  lemma {:induction false} CountOfAbsent(s: string, c: char)
    requires c !in s
    ensures CountOf(s, c) == 0
  {
    if s != [] {
      assert c !in s[1..];
      CountOfAbsent(s[1..], c);
    }
  }

  /** Counting over a sequence grown by one at the end. */
  lemma {:induction false} CountOfSnoc(s: string, c: char, x: char)
    ensures CountOf(s + [c], x) == CountOf(s, x) + (if c == x then 1 else 0)
  {
    if s != [] {
      assert (s + [c])[1..] == s[1..] + [c];
      CountOfSnoc(s[1..], c, x);
    }
  }

  /** Counting over a slice grown by one at the end. */
  lemma CountOfSliceSnoc(s: string, i: nat, j: nat, x: char)
    requires i < j <= |s|
    ensures CountOf(s[i..j], x) == CountOf(s[i..j - 1], x) + (if s[j - 1] == x then 1 else 0)
  {
    assert s[i..j] == s[i..j - 1] + [s[j - 1]];
    CountOfSnoc(s[i..j - 1], s[j - 1], x);
  }

  /** Concatenation regrouped: `(x + y) + z` is `x + (y + z)`. */
  lemma Regroup<T>(x: seq<T>, y: seq<T>, z: seq<T>, w: seq<T>)
    requires w == y + z
    ensures (x + y) + z == x + w
  {
  }
}
