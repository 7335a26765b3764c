/**
 * lang/lexer/lexer.go: the pull-based lexer. Each `Scan` skips blanks, then
 * produces one token, inserting a semicolon after a line break that follows
 * a token which may end a statement, tracking opened brackets on a stack and
 * counting (and optionally reporting) the errors it meets while still
 * returning a best-effort token.
 *
 * The token types are those of the token package revision this lexer was
 * written against (ILLEGAL, and the keywords class, super and self, are not
 * in lang/token/token.go).
 *
 * Where the merge-conflict regions of the file differ, the HEAD side is the
 * default; the `lox` flag selects the other side (double-quoted strings, and
 * `true`/`false` ending a statement).
 *
 * `ScanSpec` says what one `Scan` produces as a function of the input, the
 * cursor, the bracket stack and the previous token type; the `Lexer` class
 * carries it out step by step and is proved to agree with it.
 */
module ScanLexer {
  import opened Runes
  import Tok
  import opened TokenErrors

  /** `token.Type`: an integer enumeration, in this order. */
  type Kind = int

  const ILLEGAL: Kind := 0
  const EOF: Kind := 1
  const DOT: Kind := 2
  const COLON: Kind := 3
  const SEMICOLON: Kind := 4
  const COMMA: Kind := 5
  const LROUND: Kind := 6
  const LCURLY: Kind := 7
  const LSQUARE: Kind := 8
  const RROUND: Kind := 9
  const RCURLY: Kind := 10
  const RSQUARE: Kind := 11
  const NAME: Kind := 12
  const INT: Kind := 13
  const FLOAT: Kind := 14
  const STR: Kind := 15
  const PLUS: Kind := 16
  const MINUS: Kind := 17
  const DIV: Kind := 18
  const MULT: Kind := 19
  const MOD: Kind := 20
  const ASSIGN: Kind := 21
  const PLUSASSIGN: Kind := 22
  const MINUSASSIGN: Kind := 23
  const DIVASSIGN: Kind := 24
  const MULTASSIGN: Kind := 25
  const MODASSIGN: Kind := 26
  const EQ: Kind := 27
  const NEQ: Kind := 28
  const GR: Kind := 29
  const SM: Kind := 30
  const GREQ: Kind := 31
  const SMEQ: Kind := 32
  const LOGICALNOT: Kind := 33
  const LOGICALOR: Kind := 34
  const LOGICALAND: Kind := 35
  const FUNC: Kind := 36
  const IF: Kind := 37
  const ELSE: Kind := 38
  const ELIF: Kind := 39
  const FOR: Kind := 40
  const NULL: Kind := 41
  const FALSE: Kind := 42
  const TRUE: Kind := 43
  const WHILE: Kind := 44
  const RETURN: Kind := 45
  const IN: Kind := 46
  const BREAK: Kind := 47
  const CONT: Kind := 48
  const VAR: Kind := 49
  const CLASS: Kind := 50
  const SUPER: Kind := 51
  const SELF: Kind := 52

  /** One past the last type. */
  const KindCount: int := 53

  datatype Token = Token(kind: Kind, value: string, pos: Tok.Pos)

  /** The keyword types: the range between the keyword markers. */
  predicate IsKeyword(k: Kind) { FUNC <= k <= SELF }

  /** The keyword table, in type order from FUNC. */
  const KeywordNames: seq<string> := [
    "func", "if", "else", "elif", "for", "null", "false", "true", "while", "return", "in",
    "break", "continue", "var", "class", "super", "self"
  ]

  /** The spelling of a keyword type. */
  function KeywordSpelling(k: Kind): string
    requires IsKeyword(k)
  {
    KeywordNames[k - FUNC]
  }

  /** `Keywords[word]`, when that lies in the keyword range: the keyword
   * type spelled `word`, if any. */
  function KeywordKind(word: string): (r: Option<Kind>)
    ensures r.Some? ==> IsKeyword(r.value) && KeywordSpelling(r.value) == word
  {
    if word == "func" then Some(FUNC) else if word == "if" then Some(IF)
    else if word == "else" then Some(ELSE) else if word == "elif" then Some(ELIF)
    else if word == "for" then Some(FOR) else if word == "null" then Some(NULL)
    else if word == "false" then Some(FALSE) else if word == "true" then Some(TRUE)
    else if word == "while" then Some(WHILE) else if word == "return" then Some(RETURN)
    else if word == "in" then Some(IN) else if word == "break" then Some(BREAK)
    else if word == "continue" then Some(CONT) else if word == "var" then Some(VAR)
    else if word == "class" then Some(CLASS) else if word == "super" then Some(SUPER)
    else if word == "self" then Some(SELF) else None
  }

  /** Every keyword type is found under its own spelling. */
  lemma KeywordTableComplete(k: Kind)
    requires IsKeyword(k)
    ensures KeywordKind(KeywordSpelling(k)) == Some(k)
  {
  }

  /** `lexIdentifier`'s choice: the keyword type, or NAME. */
  function WordKind(word: string): (k: Kind)
    ensures KeywordKind(word).Some? ==> k == KeywordKind(word).value
    ensures KeywordKind(word).None? ==> k == NAME
  {
    match KeywordKind(word)
    case Some(kw) => kw
    case None => NAME
  }

  // ---------------------------------------------------------------------
  // Character classes of this lexer

  /** `isSpace`: blanks skipped before a token. */
  const Blanks: string := " \t\r"

  /** `isLetter`: a letter or '_'. */
  predicate IsWordStart(c: char) { IsLetter(c) || c == '_' }

  /** Inside a word: `isLetter` or `isDigit`. */
  predicate IsWordChar(c: char) { IsWordStart(c) || IsDigit(c) }

  /** `digitValue`: 0-15 for a hexadecimal digit of either case, 16 otherwise. */
  function DigitValueOf(r: Rune): (d: nat)
    ensures d <= 16
    ensures d < 10 <==> r.Ch? && IsDecimalDigit(r.c)
    ensures d < 8 <==> r.Ch? && '0' <= r.c <= '7'
  {
    if r.Eof? then 16
    else if '0' <= r.c <= '9' then (r.c as int) - ('0' as int)
    else if 'a' <= r.c <= 'f' then (r.c as int) - ('a' as int) + 10
    else if 'A' <= r.c <= 'F' then (r.c as int) - ('A' as int) + 10
    else 16
  }

  /** Where `scanSignificand(base)` stops: the first rune at or after `p` that
   * is not a digit of `base`. */
  function DigitsEnd(s: string, p: nat, base: nat): (e: nat)
    requires p <= |s| && base <= 16
    decreases |s| - p
    ensures p <= e <= |s|
    ensures forall k :: p <= k < e ==> DigitValueOf(Ch(s[k])) < base
    ensures DigitValueOf(At(s, e)) >= base
  {
    if p < |s| && DigitValueOf(Ch(s[p])) < base then DigitsEnd(s, p + 1, base) else p
  }

  /** Where `lexIdentifier` stops. */
  function WordEnd(s: string, p: nat): (e: nat)
    requires p <= |s|
    decreases |s| - p
    ensures p <= e <= |s|
    ensures forall k :: p <= k < e ==> IsWordChar(s[k])
    ensures e == |s| || !IsWordChar(s[e])
  {
    if p < |s| && IsWordChar(s[p]) then WordEnd(s, p + 1) else p
  }

  /** The first index at or after `p` holding `c`. */
  function IndexFrom(s: string, p: nat, c: char): (r: Option<nat>)
    requires p <= |s|
    decreases |s| - p
    ensures r.Some? ==> p <= r.value < |s| && s[r.value] == c
    ensures r.Some? ==> forall k :: p <= k < r.value ==> s[k] != c
    ensures r.None? ==> forall k :: p <= k < |s| ==> s[k] != c
  {
    if p >= |s| then None else if s[p] == c then Some(p) else IndexFrom(s, p + 1, c)
  }

  /** Where a line comment whose body starts at `p` ends: just past its
   * line break, or at the end of input. */
  function LineCommentEnd(s: string, p: nat): (e: nat)
    requires p <= |s|
    ensures p <= e <= |s|
    ensures e < |s| ==> e > p && s[e - 1] == '\n'
    ensures forall k :: p <= k < e - 1 ==> s[k] != '\n'
  {
    match IndexFrom(s, p, '\n')
    case Some(i) => i + 1
    case None => |s|
  }

  // Where a block comment ends, given the index `p` of the star of its
  // opener: just past the first star-slash pair whose star is at or after `p`
  // (so slash-star-slash is a complete comment), or at the end of input,
  // silently.
  function BlockCommentEnd(s: string, p: nat): (e: nat)
    requires p < |s|
    decreases |s| - p
    ensures p < e <= |s|
    ensures e < |s| ==> e >= p + 2 && s[e - 2] == '*' && s[e - 1] == '/'
  {
    if p + 1 < |s| && s[p] == '*' && s[p + 1] == '/' then p + 2
    else if p + 1 < |s| then BlockCommentEnd(s, p + 1)
    else |s|
  }

  // ---------------------------------------------------------------------
  // Numbers

  datatype NumberScanned = NumberScanned(end: nat, kind: Kind, errors: seq<Message>)

  predicate HexPrefixed(s: string, p: nat)
  {
    p + 1 < |s| && s[p] == '0' && (s[p + 1] == 'x' || s[p + 1] == 'X')
  }

  /** A part of a number: where it ends, whether it makes the number a
   * FLOAT, and the errors it records. */
  datatype Part = Part(end: nat, float: bool, errors: seq<Message>)

  /** The optional '.' and its digits, at `q`. */
  function DotPart(s: string, q: nat): (r: Part)
    requires q <= |s|
    ensures q <= r.end <= |s|
  {
    if q < |s| && s[q] == '.' then
      Part(DigitsEnd(s, q + 1, 10), true, if DigitValueOf(At(s, q + 1)) >= 10 then [TrailingPoint] else [])
    else Part(q, false, [])
  }

  /** The optional exponent, at `q`, of a number that starts at `p0`. */
  function ExponentPart(s: string, p0: nat, q: nat): (r: Part)
    requires p0 <= q <= |s|
    ensures q <= r.end <= |s|
  {
    if q < |s| && (s[q] == 'e' || s[q] == 'E') then
      var q2 := if q + 1 < |s| && (s[q + 1] == '+' || s[q + 1] == '-') then q + 2 else q + 1;
      if DigitValueOf(At(s, q2)) < 10 then Part(DigitsEnd(s, q2, 10), true, [])
      else Part(q2, true, [BadExponent(s[p0..q2])])
    else Part(q, false, [])
  }

  /** The FRACTION part of `lexNumber`, entered at `q` for a number that
   * starts at `p0`: FLOAT when a '.' or an exponent is present. */
  function Fraction(s: string, p0: nat, q: nat): (r: NumberScanned)
    requires p0 <= q <= |s|
    ensures q <= r.end <= |s|
  {
    var d := DotPart(s, q);
    var x := ExponentPart(s, p0, d.end);
    NumberScanned(x.end, if d.float || x.float then FLOAT else INT, d.errors + x.errors)
  }

  /** A "0x" or "0X" number at `p0`. */
  function HexNumber(s: string, p0: nat): (r: NumberScanned)
    requires p0 + 2 <= |s|
    ensures p0 + 2 <= r.end <= |s|
  {
    var e := DigitsEnd(s, p0 + 2, 16);
    NumberScanned(e, INT, if e - p0 <= 2 then [BadHex(s[p0..e])] else [])
  }

  /** Any other number with a leading '0' at `p0`: octal digits, where an 8
   * or a 9 is an error, then possibly a fraction. */
  function OctalNumber(s: string, p0: nat): (r: NumberScanned)
    requires p0 < |s|
    ensures p0 < r.end <= |s|
  {
    var o := OctalDigits(s, p0);
    if o.end < |s| && (s[o.end] == '.' || s[o.end] == 'e' || s[o.end] == 'E') then
      var f := Fraction(s, p0, o.end);
      NumberScanned(f.end, f.kind, o.errors + f.errors)
    else NumberScanned(o.end, INT, o.errors)
  }

  /** The digits after the leading '0' at `p0`: octal ones, and from an 8 or
   * a 9 on, decimal ones with an error. */
  function OctalDigits(s: string, p0: nat): (r: Part)
    requires p0 < |s|
    ensures p0 < r.end <= |s| && !r.float
  {
    var e := DigitsEnd(s, p0 + 1, 8);
    if e < |s| && (s[e] == '8' || s[e] == '9') then
      var e2 := DigitsEnd(s, e + 1, 10);
      Part(e2, false, [BadOctal(s[p0..e2])])
    else Part(e, false, [])
  }

  /** `lexNumber` for a number whose first rune (a digit, or a '.' followed by
   * a digit) is at `p0`: where it ends, its type and the errors it records. */
  function NumberScan(s: string, p0: nat): (r: NumberScanned)
    requires p0 < |s| && (IsDecimalDigit(s[p0]) || s[p0] == '.')
    ensures p0 < r.end <= |s|
    ensures r.kind == INT || r.kind == FLOAT
  {
    if s[p0] == '.' then Fraction(s, p0, p0)
    else if s[p0] == '0' then
      if HexPrefixed(s, p0) then HexNumber(s, p0) else OctalNumber(s, p0)
    else Fraction(s, p0, DigitsEnd(s, p0, 10))
  }

  predicate HasFloatMark(t: string)
  {
    '.' in t || 'e' in t || 'E' in t
  }

  /** A run of decimal digits holds no '.', 'e' or 'E'. */
  lemma DecimalRunHasNoMark(s: string, p: nat, e: nat)
    requires p <= e <= |s|
    requires forall k :: p <= k < e ==> DigitValueOf(Ch(s[k])) < 10
    ensures !HasFloatMark(s[p..e])
  {
    forall k | 0 <= k < e - p ensures s[p..e][k] != '.' && s[p..e][k] != 'e' && s[p..e][k] != 'E' {
      assert DigitValueOf(Ch(s[p + k])) < 10;
    }
  }

  /** FRACTION yields FLOAT exactly when it consumes a '.' or an exponent. */
  lemma FractionKind(s: string, p0: nat, q: nat)
    requires p0 <= q <= |s| && !HasFloatMark(s[p0..q])
    ensures var r := Fraction(s, p0, q);
      r.kind == FLOAT <==> HasFloatMark(s[p0..r.end])
  {
    var r := Fraction(s, p0, q);
    var d := DotPart(s, q);
    if d.float {
      assert s[p0..r.end][q - p0] == '.';
    } else if ExponentPart(s, p0, d.end).float {
      assert s[p0..r.end][q - p0] == s[q];
    } else {
      assert r.end == q;
    }
  }

  /** A number is FLOAT exactly when it is not hexadecimal and a '.' or an
   * exponent marker was consumed; otherwise it is INT. */
  lemma NumberKind(s: string, p0: nat)
    requires p0 < |s| && (IsDecimalDigit(s[p0]) || s[p0] == '.')
    ensures var r := NumberScan(s, p0);
      r.kind == FLOAT <==> !HexPrefixed(s, p0) && HasFloatMark(s[p0..r.end])
  {
    var r := NumberScan(s, p0);
    if s[p0] == '.' {
      FractionKind(s, p0, p0);
    } else if s[p0] == '0' {
      if !HexPrefixed(s, p0) {
        var e := DigitsEnd(s, p0 + 1, 8);
        var octalBad := e < |s| && (s[e] == '8' || s[e] == '9');
        var e2 := if octalBad then DigitsEnd(s, e + 1, 10) else e;
        DecimalRunHasNoMark(s, p0, e2);
        if e2 < |s| && (s[e2] == '.' || s[e2] == 'e' || s[e2] == 'E') {
          FractionKind(s, p0, e2);
        }
      }
    } else {
      DecimalRunHasNoMark(s, p0, DigitsEnd(s, p0, 10));
      FractionKind(s, p0, DigitsEnd(s, p0, 10));
    }
  }

  /** "0x" without a hexadecimal digit records an error. */
  lemma HexWithoutDigits(s: string, p0: nat)
    requires p0 < |s| && HexPrefixed(s, p0) && DigitValueOf(At(s, p0 + 2)) >= 16
    ensures NumberScan(s, p0).errors == [BadHex(s[p0..p0 + 2])]
  {
    assert DigitsEnd(s, p0 + 2, 16) == p0 + 2;
  }

  /** An octal run that reaches an 8 or a 9 records an error first. */
  lemma OctalWithBadDigit(s: string, p0: nat)
    requires p0 < |s| && s[p0] == '0' && !HexPrefixed(s, p0)
    requires At(s, DigitsEnd(s, p0 + 1, 8)) in {Ch('8'), Ch('9')}
    ensures |NumberScan(s, p0).errors| > 0
    ensures NumberScan(s, p0).errors[0] ==
      BadOctal(s[p0..DigitsEnd(s, DigitsEnd(s, p0 + 1, 8) + 1, 10)])
  {
  }

  /** A decimal number whose '.' has no digit after it records an error. */
  lemma TrailingDecimalPoint(s: string, p0: nat)
    requires p0 < |s| && IsDecimalDigit(s[p0]) && s[p0] != '0'
    requires At(s, DigitsEnd(s, p0, 10)) == Ch('.')
    requires DigitValueOf(At(s, DigitsEnd(s, p0, 10) + 1)) >= 10
    ensures |NumberScan(s, p0).errors| > 0
    ensures NumberScan(s, p0).errors[0] == TrailingPoint
    ensures NumberScan(s, p0).kind == FLOAT
  {
    var q := DigitsEnd(s, p0, 10);
    assert NumberScan(s, p0) == Fraction(s, p0, q);
    assert DotPart(s, q) == Part(DigitsEnd(s, q + 1, 10), true, [TrailingPoint]);
  }

  /** An exponent marker with neither sign nor digit after it records an error. */
  lemma ExponentWithoutDigits(s: string, p0: nat)
    requires p0 < |s| && IsDecimalDigit(s[p0]) && s[p0] != '0'
    requires At(s, DigitsEnd(s, p0, 10)) in {Ch('e'), Ch('E')}
    requires DigitValueOf(At(s, DigitsEnd(s, p0, 10) + 1)) >= 10
    requires At(s, DigitsEnd(s, p0, 10) + 1) !in {Ch('+'), Ch('-')}
    ensures NumberScan(s, p0).errors == [BadExponent(s[p0..DigitsEnd(s, p0, 10) + 1])]
    ensures NumberScan(s, p0).kind == FLOAT
  {
  }

  // ---------------------------------------------------------------------
  // One Scan

  /** What one `Scan` produces: the token's type and text, where the cursor
   * ends, the bracket stack after it and the error messages recorded; or the
   * fact that `Scan` never returns (an unterminated quoted or raw string). */
  datatype Scanned =
    | Scanned(kind: Kind, value: string, end: nat, stack: seq<char>, errors: seq<Message>)
    | Diverges

  /** `skipNewlines`' rule: a line break ends a statement after these types. */
  predicate AsiAfter(prev: Kind, lox: bool)
  {
    prev in {NAME, STR, INT, FLOAT, BREAK, CONT, RETURN, RROUND, RSQUARE, RCURLY}
    || (lox && prev in {FALSE, TRUE})
  }

  predicate IsOpener(c: char) { c == '(' || c == '[' || c == '{' }

  predicate Openers(stack: seq<char>) { forall k :: 0 <= k < |stack| ==> IsOpener(stack[k]) }

  function Pop(stack: seq<char>): seq<char>
    requires |stack| > 0
  {
    stack[..|stack| - 1]
  }

  function Top(stack: seq<char>): char
    requires |stack| > 0
  {
    stack[|stack| - 1]
  }

  /** A one-rune token at `q`. */
  function Single(s: string, q: nat, kind: Kind, stack: seq<char>): Scanned
    requires q < |s|
  {
    Scanned(kind, s[q..q + 1], q + 1, stack, [])
  }

  /** `scan2`: the two-rune type when an '=' follows, else the one-rune type. */
  function Scan2Spec(s: string, q: nat, stack: seq<char>, typ0: Kind, typ1: Kind): (r: Scanned)
    requires q < |s|
  {
    if At(s, q + 1) == Ch('=') then Scanned(typ1, s[q..q + 2], q + 2, stack, [])
    else Scanned(typ0, s[q..q + 1], q + 1, stack, [])
  }

  /** `)` and `]`: pop when possible; an error unless the popped opener matches. */
  function CloseSpec(s: string, q: nat, stack: seq<char>, opener: char, kind: Kind): Scanned
    requires q < |s|
  {
    var err := [UnexpectedRight(s[q])];
    if stack == [] then Scanned(kind, s[q..q + 1], q + 1, stack, err)
    else Scanned(kind, s[q..q + 1], q + 1, Pop(stack), if Top(stack) != opener then err else [])
  }

  /** `}`: like the other closers, except that closing a '{' right after a
   * token other than SEMICOLON yields a SEMICOLON spelled "}" instead. */
  function CurlySpec(s: string, q: nat, stack: seq<char>, prev: Kind): Scanned
    requires q < |s|
  {
    var err := [UnexpectedRight(s[q])];
    if stack == [] then Scanned(RCURLY, s[q..q + 1], q + 1, stack, err)
    else if Top(stack) != '{' then Scanned(RCURLY, s[q..q + 1], q + 1, Pop(stack), err)
    else if prev != SEMICOLON then Scanned(SEMICOLON, s[q..q + 1], q + 1, Pop(stack), [])
    else Scanned(RCURLY, s[q..q + 1], q + 1, Pop(stack), [])
  }

  /** `|` and `&`: an error unless doubled; the next rune is consumed anyway. */
  function LogicalSpec(s: string, q: nat, stack: seq<char>, kind: Kind): Scanned
    requires q < |s|
  {
    var end := if q + 1 < |s| then q + 2 else q + 1;
    Scanned(kind, s[q..end], end, stack,
      if At(s, q + 1) != Ch(s[q]) then [UnexpectedToken(s[q])] else [])
  }

  datatype QuoteEnd = Closed(close: nat, errors: nat) | Unclosed

  /** The body of `lexQuotedString` from `p`: the index of the closing quote
   * and how many escaped line breaks were reported, or `Unclosed` when the
   * input ends first (where the source loops forever). */
  function QuoteScan(s: string, p: nat, quote: char): (r: QuoteEnd)
    requires p <= |s|
    decreases |s| - p
    ensures r.Closed? ==> p <= r.close < |s| && s[r.close] == quote
  {
    if p >= |s| then Unclosed
    else if s[p] == '\\' then
      if p + 1 >= |s| then Unclosed
      else
        var rest := QuoteScan(s, p + 2, quote);
        if rest.Closed? && s[p + 1] == '\n' then Closed(rest.close, rest.errors + 1) else rest
    else if s[p] == quote then Closed(p, 0)
    else QuoteScan(s, p + 1, quote)
  }

  /** `n` copies of `m`. */
  function Copies(m: Message, n: nat): (r: seq<Message>)
    ensures |r| == n
  {
    if n == 0 then [] else Copies(m, n - 1) + [m]
  }

  /** One step of `QuoteScan`. */
  lemma QuoteScanStep(s: string, p: nat, quote: char)
    requires p < |s|
    ensures s[p] == '\\' && p + 1 < |s| ==>
      QuoteScan(s, p, quote) == Shifted(QuoteScan(s, p + 2, quote), if s[p + 1] == '\n' then 1 else 0)
    ensures s[p] == '\\' && p + 1 == |s| ==> QuoteScan(s, p, quote) == Unclosed
    ensures s[p] != '\\' && s[p] == quote ==> QuoteScan(s, p, quote) == Closed(p, 0)
    ensures s[p] != '\\' && s[p] != quote ==> QuoteScan(s, p, quote) == QuoteScan(s, p + 1, quote)
  {
  }

  /** A quoted string whose opening quote is at `q`: its text is what lies
   * between the quotes. */
  function QuotedSpec(s: string, q: nat, stack: seq<char>): Scanned
    requires q < |s|
  {
    match QuoteScan(s, q + 1, s[q])
    case Unclosed => Diverges
    case Closed(close, n) => Scanned(STR, s[q + 1..close], close + 1, stack, Copies(UnterminatedQuote, n))
  }

  /** A raw string whose opening '`' is at `q`. */
  function RawSpec(s: string, q: nat, stack: seq<char>): Scanned
    requires q < |s|
  {
    match IndexFrom(s, q + 1, '`')
    case None => Diverges
    case Some(close) => Scanned(STR, s[q + 1..close], close + 1, stack, [])
  }

  function NumberSpec(s: string, q: nat, stack: seq<char>): Scanned
    requires q < |s| && (IsDecimalDigit(s[q]) || s[q] == '.')
  {
    var n := NumberScan(s, q);
    Scanned(n.kind, s[q..n.end], n.end, stack, n.errors)
  }

  /** One `Scan` from cursor `p`. */
  function ScanSpec(s: string, p: nat, stack: seq<char>, prev: Kind, lox: bool): (r: Scanned)
    requires p <= |s|
    decreases |s| - p, 2
    ensures r.Scanned? ==> p <= r.end <= |s|
  {
    AfterBlanks(s, RunEnd(s, p, Blanks), stack, prev, lox)
  }

  /** One `Scan` once the blanks are skipped and the cursor is at `q`: the
   * end of input, or a token starting with `s[q]`. */
  function AfterBlanks(s: string, q: nat, stack: seq<char>, prev: Kind, lox: bool): (r: Scanned)
    requires q <= |s|
    decreases |s| - q, 1
    ensures r.Scanned? ==> q <= r.end <= |s|
  {
    if q == |s| then
      if stack == [] then Scanned(EOF, "", q, stack, [])
      else Scanned(EOF, "", q, Pop(stack), [UnclosedLeft(Top(stack))])
    else TokenAt(s, q, stack, prev, lox)
  }

  /** A token starting with `s[q]`; a line break that does not end a
   * statement, and a comment, start the scan again after them. */
  function TokenAt(s: string, q: nat, stack: seq<char>, prev: Kind, lox: bool): (r: Scanned)
    requires q < |s|
    decreases |s| - q, 0
    ensures r.Scanned? ==> q < r.end <= |s|
  {
    var c := s[q];
    if IsWordStart(c) then
      var e := WordEnd(s, q);
      Scanned(WordKind(s[q..e]), s[q..e], e, stack, [])
    else if IsDecimalDigit(c) then NumberSpec(s, q, stack)
    else if c == '\n' then
      var e := RunEnd(s, q + 1, "\n");
      if AsiAfter(prev, lox) then Scanned(SEMICOLON, "\n", e, stack, [])
      else ScanSpec(s, e, stack, prev, lox)
    else if c == '/' && At(s, q + 1) == Ch('/') then ScanSpec(s, LineCommentEnd(s, q + 1), stack, prev, lox)
    else if c == '/' && At(s, q + 1) == Ch('*') then ScanSpec(s, BlockCommentEnd(s, q + 1), stack, prev, lox)
    else PunctSpec(s, q, stack, prev, lox)
  }

  /** A token starting with the punctuation rune at `q` (no comment opener
   * there): strings, separators and brackets. */
  function PunctSpec(s: string, q: nat, stack: seq<char>, prev: Kind, lox: bool): (r: Scanned)
    requires q < |s|
    ensures r.Scanned? ==> q < r.end <= |s|
  {
    var c := s[q];
    if c == '\'' || (lox && c == '"') then QuotedSpec(s, q, stack)
    else if c == '`' then RawSpec(s, q, stack)
    else if c == ':' then Single(s, q, COLON, stack)
    else if c == '.' then
      if DigitValueOf(At(s, q + 1)) >= 10 then Single(s, q, DOT, stack) else NumberSpec(s, q, stack)
    else if c == ',' then Single(s, q, COMMA, stack)
    else if c == ';' then Single(s, q, SEMICOLON, stack)
    else if c == '(' then Single(s, q, LROUND, stack + ['('])
    else if c == ')' then CloseSpec(s, q, stack, '(', RROUND)
    else if c == '[' then Single(s, q, LSQUARE, stack + ['['])
    else if c == ']' then CloseSpec(s, q, stack, '[', RSQUARE)
    else if c == '{' then Single(s, q, LCURLY, stack + ['{'])
    else if c == '}' then CurlySpec(s, q, stack, prev)
    else OperatorSpec(s, q, stack)
  }

  /** A token starting with the operator rune at `q`, or an illegal rune. */
  function OperatorSpec(s: string, q: nat, stack: seq<char>): (r: Scanned)
    requires q < |s|
    ensures r.Scanned? ==> q < r.end <= |s|
  {
    var c := s[q];
    if c == '|' then LogicalSpec(s, q, stack, LOGICALOR)
    else if c == '&' then LogicalSpec(s, q, stack, LOGICALAND)
    else if c == '+' then Scan2Spec(s, q, stack, PLUS, PLUSASSIGN)
    else if c == '-' then Scan2Spec(s, q, stack, MINUS, MINUSASSIGN)
    else if c == '*' then Scan2Spec(s, q, stack, MULT, MULTASSIGN)
    else if c == '%' then Scan2Spec(s, q, stack, MOD, MODASSIGN)
    else if c == '=' then Scan2Spec(s, q, stack, ASSIGN, EQ)
    else if c == '!' then Scan2Spec(s, q, stack, LOGICALNOT, NEQ)
    else if c == '<' then Scan2Spec(s, q, stack, SM, SMEQ)
    else if c == '>' then Scan2Spec(s, q, stack, GR, GREQ)
    else if c == '/' then Scan2Spec(s, q, stack, DIV, DIVASSIGN)
    else Scanned(ILLEGAL, s[q..q + 1], q + 1, stack, [IllegalChar(c)])
  }

  // ---------------------------------------------------------------------
  // The lexer

  /** One call of the error handler: input name, position, and the message
   * whose formatted text, `Text(msg)`, the handler receives. */
  datatype Report = Report(file: string, pos: Tok.Pos, msg: Message)

  /** What `errorf` is asked to report: a format and its arguments. */
  datatype Message =
    | UnclosedLeft(c: char)
    | UnexpectedRight(c: char)
    | UnexpectedToken(c: char)
    | IllegalChar(c: char)
    | UnterminatedQuote
    | UnterminatedRaw
    | BadHex(text: string)
    | BadOctal(text: string)
    | TrailingPoint
    | BadExponent(text: string)

  /** The formatted message. */
  function Text(m: Message): string
  {
    match m
    case UnclosedLeft(c) => "unclosed left bracket: " + RuneU(c)
    case UnexpectedRight(c) => "unexpected right bracket " + RuneU(c)
    case UnexpectedToken(c) => "Unexpected token: " + RuneU(c)
    case IllegalChar(c) => "illegal character: " + RuneU(c)
    case UnterminatedQuote => "unterminated quoted string"
    case UnterminatedRaw => "Unterminated raw string"
    case BadHex(t) => "illegal hexadecimal number: " + Quote(t)
    case BadOctal(t) => "illegal octal number: " + Quote(t)
    case TrailingPoint => "Illegal trailing decimal point after number"
    case BadExponent(t) => "Illegal floating-point exponent: " + Quote(t)
  }

  /** A `uint32` counter, kept as an integer and reduced when it is packed. */
  function W(x: int): Tok.U32 { x % Tok.TwoTo32 }

  /** What `Scan` returns, or the fact that it never returns. */
  datatype ScanResult = Got(tok: Token) | Spins

  class Lexer {
    const name: string
    const input: string
    /** Whether an error handler was installed. */
    const hasHandler: bool
    /** Whether this is the lox-impl-temp side of the merge (double-quoted
     * strings; TRUE and FALSE end a statement). */
    const lox: bool
    var errorCount: nat
    /** The calls made to the error handler so far. */
    var reported: seq<Report>
    /** Every message `errorf` was given, handler or not. */
    ghost var messages: seq<Message>
    var line: int
    var col: int
    var prevCol: int
    var start: nat
    var pos: nat
    var width: nat
    var prevTokTyp: Kind
    var stack: seq<char>

    ghost predicate Valid()
      reads this
    {
      start <= pos <= |input| && width <= 1 && Openers(stack)
      && errorCount == |messages|
      && (hasHandler ==> |reported| == |messages|) && (!hasHandler ==> reported == [])
      && (forall k :: 0 <= k < |reported| && k < |messages| ==> reported[k].msg == messages[k])
    }

    /** `New`. */
    constructor (name: string, input: string, hasHandler: bool, lox: bool)
      ensures Valid()
      ensures this.name == name && this.input == input && this.hasHandler == hasHandler && this.lox == lox
      ensures line == 1 && col == 0 && prevCol == 0 && start == 0 && pos == 0 && width == 0
      ensures errorCount == 0 && reported == [] && messages == [] && prevTokTyp == ILLEGAL && stack == []
    {
      this.name, this.input, this.hasHandler, this.lox := name, input, hasHandler, lox;
      line, col, prevCol := 1, 0, 0;
      start, pos, width := 0, 0, 0;
      errorCount, reported, messages, prevTokTyp, stack := 0, [], [], ILLEGAL, [];
    }

    /** Nothing but the cursor (position, width, line and columns) changed. */
    twostate predicate CursorOnly()
      reads this
    {
      start == old(start) && errorCount == old(errorCount) && reported == old(reported) && messages == old(messages)
      && messages == old(messages) && prevTokTyp == old(prevTokTyp) && stack == old(stack)
    }

    /** Exactly `msgs` were recorded since the old state. */
    twostate predicate Recorded(msgs: seq<Message>)
      reads this
    {
      errorCount == old(errorCount) + |msgs| && messages == old(messages) + msgs
    }

    /** The result of a `Scan` from the old state is the one `spec` describes. */
    twostate predicate Produced(res: ScanResult, spec: Scanned)
      reads this
    {
      (res.Spins? <==> spec.Diverges?)
      && (res.Got? && spec.Scanned? ==>
            res.tok.kind == spec.kind && res.tok.value == spec.value
            && pos == spec.end && start == pos && stack == spec.stack && prevTokTyp == spec.kind
            && Recorded(spec.errors))
    }

    /** `next`: consumes the rune under the cursor, counting lines and columns. */
    method Next() returns (r: Rune)
      requires Valid()
      modifies this
      ensures Valid() && CursorOnly()
      ensures r == At(input, old(pos))
      ensures r.Eof? ==> pos == old(pos) && width == 0 && line == old(line) && col == old(col) && prevCol == old(prevCol)
      ensures r.Ch? ==> pos == old(pos) + 1 && width == 1
      ensures r == Ch('\n') ==> line == old(line) + 1 && col == 1 && prevCol == old(prevCol)
      ensures r.Ch? && r.c != '\n' ==> line == old(line) && col == old(col) + 1 && prevCol == old(col)
    {
      if pos >= |input| {
        width := 0;
        return Eof;
      }
      r := Ch(input[pos]);
      width := 1;
      pos := pos + 1;
      if r.c == '\n' {
        line := line + 1;
        col := 1;
      } else {
        prevCol := col;
        col := col + 1;
      }
    }

    /** `peek`: the rune under the cursor, not consumed. */
    function Peek(): (r: Rune)
      reads this
      ensures r.Ch? <==> pos < |input|
      ensures r.Ch? ==> r.c == input[pos]
    {
      if pos >= |input| then Eof else Ch(input[pos])
    }

    /** `backup`: un-reads the last rune read. The column becomes `prevCol`
     * even when that rune was a line break or the end of input. */
    method Backup()
      requires Valid() && start + width <= pos
      modifies this
      ensures Valid() && CursorOnly()
      ensures pos == old(pos) - old(width) && width == old(width) && col == old(prevCol) && prevCol == old(prevCol)
      ensures line == if old(width) == 1 && input[pos] == '\n' then old(line) - 1 else old(line)
    {
      pos := pos - width;
      col := prevCol;
      if width == 1 && input[pos] == '\n' {
        line := line - 1;
      }
    }

    /** `nextToken`: the pending text as a token of type `kind`, stamped with
     * the current line and column. */
    method NextToken(kind: Kind) returns (t: Token)
      requires Valid()
      modifies this
      ensures Valid()
      ensures t == Token(kind, input[old(start)..old(pos)], Tok.NewPos(W(line), W(col)))
      ensures start == pos && prevTokTyp == kind
      ensures pos == old(pos) && width == old(width) && line == old(line) && col == old(col) && prevCol == old(prevCol)
      ensures errorCount == old(errorCount) && reported == old(reported) && messages == old(messages) && stack == old(stack)
    {
      t := Token(kind, input[start..pos], Tok.NewPos(W(line), W(col)));
      start := pos;
      prevTokTyp := kind;
    }

    /** `ignore`: drops the pending text. */
    method Ignore()
      requires Valid()
      modifies this
      ensures Valid() && start == pos
      ensures pos == old(pos) && width == old(width) && line == old(line) && col == old(col) && prevCol == old(prevCol)
      ensures errorCount == old(errorCount) && reported == old(reported) && messages == old(messages) && stack == old(stack) && prevTokTyp == old(prevTokTyp)
    {
      start := pos;
    }

    /** `accept`: consumes the next rune when `valid` holds it. */
    method Accept(valid: string) returns (ok: bool)
      requires Valid()
      modifies this
      ensures Valid() && CursorOnly()
      ensures ok <==> RuneIn(At(input, old(pos)), valid)
      ensures pos == if ok then old(pos) + 1 else old(pos)
    {
      var r := Next();
      ok := RuneIn(r, valid);
      if !ok {
        Backup();
      }
    }

    /** `acceptRun`: consumes the longest run of runes from `valid`. */
    method AcceptRun(valid: string)
      requires Valid()
      modifies this
      ensures Valid() && CursorOnly()
      ensures pos == RunEnd(input, old(pos), valid)
    {
      var r := Next();
      while RuneIn(r, valid)
        invariant Valid() && CursorOnly()
        invariant old(pos) <= pos - width && RunEnd(input, old(pos), valid) == RunEnd(input, pos - width, valid)
        invariant r == At(input, pos - width) && (r.Eof? <==> width == 0)
        decreases |input| - pos + width
      {
        r := Next();
      }
      Backup();
    }

    /** `errorf`: reports `msg` at the current position when a handler is
     * installed, and counts it either way. */
    method Errorf(msg: Message)
      modifies this
      ensures old(Valid()) ==> Valid()
      ensures Recorded([msg])
      ensures hasHandler ==> reported == old(reported) + [Report(name, Tok.NewPos(W(line), W(col)), msg)]
      ensures !hasHandler ==> reported == old(reported)
      ensures start == old(start) && pos == old(pos) && width == old(width) && line == old(line) && col == old(col)
      ensures prevCol == old(prevCol) && prevTokTyp == old(prevTokTyp) && stack == old(stack)
    {
      if hasHandler {
        var rep := Report(name, Tok.NewPos(W(line), W(col)), msg);
        reported := reported + [rep];
      }
      errorCount := errorCount + 1;
      messages := messages + [msg];
    }
  
    /** Emitted `t` of type `kind` for the text from the old `start` up to
     * `end`, leaving the cursor and the token start at `end`. */
    twostate predicate Emitted(t: Token, kind: Kind, end: nat)
      reads this
    {
      old(start) <= end <= |input| && t.kind == kind && t.value == input[old(start)..end]
      && pos == end && start == pos && prevTokTyp == kind && stack == old(stack)
    }

    /** `skipWhitespace`: skips blanks and drops them. */
    method SkipWhitespace()
      requires Valid()
      modifies this
      ensures Valid() && start == pos && pos == RunEnd(input, old(pos), Blanks)
      ensures errorCount == old(errorCount) && reported == old(reported) && messages == old(messages)
      ensures prevTokTyp == old(prevTokTyp) && stack == old(stack)
    {
      AcceptRun(Blanks);
      Ignore();
    }

    /** `scanSignificand`: consumes the digits of `base`. */
    method ScanSignificand(base: nat)
      requires Valid() && base <= 16
      modifies this
      ensures Valid() && CursorOnly()
      ensures pos == DigitsEnd(input, old(pos), base)
    {
      var r := Next();
      while DigitValueOf(r) < base
        invariant Valid() && CursorOnly()
        invariant old(pos) <= pos - width && DigitsEnd(input, old(pos), base) == DigitsEnd(input, pos - width, base)
        invariant r == At(input, pos - width) && (r.Eof? <==> width == 0)
        decreases |input| - pos + width
      {
        r := Next();
      }
      Backup();
    }

    /** `lexIdentifier`, with the cursor on the first rune of the word: a
     * keyword's type when the word is one, NAME otherwise. */
    method LexIdentifier() returns (t: Token)
      requires Valid() && start == pos < |input| && IsWordStart(input[pos])
      modifies this
      ensures Valid() && Recorded([])
      ensures var e := WordEnd(input, old(pos)); Emitted(t, WordKind(input[old(pos)..e]), e)
    {
      var r := Next();
      while r.Ch? && IsWordChar(r.c)
        invariant Valid() && CursorOnly()
        invariant old(pos) <= pos - width && WordEnd(input, old(pos)) == WordEnd(input, pos - width)
        invariant r == At(input, pos - width) && (r.Eof? <==> width == 0)
        decreases |input| - pos + width
      {
        r := Next();
      }
      Backup();
      var word := input[start..pos];
      t := NextToken(WordKind(word));
    }

    /** The '.' step of FRACTION. */
    method ScanDot() returns (float: bool)
      requires Valid()
      modifies this
      ensures Valid() && start == old(start) && prevTokTyp == old(prevTokTyp) && stack == old(stack)
      ensures var d := DotPart(input, old(pos)); pos == d.end && float == d.float && Recorded(d.errors)
    {
      float := Accept(".");
      if float {
        var r := Peek();
        if !(r.Ch? && '0' <= r.c <= '9') {
          Errorf(TrailingPoint);
        }
        ScanSignificand(10);
      }
    }

    /** The exponent step of FRACTION. */
    method ScanExponent() returns (float: bool)
      requires Valid()
      modifies this
      ensures Valid() && start == old(start) && prevTokTyp == old(prevTokTyp) && stack == old(stack)
      ensures var x := ExponentPart(input, old(start), old(pos)); pos == x.end && float == x.float && Recorded(x.errors)
    {
      float := Accept("eE");
      if float {
        var _ := Accept("+-");
        if DigitValueOf(Peek()) < 10 {
          ScanSignificand(10);
        } else {
          Errorf(BadExponent(input[start..pos]));
        }
      }
    }

    /** The FRACTION part of `lexNumber`: an optional fraction, then an
     * optional exponent; FLOAT when either is present. */
    method LexFraction() returns (t: Token)
      requires Valid()
      modifies this
      ensures Valid()
      ensures var f := Fraction(input, old(start), old(pos)); Emitted(t, f.kind, f.end) && Recorded(f.errors)
    {
      var kind := INT;
      var dot := ScanDot();
      var exp := ScanExponent();
      if dot || exp {
        kind := FLOAT;
      }
      t := NextToken(kind);
    }

    /** The hexadecimal branch of `lexNumber`, entered past the "0x". */
    method LexHex() returns (t: Token)
      requires Valid() && start + 2 == pos && HexPrefixed(input, start)
      modifies this
      ensures Valid()
      ensures var n := HexNumber(input, old(start)); Emitted(t, n.kind, n.end) && Recorded(n.errors)
    {
      ScanSignificand(16);
      if pos - start <= 2 {
        Errorf(BadHex(input[start..pos]));
      }
      t := NextToken(INT);
    }

    /** The digits of the octal branch of `lexNumber`. */
    method ScanOctalDigits()
      requires Valid() && start + 1 == pos
      modifies this
      ensures Valid() && start == old(start) && prevTokTyp == old(prevTokTyp) && stack == old(stack)
      ensures var o := OctalDigits(input, old(start)); pos == o.end && Recorded(o.errors)
    {
      ScanSignificand(8);
      var bad := Accept("89");
      if bad {
        ScanSignificand(10);
        Errorf(BadOctal(input[start..pos]));
      }
    }

    /** The octal branch of `lexNumber`, entered past the leading '0'. */
    method LexOctal() returns (t: Token)
      requires Valid() && start + 1 == pos && !HexPrefixed(input, start)
      modifies this
      ensures Valid()
      ensures var n := OctalNumber(input, old(start)); Emitted(t, n.kind, n.end) && Recorded(n.errors)
    {
      ScanOctalDigits();
      var r := Peek();
      if r == Ch('.') || r == Ch('e') || r == Ch('E') {
        ghost var mid := messages;
        t := LexFraction();
        assert messages == old(messages) + (mid[|old(messages)|..] + messages[|mid|..]);
      } else {
        t := NextToken(INT);
      }
    }

    /** `lexNumber`, entered just past the first rune of the number (a digit,
     * or a '.' that a digit follows). */
    method LexNumber() returns (t: Token)
      requires Valid() && start + 1 == pos && width == 1
      requires IsDecimalDigit(input[start]) || input[start] == '.'
      modifies this
      ensures Valid()
      ensures var n := NumberScan(input, old(start)); Emitted(t, n.kind, n.end) && Recorded(n.errors)
    {
      Backup();
      ghost var s0 := start;
      if Peek() == Ch('.') {
        assert NumberScan(input, s0) == Fraction(input, s0, s0);
        t := LexFraction();
        return;
      }
      var zero := Accept("0");
      if zero {
        var x := Accept("xX");
        if x {
          assert NumberScan(input, s0) == HexNumber(input, s0);
          t := LexHex();
        } else {
          assert NumberScan(input, s0) == OctalNumber(input, s0);
          t := LexOctal();
        }
        return;
      }
      ScanSignificand(10);
      assert NumberScan(input, s0) == Fraction(input, s0, pos);
      t := LexFraction();
    }

    /** One round of the `lexQuotedString` loop from the cursor: `More` after
     * an ordinary rune or an escape (`e` counts the escaped line break
     * reported), `Done` with the cursor back on the closing quote, `Stuck`
     * at the end of input. */
    method QuoteRound(quote: char) returns (step: QuoteStep, ghost e: nat)
      requires Valid() && start <= pos && quote != '\\'
      modifies this
      ensures Valid() && start == old(start) && stack == old(stack) && prevTokTyp == old(prevTokTyp)
      ensures Recorded(Copies(UnterminatedQuote, e))
      ensures step.More? ==> old(pos) < pos && QuoteScan(input, old(pos), quote) == Shifted(QuoteScan(input, pos, quote), e)
      ensures step.Done? ==> e == 0 && pos == old(pos) && QuoteScan(input, pos, quote) == Closed(pos, 0)
      ensures step.Stuck? ==> QuoteScan(input, old(pos), quote) == Unclosed
    {
      e := 0;
      if pos < |input| {
        QuoteScanStep(input, pos, quote);
      }
      var r := Next();
      if r.Eof? {
        return Stuck, e;
      }
      if r.c == '\\' {
        var r2 := Next();
        if r2.Eof? {
          Errorf(UnterminatedQuote);
          return Stuck, 1;
        }
        if r2.c == '\n' {
          Errorf(UnterminatedQuote);
          e := 1;
        }
        return More, e;
      }
      if r.c == quote {
        Backup();
        return Done, e;
      }
      return More, e;
    }

    /** `lexQuotedString`, entered just past the opening `quote`. */
    method LexQuotedString(quote: char) returns (res: ScanResult)
      requires Valid() && start + 1 == pos && input[start] == quote && quote != '\\'
      modifies this
      ensures res.Got? ==> Valid()
      ensures Produced(res, QuotedSpec(input, old(start), old(stack)))
    {
      Ignore();
      ghost var p0 := pos;
      ghost var k: nat := 0;
      while true
        invariant Valid() && p0 <= pos && start == p0
        invariant stack == old(stack) && prevTokTyp == old(prevTokTyp)
        invariant Recorded(Copies(UnterminatedQuote, k))
        invariant QuoteScan(input, p0, quote) == Shifted(QuoteScan(input, pos, quote), k)
        decreases |input| - pos
      {
        var step, e := QuoteRound(quote);
        if step.Stuck? {
          return Spins;
        }
        CopiesAppend(UnterminatedQuote, k, e);
        ShiftedTwice(QuoteScan(input, pos, quote), e, k);
        k := k + e;
        if step.Done? {
          break;
        }
      }
      var t := NextToken(STR);
      var _ := Next();
      Ignore();
      res := Got(t);
    }

    /** `lexRawString`, entered just past the opening '`'. At the end of input
     * the source reports an error at the opening position and then loops
     * forever; here the first report is kept and the loop is `Spins`. */
    method LexRawString() returns (res: ScanResult)
      requires Valid() && start + 1 == pos && input[start] == '`'
      modifies this
      ensures res.Got? ==> Valid()
      ensures Produced(res, RawSpec(input, old(start), old(stack)))
      ensures res.Spins? ==> Recorded([UnterminatedRaw])
    {
      Ignore();
      var startLine, startCol := line, col;
      while true
        invariant Valid() && old(pos) <= pos && start == old(pos)
        invariant errorCount == old(errorCount) && reported == old(reported) && messages == old(messages)
        invariant prevTokTyp == old(prevTokTyp) && stack == old(stack)
        invariant IndexFrom(input, old(pos), '`') == IndexFrom(input, pos, '`')
        decreases |input| - pos
      {
        var r := Next();
        if r.Eof? {
          line, col := startLine, startCol;
          Errorf(UnterminatedRaw);
          return Spins;
        }
        if r.c == '`' {
          Backup();
          break;
        }
      }
      var t := NextToken(STR);
      var _ := Next();
      Ignore();
      res := Got(t);
    }

    /** `skipNewlines`, entered just past a line break: skips the line breaks
     * that follow and says whether the previous token ends a statement; if
     * not, the breaks are dropped, and if so the last one stays pending. */
    method SkipNewlines() returns (insert: bool)
      requires Valid() && start + 1 == pos && input[start] == '\n'
      modifies this
      ensures Valid() && pos == RunEnd(input, old(pos), "\n")
      ensures insert <==> AsiAfter(prevTokTyp, lox)
      ensures insert ==> input[start..pos] == "\n"
      ensures !insert ==> start == pos
      ensures errorCount == old(errorCount) && reported == old(reported) && messages == old(messages)
      ensures prevTokTyp == old(prevTokTyp) && stack == old(stack)
    {
      while Peek() == Ch('\n')
        invariant Valid() && old(pos) <= pos && start + 1 == pos && input[start] == '\n'
        invariant RunEnd(input, old(pos), "\n") == RunEnd(input, pos, "\n")
        invariant errorCount == old(errorCount) && reported == old(reported) && messages == old(messages)
        invariant prevTokTyp == old(prevTokTyp) && stack == old(stack)
        decreases |input| - pos
      {
        Ignore();
        var _ := Next();
      }
      insert := AsiAfter(prevTokTyp, lox);
      if !insert {
        Ignore();
      }
    }

    /** `skipSingleLineComment`: skips up to and including the next line
     * break, or to the end of input. */
    method SkipSingleLineComment()
      requires Valid()
      modifies this
      ensures Valid() && start == pos && pos == LineCommentEnd(input, old(pos))
      ensures errorCount == old(errorCount) && reported == old(reported) && messages == old(messages)
      ensures prevTokTyp == old(prevTokTyp) && stack == old(stack)
    {
      var r := Next();
      while !(r == Ch('\n') || r.Eof?)
        invariant Valid() && CursorOnly() && old(pos) <= pos && (r.Eof? <==> width == 0)
        invariant r.Ch? && r.c != '\n' ==> LineCommentEnd(input, old(pos)) == LineCommentEnd(input, pos)
        invariant r == Ch('\n') ==> LineCommentEnd(input, old(pos)) == pos
        invariant r.Eof? ==> LineCommentEnd(input, old(pos)) == pos == |input|
        decreases |input| - pos + width
      {
        r := Next();
      }
      Ignore();
    }

    /** `skipMultilineComment`, with the cursor on the star of the opener:
     * skips past the closing star-slash, or to the end of input. */
    method SkipMultilineComment()
      requires Valid() && pos < |input| && input[pos] == '*'
      modifies this
      ensures Valid() && start == pos && pos == BlockCommentEnd(input, old(pos))
      ensures errorCount == old(errorCount) && reported == old(reported) && messages == old(messages)
      ensures prevTokTyp == old(prevTokTyp) && stack == old(stack)
    {
      var right := Next();
      while true
        invariant Valid() && CursorOnly() && old(pos) < pos
        invariant right == Ch(input[pos - 1])
        invariant BlockCommentEnd(input, old(pos)) == BlockCommentEnd(input, pos - 1)
        decreases |input| - pos
      {
        var left := right;
        right := Next();
        if left == Ch('*') && right == Ch('/') {
          break;
        } else if left.Eof? || right.Eof? {
          break;
        }
      }
      Ignore();
    }

    /** `scan2`, entered just past the first rune. */
    method Scan2(typ0: Kind, typ1: Kind) returns (t: Token)
      requires Valid() && start + 1 == pos
      modifies this
      ensures Valid() && Produced(Got(t), Scan2Spec(input, old(start), old(stack), typ0, typ1))
    {
      if Peek() == Ch('=') {
        var _ := Next();
        t := NextToken(typ1);
      } else {
        t := NextToken(typ0);
      }
    }

    /** The ')' and ']' cases of `Scan`, entered just past the closer. */
    method CloseBracket(opener: char, kind: Kind) returns (t: Token)
      requires Valid() && start + 1 == pos
      modifies this
      ensures Valid() && Produced(Got(t), CloseSpec(input, old(start), old(stack), opener, kind))
    {
      var c := input[start];
      if stack == [] {
        Errorf(UnexpectedRight(c));
      } else {
        var top := stack[|stack| - 1];
        stack := stack[..|stack| - 1];
        if top != opener {
          Errorf(UnexpectedRight(c));
        }
      }
      t := NextToken(kind);
    }

    /** The '}' case of `Scan`, entered just past the brace. */
    method CloseCurly() returns (t: Token)
      requires Valid() && start + 1 == pos
      modifies this
      ensures Valid() && Produced(Got(t), CurlySpec(input, old(start), old(stack), old(prevTokTyp)))
    {
      var c := input[start];
      if stack == [] {
        Errorf(UnexpectedRight(c));
      } else {
        var top := stack[|stack| - 1];
        stack := stack[..|stack| - 1];
        if top != '{' {
          Errorf(UnexpectedRight(c));
        } else if prevTokTyp != SEMICOLON {
          t := NextToken(SEMICOLON);
          return;
        }
      }
      t := NextToken(RCURLY);
    }

    /** The '|' and '&' cases of `Scan`, entered just past the first rune. */
    method ScanLogical(kind: Kind) returns (t: Token)
      requires Valid() && start + 1 == pos
      modifies this
      ensures Valid() && Produced(Got(t), LogicalSpec(input, old(start), old(stack), kind))
    {
      var c := input[start];
      if Peek() != Ch(c) {
        Errorf(UnexpectedToken(c));
      }
      var _ := Next();
      t := NextToken(kind);
    }

    /** The operator cases of `Scan` and its default, entered just past the
     * first rune. */
    method ScanOperator() returns (t: Token)
      requires Valid() && start + 1 == pos
      modifies this
      ensures Valid() && Produced(Got(t), OperatorSpec(input, old(start), old(stack)))
    {
      var c := input[start];
      if c == '|' {
        t := ScanLogical(LOGICALOR);
      } else if c == '&' {
        t := ScanLogical(LOGICALAND);
      } else if c == '+' {
        t := Scan2(PLUS, PLUSASSIGN);
      } else if c == '-' {
        t := Scan2(MINUS, MINUSASSIGN);
      } else if c == '*' {
        t := Scan2(MULT, MULTASSIGN);
      } else if c == '%' {
        t := Scan2(MOD, MODASSIGN);
      } else if c == '=' {
        t := Scan2(ASSIGN, EQ);
      } else if c == '!' {
        t := Scan2(LOGICALNOT, NEQ);
      } else if c == '<' {
        t := Scan2(SM, SMEQ);
      } else if c == '>' {
        t := Scan2(GR, GREQ);
      } else if c == '/' {
        t := Scan2(DIV, DIVASSIGN);
      } else {
        Errorf(IllegalChar(c));
        t := NextToken(ILLEGAL);
      }
    }

    /** A one-rune token, after pushing `opener` when it is given. */
    method Single1(kind: Kind, opener: Option<char>) returns (t: Token)
      requires Valid() && start + 1 == pos && (opener.Some? ==> IsOpener(opener.value))
      modifies this
      ensures Valid()
      ensures Produced(Got(t), Single(input, old(start), kind, old(stack) + if opener.Some? then [opener.value] else []))
    {
      if opener.Some? {
        stack := stack + [opener.value];
      }
      t := NextToken(kind);
      assert messages == old(messages) + [];
    }

    /** The string, separator and bracket cases of `Scan`, entered just past
     * the first rune. */
    method ScanPunct() returns (res: ScanResult)
      requires Valid() && start + 1 == pos && width == 1
      modifies this
      ensures res.Got? ==> Valid()
      ensures Produced(res, PunctSpec(input, old(start), old(stack), old(prevTokTyp), lox))
    {
      var c := input[start];
      var t;
      if c == '\'' || (lox && c == '"') {
        res := LexQuotedString(c);
        return;
      } else if c == '`' {
        res := LexRawString();
        return;
      } else if c == ':' {
        t := Single1(COLON, None);
      } else if c == '.' {
        if DigitValueOf(Peek()) >= 10 {
          t := Single1(DOT, None);
        } else {
          t := LexNumber();
        }
      } else if c == ',' {
        t := Single1(COMMA, None);
      } else if c == ';' {
        t := Single1(SEMICOLON, None);
      } else if c == '(' {
        t := Single1(LROUND, Some('('));
      } else if c == ')' {
        t := CloseBracket('(', RROUND);
      } else if c == '[' {
        t := Single1(LSQUARE, Some('['));
      } else if c == ']' {
        t := CloseBracket('[', RSQUARE);
      } else if c == '{' {
        t := Single1(LCURLY, Some('{'));
      } else if c == '}' {
        t := CloseCurly();
      } else {
        t := ScanOperator();
      }
      res := Got(t);
    }

    /** `Scan`: skips blanks, then reads one token. A line break that does
     * not end a statement, and a comment, start the scan again. */
    method Scan() returns (res: ScanResult)
      requires Valid()
      modifies this
      decreases |input| - pos, 2
      ensures res.Got? ==> Valid()
      ensures Produced(res, ScanSpec(input, old(pos), old(stack), old(prevTokTyp), lox))
    {
      SkipWhitespace();
      res := ScanToken();
    }

    /** The body of `Scan` after `skipWhitespace`. */
    method ScanToken() returns (res: ScanResult)
      requires Valid() && start == pos
      modifies this
      decreases |input| - pos, 1
      ensures res.Got? ==> Valid()
      ensures Produced(res, AfterBlanks(input, old(pos), old(stack), old(prevTokTyp), lox))
    {
      var r := Next();
      if r.Eof? {
        var t := ScanEof();
        return Got(t);
      }
      var c := r.c;
      if IsWordStart(c) {
        Backup();
        var t := LexIdentifier();
        return Got(t);
      } else if IsDecimalDigit(c) {
        var t := LexNumber();
        return Got(t);
      } else if c == '\n' {
        res := ScanNewlines();
      } else if c == '/' && (Peek() == Ch('/') || Peek() == Ch('*')) {
        res := ScanComment();
      } else {
        res := ScanPunct();
      }
    }

    /** The end-of-input case of `Scan`: an EOF token, after reporting the
     * innermost bracket left open, if any. */
    method ScanEof() returns (t: Token)
      requires Valid() && start == pos == |input|
      modifies this
      ensures Valid() && Produced(Got(t), AfterBlanks(input, old(pos), old(stack), old(prevTokTyp), lox))
    {
      if stack != [] {
        var top := stack[|stack| - 1];
        stack := stack[..|stack| - 1];
        Errorf(UnclosedLeft(top));
      } else {
        assert messages == old(messages) + [];
      }
      t := NextToken(EOF);
    }

    /** The line-break case of `Scan`, entered just past the first '\n'. */
    method ScanNewlines() returns (res: ScanResult)
      requires Valid() && start + 1 == pos && input[start] == '\n'
      modifies this
      decreases |input| - start, 0
      ensures res.Got? ==> Valid()
      ensures Produced(res, TokenAt(input, old(start), old(stack), old(prevTokTyp), lox))
    {
      var insert := SkipNewlines();
      if insert {
        var t := NextToken(SEMICOLON);
        assert messages == old(messages) + [];
        return Got(t);
      }
      res := Scan();
    }

    /** The comment cases of `Scan`, entered just past the first '/'. */
    method ScanComment() returns (res: ScanResult)
      requires Valid() && start + 1 == pos < |input| && input[start] == '/'
      requires input[pos] == '/' || input[pos] == '*'
      modifies this
      decreases |input| - start, 0
      ensures res.Got? ==> Valid()
      ensures Produced(res, TokenAt(input, old(start), old(stack), old(prevTokTyp), lox))
    {
      if Peek() == Ch('/') {
        SkipSingleLineComment();
      } else {
        SkipMultilineComment();
      }
      res := Scan();
    }
  }

  datatype QuoteStep = More | Done | Stuck

  lemma {:induction false} CopiesAppend(m: Message, k: nat, e: nat)
    ensures Copies(m, k) + Copies(m, e) == Copies(m, k + e)
  {
    if e > 0 {
      CopiesAppend(m, k, e - 1);
    }
  }

  lemma ShiftedTwice(q: QuoteEnd, e: nat, k: nat)
    ensures Shifted(Shifted(q, e), k) == Shifted(q, e + k)
  {
  }

  /** Shifts the error count of a closed quote scan by `k`. */
  function Shifted(q: QuoteEnd, k: nat): QuoteEnd
  {
    match q
    case Closed(close, n) => Closed(close, n + k)
    case Unclosed => Unclosed
  }
}
