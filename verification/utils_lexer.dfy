/**
 * utils/lexer.go: the earliest state-function lexer. It keeps a depth
 * counter per bracket kind instead of a stack, sends runs of blanks and of
 * line breaks as tokens of their own, reads a sign directly before a digit
 * as part of a number, and reads ".name" as a property token. Strings are
 * delimited by '"' and keep their delimiters in the token text.
 */
module UtilsLexer {
  import opened Runes
  import opened TokenErrors
  import TokenLexer
  import ScanLexer

  // ---------------------------------------------------------------------
  // Token types (`tokenType`), in declaration order

  type TokenType = int

  const TokError: TokenType := 0
  const TokEOF: TokenType := 1
  const TokProperty: TokenType := 2
  const TokIdentifier: TokenType := 3
  const TokLeftParen: TokenType := 4
  const TokRightParen: TokenType := 5
  const TokLeftBrace: TokenType := 6
  const TokRightBrace: TokenType := 7
  const TokLeftSquare: TokenType := 8
  const TokRightSquare: TokenType := 9
  const TokColon: TokenType := 10
  const TokBool: TokenType := 11
  const TokNumber: TokenType := 12
  const TokQuotedString: TokenType := 13
  const TokRawString: TokenType := 14
  const TokSpace: TokenType := 15
  const TokNewline: TokenType := 16
  const TokPlus: TokenType := 17
  const TokMinus: TokenType := 18
  const TokDiv: TokenType := 19
  const TokMult: TokenType := 20
  const TokMod: TokenType := 21
  const TokAssign: TokenType := 22
  const TokPlusAssign: TokenType := 23
  const TokMinusAssign: TokenType := 24
  const TokDivAssign: TokenType := 25
  const TokMultAssign: TokenType := 26
  const TokModAssign: TokenType := 27
  const TokEquals: TokenType := 28
  const TokNotEquals: TokenType := 29
  const TokGreater: TokenType := 30
  const TokSmaller: TokenType := 31
  const TokGreaterEquals: TokenType := 32
  const TokSmallerEquals: TokenType := 33
  const TokLogicalNot: TokenType := 34
  const TokOr: TokenType := 35
  const TokAnd: TokenType := 36
  const TokKeyword: TokenType := 37
  const TokFunc: TokenType := 38
  const TokVar: TokenType := 39
  const TokIf: TokenType := 40
  const TokElse: TokenType := 41
  const TokElseIf: TokenType := 42
  const TokFor: TokenType := 43
  const TokNull: TokenType := 44
  const TokWhile: TokenType := 45
  const TokReturn: TokenType := 46
  const TokIn: TokenType := 47

  /** `keyMap[word]`, zero for a word that is not in it. */
  function KeyMap(word: string): (t: TokenType)
    ensures t == 0 || TokKeyword < t <= TokIn
  {
    if word == "func" then TokFunc else if word == "var" then TokVar
    else if word == "if" then TokIf else if word == "else" then TokElse
    else if word == "elif" then TokElseIf else if word == "for" then TokFor
    else if word == "null" then TokNull else if word == "while" then TokWhile
    else if word == "return" then TokReturn else if word == "in" then TokIn else 0
  }

  /** `lexIdentifier`'s choice: a keyword, then `true` and `false` as
   * booleans, then an identifier. */
  function WordType(word: string): TokenType
  {
    if KeyMap(word) > TokKeyword then KeyMap(word)
    else if word == "true" || word == "false" then TokBool
    else TokIdentifier
  }

  /** `token`: type, start offset, text and line. */
  datatype UtilsToken = UtilsToken(typ: TokenType, pos: nat, value: string, line: int)

  /** `token.String`. */
  function TokenString(t: UtilsToken): (r: string)
    ensures t.typ == TokEOF ==> r == "EOF"
    ensures t.typ == TokError ==> r == t.value
    ensures t.typ == TokSpace ==> r == "SPACE"
    ensures t.typ > TokKeyword ==> r == "<" + t.value + ">"
    ensures t.typ !in {TokEOF, TokError, TokSpace} && t.typ <= TokKeyword ==> r == Quote(t.value)
  {
    if t.typ == TokEOF then "EOF"
    else if t.typ == TokError then t.value
    else if t.typ == TokSpace then "SPACE"
    else if t.typ > TokKeyword then "<" + t.value + ">"
    else Quote(t.value)
  }

  // ---------------------------------------------------------------------
  // Character classes and scanning rules

  /** `isSpace`. */
  const Blanks: string := " \t"

  /** `isEndOfLine`. */
  const LineEnds: string := "\r\n"

  /** `atIdentifierTerminator`'s set: what may follow an identifier or a
   * property. */
  predicate IsTerminator(r: Rune)
  {
    r.Eof? || r.c in " \t\r\n.,|&=)(+-/*%"
  }

  /** `scanNumber` from `p`: an optional sign, then the number syntax of
   * lang/token/lexer.go. */
  function NumberSyntax(s: string, p: nat): (r: (nat, bool))
    requires p <= |s|
    ensures p <= r.0 <= |s|
  {
    TokenLexer.NumberSyntax(s, if RuneIn(At(s, p), "+-") then p + 1 else p)
  }

  /** The end of a run of "\n" and "\r\n" at `p`. */
  function NewlineRunEnd(s: string, p: nat): (e: nat)
    requires p <= |s|
    decreases |s| - p
    ensures p <= e <= |s|
    ensures e == |s| || !(s[e] == '\n' || (s[e] == '\r' && e + 1 < |s| && s[e + 1] == '\n'))
  {
    if p < |s| && s[p] == '\n' then NewlineRunEnd(s, p + 1)
    else if p + 1 < |s| && s[p] == '\r' && s[p + 1] == '\n' then NewlineRunEnd(s, p + 2)
    else p
  }

  /** How a '"'-string just past `p` ends: at its closing quote, in an
   * error at a backslash that is the last rune, or never. Any rune after
   * a backslash is taken as it is. */
  function QuoteScan(s: string, p: nat): (r: TokenLexer.QuoteEnd)
    requires p <= |s|
    decreases |s| - p
    ensures r.Closed? ==> p <= r.close < |s| && s[r.close] == '"'
    ensures r.Broken? ==> p < r.stop == |s| && s[r.stop - 1] == '\\'
  {
    if p >= |s| then TokenLexer.Forever
    else if s[p] == '\\' then
      if p + 1 >= |s| then TokenLexer.Broken(p + 1) else QuoteScan(s, p + 2)
    else if s[p] == '"' then TokenLexer.Closed(p)
    else QuoteScan(s, p + 1)
  }

  // ---------------------------------------------------------------------
  // Error messages

  function ExpectedPair(c: char): string { "Expected '" + [c] + "' token" }
  function UnexpectedCloser(c: char): string
  {
    (if c == ')' then "Unexpected right parenthesis " else if c == '}' then "Unexpected right brace "
     else "Unexpected right square bracket ") + RuneU(c)
  }
  function Unrecognised(c: char): string { "Unrecognised character in code: " + RuneU(c) }
  const UnclosedParen: string := "Unclosed left paranthesis '('"
  const UnclosedBrace: string := "Unclosed left brace '{'"
  const UnclosedSquare: string := "Unclosed left square bracket '['"
  const UnterminatedQuote: string := "Unterminated Quoted String"
  const UnterminatedRaw: string := "Unterminated raw string"
  function BadCharacter(c: char): string { "Bad character: " + RuneU(c) }
  function BadNumber(text: string): string { "Bad number syntax: " + Quote(text) }
  const UnclosedComment: string := "Multiline comment is not closed"

  // ---------------------------------------------------------------------
  // One state function at a time

  /** The depth counters of the three bracket kinds. */
  datatype Depths = Depths(paren: int, brace: int, square: int)

  predicate NonNegative(d: Depths) { d.paren >= 0 && d.brace >= 0 && d.square >= 0 }

  /** The state functions, plus `Stopped` for the nil state and `Stuck` for
   * the two loops the source never leaves: a '"'-string open at the end of
   * input, and a '\r' not followed by '\n'. */
  datatype State =
    | Code | AtEof | Space | Newline | Quoted | Raw | Operator | Property | Number | Identifier
    | LineComment | BlockComment | Stopped | Stuck

  /** The order the run loop's measure gives the states. */
  function Rank(st: State): nat
  {
    match st
    case Code => 1
    case Space | Operator | Quoted | Raw | Property | LineComment | BlockComment => 2
    case _ => 0
  }

  /** What running one state does: the state named next, the new cursor,
   * pending-text start and depths, and the tokens sent. */
  datatype Step = Step(next: State, end: nat, start: nat, depths: Depths, emitted: seq<UtilsToken>)

  /** What the cursor `q`, the pending text's start and the depths must
   * satisfy for the state `st` to run. No depth is ever negative while
   * the run goes on. */
  predicate ReadyAt(s: string, st: State, q: nat, start: nat, d: Depths)
  {
    start <= q <= |s|
    && (st != Stopped && st != Stuck ==> NonNegative(d))
    && (st == AtEof ==> q == |s|)
    && (st == Newline ==> q < |s| && s[q] in LineEnds)
    && (st == Number ==> q < |s| && (IsDecimalDigit(s[q]) || s[q] in ".+-"))
    && (st == Identifier ==> q < |s| && IsAlphaNumeric(s[q]))
    && (st == Property ==> q < |s|)
    && (st == Operator ==> start < q)
  }

  /** A step from state `cur` at `q` that keeps the machine going: it either
   * stops, having sent EOF or an error last, or is stuck in one of the
   * source's endless loops, or hands over to a state that is ready and
   * lower in the run's measure. EOF is only ever the last token of a
   * stopping step. */
  predicate Progress(s: string, cur: State, q: nat, r: Step)
    requires q <= |s|
  {
    r.start <= r.end <= |s|
    && (forall i :: 0 <= i < |r.emitted| && r.emitted[i].typ == TokEOF ==> r.next == Stopped && i == |r.emitted| - 1)
    && (r.next == Stopped ==> r.emitted != [] && r.emitted[|r.emitted| - 1].typ in {TokEOF, TokError})
    && (r.next != Stopped && r.next != Stuck ==>
          ReadyAt(s, r.next, r.end, r.start, r.depths) && 2 * (|s| - r.end) + Rank(r.next) < 2 * (|s| - q) + Rank(cur))
  }

  /** `emit(typ)` as the last act of a state that stops at `e`. */
  function Emitting(next: State, s: string, start: nat, e: nat, d: Depths, typ: TokenType, line: int): Step
    requires start <= e <= |s|
  {
    Step(next, e, e, d, [UtilsToken(typ, start, s[start..e], line)])
  }

  /** `errorf(msg)` as the last act of a state that stops at `e`. */
  function Failing(next: State, e: nat, start: nat, d: Depths, msg: string, line: int): Step
  {
    Step(next, e, start, d, [UtilsToken(TokError, start, msg, line)])
  }

  // In each of the state functions below, `q` is the cursor when the state
  // starts, `start` the start of the pending text, `d` the depths and
  // `line` the line tokens are sent on.

  /** `lexCode`. */
  function CodeSpec(s: string, q: nat, start: nat, d: Depths, line: int): (st: Step)
    requires start <= q <= |s| && NonNegative(d)
    ensures Progress(s, Code, q, st)
  {
    if q == |s| then Step(AtEof, q, start, d, [])
    else
      var c := s[q];
      if c in Blanks then Step(Space, q + 1, start, d, [])
      else if c in LineEnds then Step(Newline, q, start, d, [])
      else if c == ':' then Emitting(Code, s, start, q + 1, d, TokColon, line)
      else if c == '|' || c == '&' then
        var e := if q + 1 < |s| then q + 2 else q + 1;
        if At(s, q + 1) == Ch(c) then Emitting(Code, s, start, e, d, if c == '|' then TokOr else TokAnd, line)
        else Failing(Code, e, start, d, ExpectedPair(c), line)
      else if c == '"' then Step(Quoted, q + 1, start, d, [])
      else if c == '`' then Step(Raw, q + 1, start, d, [])
      else SymbolSpec(s, q, start, d, line)
  }

  /** The cases of `lexCode` for properties, numbers, operators, comments
   * and words. A sign directly before a digit starts a number. */
  function SymbolSpec(s: string, q: nat, start: nat, d: Depths, line: int): (st: Step)
    requires start <= q < |s| && NonNegative(d)
    ensures Progress(s, Code, q, st)
  {
    var c := s[q];
    if c == '.' && q + 1 < |s| && !IsDecimalDigit(s[q + 1]) then Step(Property, q + 1, start, d, [])
    else if c == '.' || IsDecimalDigit(c) then Step(Number, q, start, d, [])
    else if c in "+-" && q + 1 < |s| && IsDecimalDigit(s[q + 1]) then Step(Number, q, start, d, [])
    else if c in "+-*%=!<>" then Step(Operator, q + 1, start, d, [])
    else if c == '/' then
      if q + 1 < |s| && s[q + 1] == '/' then Step(LineComment, q + 1, start, d, [])
      else if q + 1 < |s| && s[q + 1] == '*' then Step(BlockComment, q + 1, start, d, [])
      else Step(Operator, q + 1, start, d, [])
    else if IsAlphaNumeric(c) then Step(Identifier, q, start, d, [])
    else BracketSpec(s, q, start, d, line)
  }

  /** The bracket cases of `lexCode`: an opener is sent and its depth goes
   * up; a closer is sent, its depth goes down, and an error ends the run
   * when that depth is then negative. Any other rune is an error. */
  function BracketSpec(s: string, q: nat, start: nat, d: Depths, line: int): (st: Step)
    requires start <= q < |s| && NonNegative(d)
    ensures Progress(s, Code, q, st)
  {
    var c := s[q];
    if c == '(' then Emitting(Code, s, start, q + 1, d.(paren := d.paren + 1), TokLeftParen, line)
    else if c == '{' then Emitting(Code, s, start, q + 1, d.(brace := d.brace + 1), TokLeftBrace, line)
    else if c == '[' then Emitting(Code, s, start, q + 1, d.(square := d.square + 1), TokLeftSquare, line)
    else if c in ")}]" then CloserSpec(s, q, start, d, line)
    else Failing(Stopped, q + 1, start, d, Unrecognised(c), line)
  }

  /** A closer: its token, then its depth one down, then an error when
   * that depth is negative. */
  function CloserSpec(s: string, q: nat, start: nat, d: Depths, line: int): (st: Step)
    requires start <= q < |s| && s[q] in ")}]" && NonNegative(d)
    ensures Progress(s, Code, q, st)
  {
    var c := s[q];
    var d' := if c == ')' then d.(paren := d.paren - 1) else if c == '}' then d.(brace := d.brace - 1) else d.(square := d.square - 1);
    var typ := if c == ')' then TokRightParen else if c == '}' then TokRightBrace else TokRightSquare;
    var sent := UtilsToken(typ, start, s[start..q + 1], line);
    if NonNegative(d') then Step(Code, q + 1, q + 1, d', [sent])
    else Step(Stopped, q + 1, q + 1, d', [sent, UtilsToken(TokError, q + 1, UnexpectedCloser(c), line)])
  }

  /** `lexEOF`: the paren, brace and square depths are checked in that
   * order; EOF only when all three are zero. */
  function EofSpec(s: string, start: nat, d: Depths, line: int): (st: Step)
    requires start <= |s|
    ensures Progress(s, AtEof, |s|, st)
  {
    if d.paren != 0 then Failing(Stopped, |s|, start, d, UnclosedParen, line)
    else if d.brace != 0 then Failing(Stopped, |s|, start, d, UnclosedBrace, line)
    else if d.square != 0 then Failing(Stopped, |s|, start, d, UnclosedSquare, line)
    else Emitting(Stopped, s, start, |s|, d, TokEOF, line)
  }

  /** `lexSpace`, one blank consumed: the run of blanks is one token. */
  function SpaceSpec(s: string, q: nat, start: nat, d: Depths, line: int): (st: Step)
    requires start <= q <= |s| && NonNegative(d)
    ensures Progress(s, Space, q, st)
  {
    Emitting(Code, s, start, RunEnd(s, q, Blanks), d, TokSpace, line)
  }

  /** `lexNewline`: the run of "\n" and "\r\n" is one token. At a '\r' not
   * followed by '\n' the run is empty: the token sent holds only the
   * pending text, and the source then goes round `lexCode` and
   * `lexNewline` for ever, sending an empty NEWLINE token on every turn. */
  function NewlineSpec(s: string, q: nat, start: nat, d: Depths, line: int): (st: Step)
    requires start <= q < |s| && s[q] in LineEnds && NonNegative(d)
    ensures Progress(s, Newline, q, st)
  {
    var e := NewlineRunEnd(s, q);
    Emitting(if e == q then Stuck else Code, s, start, e, d, TokNewline, line)
  }

  /** A string token through `e`, the line after it being `line`: `emit`
   * counts the text's line breaks after sending it, so it was sent on
   * `line` less that count. */
  function StringStep(s: string, start: nat, e: nat, d: Depths, typ: TokenType, line: int): Step
    requires start <= e <= |s|
  {
    var text := s[start..e];
    Step(Code, e, e, d, [UtilsToken(typ, start, text, line - CountOf(text, '\n'))])
  }

  /** `lexQuotedString`, just past the opening quote. The token keeps both
   * quotes; it is sent on the line the closing quote is on, and `emit`
   * counts its line breaks a second time, so `line`, the line after the
   * state, is that line plus the count. A backslash that is the last rune
   * is an error reported on the opening quote's line. */
  function QuotedSpec(s: string, q: nat, start: nat, d: Depths, line: int): (st: Step)
    requires start <= q <= |s| && NonNegative(d)
    ensures Progress(s, Quoted, q, st)
  {
    match QuoteScan(s, q)
    case Closed(k) => StringStep(s, start, k + 1, d, TokQuotedString, line)
    case Broken(e) => Failing(Stopped, e, start, d, UnterminatedQuote, line)
    case Forever => Step(Stuck, |s|, start, d, [])
  }

  /** The three ways a quoted string ends. */
  lemma QuotedOutcome(s: string, q: nat, start: nat, d: Depths, line: int)
    requires start <= q <= |s| && NonNegative(d)
    ensures var e := QuoteScan(s, q);
      QuotedSpec(s, q, start, d, line)
      == match e
         case Closed(k) => StringStep(s, start, k + 1, d, TokQuotedString, line)
         case Broken(e) => Failing(Stopped, e, start, d, UnterminatedQuote, line)
         case Forever => Step(Stuck, |s|, start, d, [])
  {
  }

  /** `lexRawString`, just past the opening '`', with the same line
   * counting as a quoted string. */
  function RawSpec(s: string, q: nat, start: nat, d: Depths, line: int): (st: Step)
    requires start <= q <= |s| && NonNegative(d)
    ensures Progress(s, Raw, q, st)
  {
    match ScanLexer.IndexFrom(s, q, '`')
    case Some(k) => StringStep(s, start, k + 1, d, TokRawString, line)
    case None => Failing(Stopped, |s|, start, d, UnterminatedRaw, line)
  }

  /** The type `lexOperator` sends for the rune `c`, alone or followed by
   * '=', and none for a rune it has no case for. */
  function OperatorType(c: char, assign: bool): (t: Option<TokenType>)
    ensures t.Some? <==> c in "+-/%*=!><"
    ensures t.Some? ==> TokPlus <= t.value <= TokLogicalNot
  {
    if c == '+' then Some(if assign then TokPlusAssign else TokPlus)
    else if c == '-' then Some(if assign then TokMinusAssign else TokMinus)
    else if c == '/' then Some(if assign then TokDivAssign else TokDiv)
    else if c == '%' then Some(if assign then TokModAssign else TokMod)
    else if c == '*' then Some(if assign then TokMultAssign else TokMult)
    else if c == '=' then Some(if assign then TokEquals else TokAssign)
    else if c == '!' then Some(if assign then TokNotEquals else TokLogicalNot)
    else if c == '>' then Some(if assign then TokGreaterEquals else TokGreater)
    else if c == '<' then Some(if assign then TokSmallerEquals else TokSmaller)
    else None
  }

  /** `lexOperator`, the first rune consumed; the operator is the rune at
   * the pending text's start. */
  function OperatorSpec(s: string, q: nat, start: nat, d: Depths, line: int): (st: Step)
    requires start < q <= |s| && NonNegative(d)
    ensures Progress(s, Operator, q, st)
  {
    var assign := At(s, q) == Ch('=');
    var e := if assign then q + 1 else q;
    match OperatorType(s[start], assign)
    case Some(t) => Emitting(Code, s, start, e, d, t, line)
    case None => Step(Code, e, start, d, [])
  }

  /** `lexProperty`, the '.' consumed: an error when a terminator follows
   * the '.' directly, or when the word after it is not followed by one;
   * otherwise the '.' and the word are one token. */
  function PropertySpec(s: string, q: nat, start: nat, d: Depths, line: int): (st: Step)
    requires start <= q < |s| && NonNegative(d)
    ensures Progress(s, Property, q, st)
  {
    if IsTerminator(At(s, q)) then Failing(Stopped, q, start, d, BadCharacter(s[q]), line)
    else
      var e := TokenLexer.AlnumEnd(s, q);
      if !IsTerminator(At(s, e)) then Failing(Stopped, e, start, d, BadCharacter(s[e]), line)
      else Emitting(Code, s, start, e, d, TokProperty, line)
  }

  /** `lexNumber`. */
  function NumberSpec(s: string, q: nat, start: nat, d: Depths, line: int): (st: Step)
    requires start <= q < |s| && (IsDecimalDigit(s[q]) || s[q] in ".+-") && NonNegative(d)
    ensures Progress(s, Number, q, st)
  {
    var (e, ok) := NumberSyntax(s, q);
    if ok then Emitting(Code, s, start, e, d, TokNumber, line)
    else Failing(Stopped, e, start, d, BadNumber(s[start..e]), line)
  }

  /** `lexIdentifier`. */
  function IdentifierSpec(s: string, q: nat, start: nat, d: Depths, line: int): (st: Step)
    requires start <= q < |s| && IsAlphaNumeric(s[q]) && NonNegative(d)
    ensures Progress(s, Identifier, q, st)
  {
    var e := TokenLexer.AlnumEnd(s, q);
    if !IsTerminator(At(s, e)) then Failing(Stopped, e, start, d, BadCharacter(s[e]), line)
    else Emitting(Code, s, start, e, d, WordType(s[start..e]), line)
  }

  /** `lexSinglelineComment`, the first '/' consumed: up to, not through,
   * the line break, or to the end of input. */
  function LineCommentSpec(s: string, q: nat, d: Depths): (st: Step)
    requires q <= |s| && NonNegative(d)
    ensures Progress(s, LineComment, q, st)
  {
    var e := match ScanLexer.IndexFrom(s, q, '\n') case Some(i) => i case None => |s|;
    Step(Code, e, e, d, [])
  }

  /** `lexMultilineComment`, the '/' consumed and the cursor on the star:
   * through the first star-slash pair at or after the cursor, or an
   * error when there is none. */
  function BlockCommentSpec(s: string, q: nat, start: nat, d: Depths, line: int): (st: Step)
    requires start <= q <= |s| && NonNegative(d)
    ensures Progress(s, BlockComment, q, st)
  {
    match TokenLexer.StarSlashFrom(s, q)
    case Some(k) => Step(Code, k + 2, k + 2, d, [])
    case None => Failing(Stopped, q, start, d, UnclosedComment, line)
  }

  /** Running the state `cur`. */
  function StepSpec(s: string, cur: State, q: nat, start: nat, d: Depths, line: int): (st: Step)
    requires ReadyAt(s, cur, q, start, d)
    ensures cur != Stopped && cur != Stuck ==> Progress(s, cur, q, st)
  {
    match cur
    case Code => CodeSpec(s, q, start, d, line)
    case AtEof => EofSpec(s, start, d, line)
    case Space => SpaceSpec(s, q, start, d, line)
    case Newline => NewlineSpec(s, q, start, d, line)
    case Quoted => QuotedSpec(s, q, start, d, line)
    case Raw => RawSpec(s, q, start, d, line)
    case Operator => OperatorSpec(s, q, start, d, line)
    case Property => PropertySpec(s, q, start, d, line)
    case Number => NumberSpec(s, q, start, d, line)
    case Identifier => IdentifierSpec(s, q, start, d, line)
    case LineComment => LineCommentSpec(s, q, d)
    case BlockComment => BlockCommentSpec(s, q, start, d, line)
    case Stopped | Stuck => Step(cur, q, start, d, [])
  }

  // ---------------------------------------------------------------------
  // The whole run

  /** A token without its line. */
  datatype Item = Item(typ: TokenType, pos: nat, value: string)

  function Strip(ts: seq<UtilsToken>): (r: seq<Item>)
    ensures |r| == |ts|
    ensures forall i :: 0 <= i < |ts| ==> r[i] == Item(ts[i].typ, ts[i].pos, ts[i].value)
  {
    seq(|ts|, i requires 0 <= i < |ts| => Item(ts[i].typ, ts[i].pos, ts[i].value))
  }

  /** What `run` sends from state `cur` on: the tokens, without lines, and
   * whether it ends rather than spinning. */
  datatype Outcome = Outcome(items: seq<Item>, halts: bool)

  function Trace(s: string, cur: State, q: nat, start: nat, d: Depths): (o: Outcome)
    requires ReadyAt(s, cur, q, start, d)
    decreases 2 * (|s| - q) + Rank(cur), 1
  {
    if cur == Stopped then Outcome([], true)
    else if cur == Stuck then Outcome([], false)
    else Continue(s, cur, q, StepSpec(s, cur, q, start, d, 0))
  }

  /** The rest of the run after the step `r` from the running state `cur`
   * at `q`: what it emits, then the trace from the state it names. */
  function Continue(s: string, cur: State, q: nat, r: Step): (o: Outcome)
    requires q <= |s| && cur != Stopped && cur != Stuck && Progress(s, cur, q, r)
    decreases 2 * (|s| - q) + Rank(cur), 0
  {
    if r.next == Stopped then Outcome(Strip(r.emitted), true)
    else if r.next == Stuck then Outcome(Strip(r.emitted), false)
    else
      var rest := Trace(s, r.next, r.end, r.start, r.depths);
      Outcome(Strip(r.emitted) + rest.items, rest.halts)
  }

  /** Two token sequences that differ only in their lines. */
  lemma StripLineFree(a: seq<UtilsToken>, b: seq<UtilsToken>)
    requires |a| == |b| && forall i :: 0 <= i < |a| ==> a[i] == b[i].(line := a[i].line)
    ensures Strip(a) == Strip(b)
  {
  }

  /** Two steps that differ only in the lines of their tokens. */
  predicate SameBut(a: Step, b: Step)
  {
    a.next == b.next && a.end == b.end && a.start == b.start && a.depths == b.depths
    && Strip(a.emitted) == Strip(b.emitted)
  }

  /** The line does not steer the state functions. */
  lemma LineFree(s: string, cur: State, q: nat, start: nat, d: Depths, line: int)
    requires ReadyAt(s, cur, q, start, d)
    ensures SameBut(StepSpec(s, cur, q, start, d, line), StepSpec(s, cur, q, start, d, 0))
  {
    match cur
    case Code =>
      if q < |s| {
        CodeLineFree(s, q, start, d, line);
      }
    case AtEof => EofLineFree(s, start, d, line);
    case Space => SpaceLineFree(s, q, start, d, line);
    case Newline => NewlineLineFree(s, q, start, d, line);
    case Quoted => QuotedLineFree(s, q, start, d, line);
    case Raw => RawLineFree(s, q, start, d, line);
    case Operator => OperatorLineFree(s, q, start, d, line);
    case Property => PropertyLineFree(s, q, start, d, line);
    case Number => NumberLineFree(s, q, start, d, line);
    case Identifier => IdentifierLineFree(s, q, start, d, line);
    case BlockComment => BlockCommentLineFree(s, q, start, d, line);
    case _ =>
  }

  lemma CodeLineFree(s: string, q: nat, start: nat, d: Depths, line: int)
    requires start <= q < |s| && NonNegative(d)
    ensures SameBut(CodeSpec(s, q, start, d, line), CodeSpec(s, q, start, d, 0))
  {
    var c := s[q];
    if c == ':' || c == '|' || c == '&' {
      var a, b := CodeSpec(s, q, start, d, line), CodeSpec(s, q, start, d, 0);
      StripLineFree(a.emitted, b.emitted);
    } else if c !in Blanks && c !in LineEnds && c != '"' && c != '`' {
      SymbolLineFree(s, q, start, d, line);
    }
  }

  lemma SymbolLineFree(s: string, q: nat, start: nat, d: Depths, line: int)
    requires start <= q < |s| && NonNegative(d)
    ensures SameBut(SymbolSpec(s, q, start, d, line), SymbolSpec(s, q, start, d, 0))
  {
    var c := s[q];
    if !(c == '.' || IsDecimalDigit(c) || c in "+-*%=!<>/" || IsAlphaNumeric(c)) {
      assert SymbolSpec(s, q, start, d, line) == BracketSpec(s, q, start, d, line);
      assert SymbolSpec(s, q, start, d, 0) == BracketSpec(s, q, start, d, 0);
      BracketLineFree(s, q, start, d, line);
    }
  }

  lemma BracketLineFree(s: string, q: nat, start: nat, d: Depths, line: int)
    requires start <= q < |s| && NonNegative(d)
    ensures SameBut(BracketSpec(s, q, start, d, line), BracketSpec(s, q, start, d, 0))
  {
    var c := s[q];
    if c in ")}]" {
      assert BracketSpec(s, q, start, d, line) == CloserSpec(s, q, start, d, line);
      assert BracketSpec(s, q, start, d, 0) == CloserSpec(s, q, start, d, 0);
      CloserLineFree(s, q, start, d, line);
    } else if c == '(' {
      EmittingLineFree(Code, s, start, q + 1, d.(paren := d.paren + 1), TokLeftParen, line);
    } else if c == '{' {
      EmittingLineFree(Code, s, start, q + 1, d.(brace := d.brace + 1), TokLeftBrace, line);
    } else if c == '[' {
      EmittingLineFree(Code, s, start, q + 1, d.(square := d.square + 1), TokLeftSquare, line);
    } else {
      var a, b := Failing(Stopped, q + 1, start, d, Unrecognised(c), line), Failing(Stopped, q + 1, start, d, Unrecognised(c), 0);
      StripLineFree(a.emitted, b.emitted);
    }
  }

  lemma EmittingLineFree(next: State, s: string, start: nat, e: nat, d: Depths, typ: TokenType, line: int)
    requires start <= e <= |s|
    ensures SameBut(Emitting(next, s, start, e, d, typ, line), Emitting(next, s, start, e, d, typ, 0))
  {
    var a, b := Emitting(next, s, start, e, d, typ, line), Emitting(next, s, start, e, d, typ, 0);
    StripLineFree(a.emitted, b.emitted);
  }

  lemma CloserLineFree(s: string, q: nat, start: nat, d: Depths, line: int)
    requires start <= q < |s| && s[q] in ")}]" && NonNegative(d)
    ensures SameBut(CloserSpec(s, q, start, d, line), CloserSpec(s, q, start, d, 0))
  {
    var a, b := CloserSpec(s, q, start, d, line), CloserSpec(s, q, start, d, 0);
    StripLineFree(a.emitted, b.emitted);
  }

  lemma EofLineFree(s: string, start: nat, d: Depths, line: int)
    requires start <= |s|
    ensures SameBut(EofSpec(s, start, d, line), EofSpec(s, start, d, 0))
  {
    var a, b := EofSpec(s, start, d, line), EofSpec(s, start, d, 0);
    StripLineFree(a.emitted, b.emitted);
  }

  lemma SpaceLineFree(s: string, q: nat, start: nat, d: Depths, line: int)
    requires start <= q <= |s| && NonNegative(d)
    ensures SameBut(SpaceSpec(s, q, start, d, line), SpaceSpec(s, q, start, d, 0))
  {
    var a, b := SpaceSpec(s, q, start, d, line), SpaceSpec(s, q, start, d, 0);
    StripLineFree(a.emitted, b.emitted);
  }

  lemma NewlineLineFree(s: string, q: nat, start: nat, d: Depths, line: int)
    requires start <= q < |s| && s[q] in LineEnds && NonNegative(d)
    ensures SameBut(NewlineSpec(s, q, start, d, line), NewlineSpec(s, q, start, d, 0))
  {
    var a, b := NewlineSpec(s, q, start, d, line), NewlineSpec(s, q, start, d, 0);
    StripLineFree(a.emitted, b.emitted);
  }

  lemma QuotedLineFree(s: string, q: nat, start: nat, d: Depths, line: int)
    requires start <= q <= |s| && NonNegative(d)
    ensures SameBut(QuotedSpec(s, q, start, d, line), QuotedSpec(s, q, start, d, 0))
  {
    var a, b := QuotedSpec(s, q, start, d, line), QuotedSpec(s, q, start, d, 0);
    StripLineFree(a.emitted, b.emitted);
  }

  lemma RawLineFree(s: string, q: nat, start: nat, d: Depths, line: int)
    requires start <= q <= |s| && NonNegative(d)
    ensures SameBut(RawSpec(s, q, start, d, line), RawSpec(s, q, start, d, 0))
  {
    var a, b := RawSpec(s, q, start, d, line), RawSpec(s, q, start, d, 0);
    StripLineFree(a.emitted, b.emitted);
  }

  lemma OperatorLineFree(s: string, q: nat, start: nat, d: Depths, line: int)
    requires start < q <= |s| && NonNegative(d)
    ensures SameBut(OperatorSpec(s, q, start, d, line), OperatorSpec(s, q, start, d, 0))
  {
    var a, b := OperatorSpec(s, q, start, d, line), OperatorSpec(s, q, start, d, 0);
    StripLineFree(a.emitted, b.emitted);
  }

  lemma PropertyLineFree(s: string, q: nat, start: nat, d: Depths, line: int)
    requires start <= q < |s| && NonNegative(d)
    ensures SameBut(PropertySpec(s, q, start, d, line), PropertySpec(s, q, start, d, 0))
  {
    var a, b := PropertySpec(s, q, start, d, line), PropertySpec(s, q, start, d, 0);
    StripLineFree(a.emitted, b.emitted);
  }

  lemma NumberLineFree(s: string, q: nat, start: nat, d: Depths, line: int)
    requires start <= q < |s| && (IsDecimalDigit(s[q]) || s[q] in ".+-") && NonNegative(d)
    ensures SameBut(NumberSpec(s, q, start, d, line), NumberSpec(s, q, start, d, 0))
  {
    var a, b := NumberSpec(s, q, start, d, line), NumberSpec(s, q, start, d, 0);
    StripLineFree(a.emitted, b.emitted);
  }

  lemma IdentifierLineFree(s: string, q: nat, start: nat, d: Depths, line: int)
    requires start <= q < |s| && IsAlphaNumeric(s[q]) && NonNegative(d)
    ensures SameBut(IdentifierSpec(s, q, start, d, line), IdentifierSpec(s, q, start, d, 0))
  {
    var a, b := IdentifierSpec(s, q, start, d, line), IdentifierSpec(s, q, start, d, 0);
    StripLineFree(a.emitted, b.emitted);
  }

  lemma BlockCommentLineFree(s: string, q: nat, start: nat, d: Depths, line: int)
    requires start <= q <= |s| && NonNegative(d)
    ensures SameBut(BlockCommentSpec(s, q, start, d, line), BlockCommentSpec(s, q, start, d, 0))
  {
    var a, b := BlockCommentSpec(s, q, start, d, line), BlockCommentSpec(s, q, start, d, 0);
    StripLineFree(a.emitted, b.emitted);
  }

  /** One turn of the run: the trace from a running state is what its step
   * sends followed by the trace from the state it names. */
  lemma TraceStep(s: string, cur: State, q: nat, start: nat, d: Depths, line: int)
    requires ReadyAt(s, cur, q, start, d) && cur != Stopped && cur != Stuck
    ensures var a := StepSpec(s, cur, q, start, d, line);
      ReadyAt(s, a.next, a.end, a.start, a.depths)
      && Trace(s, cur, q, start, d).items == Strip(a.emitted) + Trace(s, a.next, a.end, a.start, a.depths).items
      && Trace(s, cur, q, start, d).halts == Trace(s, a.next, a.end, a.start, a.depths).halts
  {
    LineFree(s, cur, q, start, d, line);
  }

  /** `TraceStep` for a run whose tokens so far are `o`, sent `out` after
   * the step `a`. */
  lemma TraceTurn(s: string, cur: State, q: nat, start: nat, d: Depths, line: int,
                  o: seq<UtilsToken>, a: Step, out: seq<UtilsToken>)
    requires ReadyAt(s, cur, q, start, d) && cur != Stopped && cur != Stuck
    requires a == StepSpec(s, cur, q, start, d, line) && out == o + a.emitted
    ensures Strip(out) + Trace(s, a.next, a.end, a.start, a.depths).items == Strip(o) + Trace(s, cur, q, start, d).items
  {
    TraceStep(s, cur, q, start, d, line);
    assert Strip(o + a.emitted) == Strip(o) + Strip(a.emitted);
    Regroup(Strip(o), Strip(a.emitted), Trace(s, a.next, a.end, a.start, a.depths).items, Trace(s, cur, q, start, d).items);
  }

  // ---------------------------------------------------------------------
  // The lexer

  class Lexer {
    const name: string
    const input: string
    var out: seq<UtilsToken>
    var pos: nat
    var start: nat
    var width: nat
    var paren: int
    var brace: int
    var square: int
    var line: int

    ghost predicate Valid()
      reads this
    {
      start <= pos <= |input| && width <= 1
    }

    /** What the state `st` needs of the cursor to run. */
    ghost predicate Ready(st: State)
      reads this
    {
      Valid() && ReadyAt(input, st, pos, start, Depths(paren, brace, square))
    }

    /** The run loop's measure. */
    ghost function Measure(st: State): nat
      reads this
      requires Valid()
    {
      2 * (|input| - pos) + Rank(st)
    }

    /** `tokenise`, without the goroutine. */
    constructor (name: string, input: string)
      ensures Valid() && this.name == name && this.input == input
      ensures out == [] && pos == 0 && start == 0 && width == 0
      ensures paren == 0 && brace == 0 && square == 0 && line == 1
    {
      this.name, this.input := name, input;
      out, pos, start, width := [], 0, 0, 0;
      paren, brace, square, line := 0, 0, 0, 1;
    }

    /** Only the cursor (position, width and line) changed. */
    twostate predicate CursorOnly()
      reads this
    {
      out == old(out) && start == old(start) && paren == old(paren) && brace == old(brace) && square == old(square)
    }

    /** The state ran as `r` says. */
    twostate predicate Took(next: State, r: Step)
      reads this
    {
      next == r.next && pos == r.end && start == r.start && Depths(paren, brace, square) == r.depths && out == old(out) + r.emitted
    }

    /** `next`. */
    method Next() returns (r: Rune)
      requires Valid()
      modifies this
      ensures Valid() && CursorOnly()
      ensures r == At(input, old(pos))
      ensures r.Eof? ==> pos == old(pos) && width == 0 && line == old(line)
      ensures r.Ch? ==> pos == old(pos) + 1 && width == 1
      ensures line == if r == Ch('\n') then old(line) + 1 else old(line)
    {
      if pos >= |input| {
        width := 0;
        return Eof;
      }
      r := Ch(input[pos]);
      width := 1;
      pos := pos + 1;
      if r.c == '\n' {
        line := line + 1;
      }
    }

    /** `backup`. */
    method Backup()
      requires Valid() && start + width <= pos
      modifies this
      ensures Valid() && CursorOnly()
      ensures pos == old(pos) - old(width) && width == old(width)
      ensures line == if old(width) == 1 && input[pos] == '\n' then old(line) - 1 else old(line)
    {
      pos := pos - width;
      if width == 1 && input[pos] == '\n' {
        line := line - 1;
      }
    }

    /** `peek`: `next` then `backup`; the cursor and the line stay. */
    method Peek() returns (r: Rune)
      requires Valid()
      modifies this
      ensures Valid() && CursorOnly()
      ensures r == At(input, old(pos)) && pos == old(pos) && line == old(line)
      ensures r.Ch? ==> width == 1
    {
      r := Next();
      Backup();
    }

    /** `emit`: the pending text as a token of type `typ`, on the current
     * line; after a string the line moves on by the text's line breaks. */
    method Emit(typ: TokenType)
      requires Valid()
      modifies this
      ensures Valid() && pos == old(pos) && width == old(width) && start == pos
      ensures out == old(out) + [UtilsToken(typ, old(start), input[old(start)..pos], old(line))]
      ensures line == old(line) + (if typ in {TokRawString, TokQuotedString} then CountOf(input[old(start)..pos], '\n') else 0)
      ensures paren == old(paren) && brace == old(brace) && square == old(square)
    {
      out := out + [UtilsToken(typ, start, input[start..pos], line)];
      if typ in {TokRawString, TokQuotedString} {
        line := line + CountOf(input[start..pos], '\n');
      }
      start := pos;
    }

    /** `emit` of a string: the token's line is the line after it less
     * the line breaks of its text. */
    method EmitString(typ: TokenType)
      requires Valid() && typ in {TokRawString, TokQuotedString}
      modifies this
      ensures Valid() && pos == old(pos)
      ensures Took(Code, StringStep(input, old(start), pos, old(Depths(paren, brace, square)), typ, line))
    {
      Emit(typ);
    }

    /** `ignore`: drops the pending text, counting its line breaks. */
    method Ignore()
      requires Valid()
      modifies this
      ensures Valid() && pos == old(pos) && width == old(width) && start == pos
      ensures line == old(line) + CountOf(input[old(start)..pos], '\n')
      ensures out == old(out) && paren == old(paren) && brace == old(brace) && square == old(square)
    {
      line := line + CountOf(input[start..pos], '\n');
      start := pos;
    }

    /** `errorf`: an error token carrying `msg`, at the pending text's
     * start. */
    method Errorf(msg: string)
      requires Valid()
      modifies this
      ensures Valid() && out == old(out) + [UtilsToken(TokError, start, msg, line)]
      ensures start == old(start) && pos == old(pos) && width == old(width) && line == old(line)
      ensures paren == old(paren) && brace == old(brace) && square == old(square)
    {
      out := out + [UtilsToken(TokError, start, msg, line)];
    }

    /** `accept`. */
    method Accept(valid: string) returns (ok: bool)
      requires Valid()
      modifies this
      ensures Valid() && CursorOnly()
      ensures ok <==> RuneIn(At(input, old(pos)), valid)
      ensures pos == if ok then old(pos) + 1 else old(pos)
    {
      var r := Next();
      ok := RuneIn(r, valid);
      if !ok {
        Backup();
      }
    }

    /** `acceptRun`. */
    method AcceptRun(valid: string)
      requires Valid()
      modifies this
      ensures Valid() && CursorOnly()
      ensures pos == RunEnd(input, old(pos), valid)
    {
      var r := Next();
      while RuneIn(r, valid)
        invariant Valid() && CursorOnly()
        invariant old(pos) <= pos - width && RunEnd(input, old(pos), valid) == RunEnd(input, pos - width, valid)
        invariant r == At(input, pos - width) && (r.Eof? <==> width == 0)
        decreases |input| - pos + width
      {
        r := Next();
      }
      Backup();
    }

    /** `scanNumber`: an optional sign, then as in lang/token/lexer.go. */
    method ScanNumber() returns (ok: bool)
      requires Valid()
      modifies this
      ensures Valid() && CursorOnly()
      ensures (pos, ok) == NumberSyntax(input, old(pos))
    {
      var _ := Accept("+-");
      ScanMantissa();
      ScanExponent();
      var r := Peek();
      if TokenLexer.IsAlnumRune(r) {
        var _ := Next();
        return false;
      }
      return true;
    }

    /** The digits and fraction of `scanNumber`. */
    method ScanMantissa()
      requires Valid()
      modifies this
      ensures Valid() && CursorOnly() && pos == TokenLexer.MantissaEnd(input, old(pos))
    {
      AcceptRun(TokenLexer.Digits);
      var dot := Accept(".");
      if dot {
        AcceptRun(TokenLexer.Digits);
      }
    }

    /** The exponent of `scanNumber`. */
    method ScanExponent()
      requires Valid()
      modifies this
      ensures Valid() && CursorOnly() && pos == TokenLexer.ExponentEnd(input, old(pos))
    {
      var exp := Accept("eE");
      if exp {
        var _ := Accept("+-");
        var _ := Accept(TokenLexer.Digits);
      }
    }

    /** `atIdentifierTerminator`. */
    method AtIdentifierTerminator() returns (b: bool)
      requires Valid()
      modifies this
      ensures Valid() && CursorOnly() && pos == old(pos) && line == old(line)
      ensures b <==> IsTerminator(At(input, pos))
    {
      var r := Peek();
      b := IsTerminator(r);
    }

    // -------------------------------------------------------------------
    // The state functions

    /** `lexCode`. */
    method LexCode() returns (next: State)
      requires Valid() && NonNegative(Depths(paren, brace, square))
      modifies this
      ensures Valid() && Took(next, CodeSpec(input, old(pos), old(start), old(Depths(paren, brace, square)), line))
    {
      var r := Next();
      if r.Eof? {
        return AtEof;
      }
      var c := r.c;
      if c in Blanks {
        return Space;
      } else if c in LineEnds {
        Backup();
        return Newline;
      } else if c == ':' {
        Emit(TokColon);
        return Code;
      } else if c == '|' || c == '&' {
        var r2 := Next();
        if r2 == Ch(c) {
          Emit(if c == '|' then TokOr else TokAnd);
        } else {
          Errorf(ExpectedPair(c));
        }
        return Code;
      } else if c == '"' {
        return Quoted;
      } else if c == '`' {
        return Raw;
      }
      next := LexSymbol(c);
    }

    /** The cases of `lexCode` for properties, numbers, operators, comments
     * and words, `c` just consumed. */
    method LexSymbol(c: char) returns (next: State)
      requires Valid() && NonNegative(Depths(paren, brace, square)) && start < pos && input[pos - 1] == c && width == 1 && c != '\n'
      modifies this
      ensures Valid() && Took(next, SymbolSpec(input, old(pos) - 1, old(start), old(Depths(paren, brace, square)), line))
    {
      if c == '.' && pos < |input| && !IsDecimalDigit(input[pos]) {
        return Property;
      } else if c == '.' || IsDecimalDigit(c) {
        Backup();
        return Number;
      } else if c in "+-" && pos < |input| && IsDecimalDigit(input[pos]) {
        Backup();
        return Number;
      } else if c in "+-*%=!<>" {
        return Operator;
      } else if c == '/' {
        if pos < |input| && input[pos] == '/' {
          return LineComment;
        } else if pos < |input| && input[pos] == '*' {
          return BlockComment;
        }
        return Operator;
      } else if IsAlphaNumeric(c) {
        Backup();
        return Identifier;
      }
      next := LexBracket(c);
    }

    /** The bracket cases of `lexCode`, `c` just consumed. */
    method LexBracket(c: char) returns (next: State)
      requires Valid() && NonNegative(Depths(paren, brace, square)) && start < pos && input[pos - 1] == c
      modifies this
      ensures Valid() && Took(next, BracketSpec(input, old(pos) - 1, old(start), old(Depths(paren, brace, square)), line))
    {
      if c == '(' {
        Emit(TokLeftParen);
        paren := paren + 1;
      } else if c == '{' {
        Emit(TokLeftBrace);
        brace := brace + 1;
      } else if c == '[' {
        Emit(TokLeftSquare);
        square := square + 1;
      } else if c in ")}]" {
        next := LexCloser(c);
        return;
      } else {
        Errorf(Unrecognised(c));
        return Stopped;
      }
      return Code;
    }

    /** A closer, `c` just consumed. */
    method LexCloser(c: char) returns (next: State)
      requires Valid() && NonNegative(Depths(paren, brace, square)) && start < pos && input[pos - 1] == c && c in ")}]"
      modifies this
      ensures Valid() && Took(next, CloserSpec(input, old(pos) - 1, old(start), old(Depths(paren, brace, square)), line))
    {
      var negative := false;
      if c == ')' {
        Emit(TokRightParen);
        paren := paren - 1;
        negative := paren < 0;
      } else if c == '}' {
        Emit(TokRightBrace);
        brace := brace - 1;
        negative := brace < 0;
      } else {
        Emit(TokRightSquare);
        square := square - 1;
        negative := square < 0;
      }
      if negative {
        Errorf(UnexpectedCloser(c));
        return Stopped;
      }
      return Code;
    }

    /** `lexEOF`. */
    method LexEof() returns (next: State)
      requires Valid() && pos == |input|
      modifies this
      ensures Valid() && Took(next, EofSpec(input, old(start), old(Depths(paren, brace, square)), line))
    {
      if paren != 0 {
        Errorf(UnclosedParen);
      } else if brace != 0 {
        Errorf(UnclosedBrace);
      } else if square != 0 {
        Errorf(UnclosedSquare);
      } else {
        Emit(TokEOF);
      }
      return Stopped;
    }

    /** `lexSpace`. */
    method LexSpace() returns (next: State)
      requires Valid() && NonNegative(Depths(paren, brace, square))
      modifies this
      ensures Valid() && Took(next, SpaceSpec(input, old(pos), old(start), old(Depths(paren, brace, square)), line))
    {
      var r := Peek();
      while RuneIn(r, Blanks)
        invariant Valid() && CursorOnly() && old(pos) <= pos
        invariant RunEnd(input, old(pos), Blanks) == RunEnd(input, pos, Blanks) && r == At(input, pos)
        decreases |input| - pos
      {
        var _ := Next();
        r := Peek();
      }
      Emit(TokSpace);
      return Code;
    }

    /** `lexNewline`. Where the source would go round for ever, at a '\r'
     * not followed by '\n', the state is `Stuck` once the first of its
     * endless NEWLINE tokens is sent. */
    method LexNewline() returns (next: State)
      requires Valid() && pos < |input| && input[pos] in LineEnds && NonNegative(Depths(paren, brace, square))
      modifies this
      ensures Valid() && Took(next, NewlineSpec(input, old(pos), old(start), old(Depths(paren, brace, square)), line))
    {
      var q := pos;
      SeekLineEnds();
      Emit(TokNewline);
      return if pos == q then Stuck else Code;
    }

    /** The loop of `lexNewline`: over the run of "\n" and "\r\n". */
    method SeekLineEnds()
      requires Valid()
      modifies this
      ensures Valid() && CursorOnly() && pos == NewlineRunEnd(input, old(pos))
    {
      while true
        invariant Valid() && CursorOnly() && old(pos) <= pos
        invariant NewlineRunEnd(input, old(pos)) == NewlineRunEnd(input, pos)
        decreases |input| - pos
      {
        var r := Next();
        if r == Ch('\n') {
        } else if r == Ch('\r') && At(input, pos) == Ch('\n') {
          var _ := Next();
        } else {
          Backup();
          break;
        }
      }
    }

    /** `lexQuotedString`. Where the source would spin at the end of input,
     * the state is `Stuck`. */
    method LexQuotedString() returns (next: State)
      requires Valid() && NonNegative(Depths(paren, brace, square))
      modifies this
      ensures Valid() && Took(next, QuotedSpec(input, old(pos), old(start), old(Depths(paren, brace, square)), line))
      ensures next == Stopped ==> line == old(line)
    {
      ghost var (q, s0, d0) := (pos, start, Depths(paren, brace, square));
      var startLine := line;
      var e := SeekQuote();
      if e.Closed? {
        EmitString(TokQuotedString);
        next := Code;
      } else if e.Broken? {
        line := startLine;
        Errorf(UnterminatedQuote);
        next := Stopped;
      } else {
        next := Stuck;
      }
      QuotedOutcome(input, q, s0, d0, line);
    }

    /** The loop of `lexQuotedString`: through the closing quote, or to
     * the end of input. */
    method SeekQuote() returns (e: TokenLexer.QuoteEnd)
      requires Valid()
      modifies this
      ensures Valid() && CursorOnly()
      ensures e == QuoteScan(input, old(pos))
      ensures e.Closed? ==> pos == e.close + 1
      ensures !e.Closed? ==> pos == |input|
    {
      while true
        invariant Valid() && CursorOnly() && old(pos) <= pos
        invariant QuoteScan(input, old(pos)) == QuoteScan(input, pos)
        decreases |input| - pos
      {
        var r := Next();
        if r == Ch('\\') {
          var r2 := Next();
          if r2.Eof? {
            return TokenLexer.Broken(pos);
          }
        } else if r == Ch('"') {
          return TokenLexer.Closed(pos - 1);
        } else if r.Eof? {
          return TokenLexer.Forever;
        }
      }
    }

    /** `lexRawString`. An unterminated one is reported on the line of its
     * opening quote. */
    method LexRawString() returns (next: State)
      requires Valid() && NonNegative(Depths(paren, brace, square))
      modifies this
      ensures Valid() && Took(next, RawSpec(input, old(pos), old(start), old(Depths(paren, brace, square)), line))
      ensures next == Stopped ==> line == old(line)
    {
      var startLine := line;
      while true
        invariant Valid() && CursorOnly() && old(pos) <= pos
        invariant ScanLexer.IndexFrom(input, old(pos), '`') == ScanLexer.IndexFrom(input, pos, '`')
        decreases |input| - pos
      {
        var r := Next();
        if r.Eof? {
          line := startLine;
          Errorf(UnterminatedRaw);
          return Stopped;
        } else if r == Ch('`') {
          break;
        }
      }
      EmitString(TokRawString);
      return Code;
    }

    /** `lexOperator`. */
    method LexOperator() returns (next: State)
      requires Valid() && start < pos && NonNegative(Depths(paren, brace, square))
      modifies this
      ensures Valid() && Took(next, OperatorSpec(input, old(pos), old(start), old(Depths(paren, brace, square)), line))
    {
      var r := input[start];
      var n := Next();
      if n != Ch('=') {
        Backup();
      }
      match OperatorType(r, n == Ch('=')) {
        case Some(t) => Emit(t);
        case None =>
      }
      return Code;
    }

    /** `lexProperty`. */
    method LexProperty() returns (next: State)
      requires Valid() && pos < |input| && NonNegative(Depths(paren, brace, square))
      modifies this
      ensures Valid() && Took(next, PropertySpec(input, old(pos), old(start), old(Depths(paren, brace, square)), line))
    {
      var t := AtIdentifierTerminator();
      if t {
        Errorf(BadCharacter(input[pos]));
        return Stopped;
      }
      var r := Next();
      while TokenLexer.IsAlnumRune(r)
        invariant Valid() && CursorOnly() && old(pos) <= pos - width
        invariant TokenLexer.AlnumEnd(input, old(pos)) == TokenLexer.AlnumEnd(input, pos - width)
        invariant r == At(input, pos - width) && (r.Eof? <==> width == 0)
        decreases |input| - pos + width
      {
        r := Next();
      }
      Backup();
      var ok := AtIdentifierTerminator();
      if !ok {
        Errorf(BadCharacter(r.c));
        return Stopped;
      }
      Emit(TokProperty);
      return Code;
    }

    /** `lexNumber`. */
    method LexNumber() returns (next: State)
      requires Valid() && pos < |input| && (IsDecimalDigit(input[pos]) || input[pos] in ".+-") && NonNegative(Depths(paren, brace, square))
      modifies this
      ensures Valid() && Took(next, NumberSpec(input, old(pos), old(start), old(Depths(paren, brace, square)), line))
    {
      var ok := ScanNumber();
      if !ok {
        Errorf(BadNumber(input[start..pos]));
        return Stopped;
      }
      Emit(TokNumber);
      return Code;
    }

    /** `lexIdentifier`. */
    method LexIdentifier() returns (next: State)
      requires Valid() && pos < |input| && IsAlphaNumeric(input[pos]) && NonNegative(Depths(paren, brace, square))
      modifies this
      ensures Valid() && Took(next, IdentifierSpec(input, old(pos), old(start), old(Depths(paren, brace, square)), line))
    {
      var r := Next();
      while TokenLexer.IsAlnumRune(r)
        invariant Valid() && CursorOnly() && old(pos) <= pos - width
        invariant TokenLexer.AlnumEnd(input, old(pos)) == TokenLexer.AlnumEnd(input, pos - width)
        invariant r == At(input, pos - width) && (r.Eof? <==> width == 0)
        decreases |input| - pos + width
      {
        r := Next();
      }
      Backup();
      var ok := AtIdentifierTerminator();
      if !ok {
        Errorf(BadCharacter(r.c));
        return Stopped;
      }
      Emit(WordType(input[start..pos]));
      return Code;
    }

    /** `lexSinglelineComment`: the cursor jumps to the next line break,
     * or to the end of input. */
    method LexLineComment() returns (next: State)
      requires Valid() && NonNegative(Depths(paren, brace, square))
      modifies this
      ensures Valid() && Took(next, LineCommentSpec(input, old(pos), old(Depths(paren, brace, square))))
    {
      match ScanLexer.IndexFrom(input, pos, '\n') {
        case None => pos := |input|;
        case Some(i) => pos := i;
      }
      Ignore();
      return Code;
    }

    /** `lexMultilineComment`: the cursor jumps past the first star-slash
     * pair, and the line breaks of the pending text are counted. */
    method LexBlockComment() returns (next: State)
      requires Valid() && NonNegative(Depths(paren, brace, square))
      modifies this
      ensures Valid() && Took(next, BlockCommentSpec(input, old(pos), old(start), old(Depths(paren, brace, square)), line))
      ensures next == Code ==> line == old(line) + CountOf(input[old(start)..pos], '\n')
    {
      match TokenLexer.StarSlashFrom(input, pos) {
        case None =>
          Errorf(UnclosedComment);
          return Stopped;
        case Some(k) =>
          pos := k + 2;
      }
      Ignore();
      return Code;
    }

    /** One turn of `run`'s loop: the state function `st` names. */
    method RunState(st: State) returns (next: State)
      requires Ready(st) && st != Stopped && st != Stuck
      modifies this
      ensures Valid() && Took(next, StepSpec(input, st, old(pos), old(start), old(Depths(paren, brace, square)), line))
    {
      match st
      case Code => next := LexCode();
      case AtEof => next := LexEof();
      case Space => next := LexSpace();
      case Newline => next := LexNewline();
      case Quoted => next := LexQuotedString();
      case Raw => next := LexRawString();
      case Operator => next := LexOperator();
      case Property => next := LexProperty();
      case Number => next := LexNumber();
      case Identifier => next := LexIdentifier();
      case LineComment => next := LexLineComment();
      case BlockComment => next := LexBlockComment();
    }

    /** `RunState`, seen from the trace. */
    method Turn(st: State) returns (next: State)
      requires Ready(st) && st != Stopped && st != Stuck
      modifies this
      ensures Valid() && (next == Stopped || next == Stuck || (Ready(next) && Measure(next) < old(Measure(st))))
      ensures ReadyAt(input, next, pos, start, Depths(paren, brace, square))
      ensures Strip(out) + Trace(input, next, pos, start, Depths(paren, brace, square)).items
           == Strip(old(out)) + Trace(input, st, old(pos), old(start), old(Depths(paren, brace, square))).items
      ensures Trace(input, next, pos, start, Depths(paren, brace, square)).halts
           == Trace(input, st, old(pos), old(start), old(Depths(paren, brace, square))).halts
    {
      ghost var (o, q, s0, d0) := (out, pos, start, Depths(paren, brace, square));
      next := RunState(st);
      TraceStep(input, st, q, s0, d0, line);
      TraceTurn(input, st, q, s0, d0, line, o, StepSpec(input, st, q, s0, d0, line), out);
    }

    /** `run`: the state functions from `lexCode` until one names none, the
     * tokens it sends being those of `Trace`; or until one that spins. */
    method Run() returns (last: State)
      requires Valid() && NonNegative(Depths(paren, brace, square))
      modifies this
      ensures Valid() && (last == Stopped || last == Stuck)
      ensures Strip(out) == Strip(old(out)) + Trace(input, Code, old(pos), old(start), old(Depths(paren, brace, square))).items
      ensures last == Stopped <==> Trace(input, Code, old(pos), old(start), old(Depths(paren, brace, square))).halts
    {
      var st := Code;
      while st != Stopped && st != Stuck
        invariant Ready(st)
        invariant Strip(out) + Trace(input, st, pos, start, Depths(paren, brace, square)).items
               == Strip(old(out)) + Trace(input, Code, old(pos), old(start), old(Depths(paren, brace, square))).items
        invariant Trace(input, st, pos, start, Depths(paren, brace, square)).halts
               == Trace(input, Code, old(pos), old(start), old(Depths(paren, brace, square))).halts
        decreases if st == Stopped || st == Stuck then 0 else Measure(st) + 1
      {
        st := Turn(st);
      }
      return st;
    }
  }
}
