/**
 * lang/token/lexer.go: the state-function lexer of the token package. Each
 * state reads some input, may emit tokens, and names the state to run
 * next; the run ends when a state names none. Tokens are appended to `out`
 * in the order they are emitted. An error is itself a token, of type ERROR,
 * whose value is the message.
 *
 * The file emits NUM and RAWSTR, which lang/token/token.go does not define,
 * and stamps tokens with a `Position` of name, offset, line and column,
 * which it does not define either; both are given their own definitions
 * here.
 */
module TokenLexer {
  import opened Runes
  import opened Tok
  import opened TokenErrors
  import ScanLexer

  /** The two types this lexer emits beyond those of lang/token/token.go. */
  const NUM: Type := 100
  const RAWSTR: Type := 101

  datatype Position = Position(name: string, offset: nat, line: int, col: int)

  datatype LexToken = LexToken(typ: Type, value: string, pos: Position)

  /** The state functions, plus `Stopped` for the nil state and `Stuck` for
   * a state the source never leaves. */
  datatype State =
    | Code | AtEof | Space | Newline | Quoted | Raw | Operator | Number | Identifier
    | RightBracket | LineComment | BlockComment | Stopped | Stuck

  /** The order the run loop's measure gives the states: those entered just
   * after consuming a rune rank above `Code`, those entered after backing
   * up rank below it. */
  function Rank(st: State): nat
  {
    match st
    case Code => 1
    case Space | Operator | Quoted | Raw | LineComment | BlockComment => 2
    case _ => 0
  }

  // ---------------------------------------------------------------------
  // Character classes and scanning rules

  /** `isSpace`. */
  const Spaces: string := " \t\r"

  const Digits: string := "0123456789"

  predicate IsAlnumRune(r: Rune) { r.Ch? && IsAlphaNumeric(r.c) }

  /** `atIdentifierTerminator`'s set: what may follow an identifier. */
  predicate IsTerminator(r: Rune)
  {
    r.Eof? || r.c in " \t\r\n=.,|&()[]{}+-/*%"
  }

  /** `scanNumber` from `p`: where it stops and whether the syntax is good.
   * Digits, then an optional '.' and digits, then an optional 'e' or 'E'
   * with an optional sign and at most one digit; an alphanumeric rune
   * after that is consumed and makes the syntax bad. */
  function NumberSyntax(s: string, p: nat): (r: (nat, bool))
    requires p <= |s|
    ensures p <= r.0 <= |s|
  {
    var e := ExponentEnd(s, MantissaEnd(s, p));
    if IsAlnumRune(At(s, e)) then (e + 1, false) else (e, true)
  }

  /** Digits, then an optional '.' and digits. */
  function MantissaEnd(s: string, p: nat): (e: nat)
    requires p <= |s|
    ensures p <= e <= |s|
  {
    var e1 := RunEnd(s, p, Digits);
    if RuneIn(At(s, e1), ".") then RunEnd(s, e1 + 1, Digits) else e1
  }

  /** An optional 'e' or 'E', then, only after it, an optional sign and an
   * optional single digit. */
  function ExponentEnd(s: string, p: nat): (e: nat)
    requires p <= |s|
    ensures p <= e <= |s|
  {
    if RuneIn(At(s, p), "eE") then
      var e1 := if RuneIn(At(s, p + 1), "+-") then p + 2 else p + 1;
      if RuneIn(At(s, e1), Digits) then e1 + 1 else e1
    else p
  }

  /** `lexIdentifier`'s choice: the keyword type when `keywords[word]` is in
   * the keyword range, else NAME. */
  function IdentifierType(word: string): (t: Type)
  {
    var k := KeywordLookup(word);
    if KeywordBegin + 1 <= k < KeywordEnd then k else NAME
  }

  /** `lexNewline`'s rule: a run of line breaks ends a statement after these
   * types. */
  predicate AsiAfter(prev: Type)
  {
    prev in {NAME, RAWSTR, STR, FALSE, TRUE, NUM, BREAK, CONT, RETURN, RROUND, RSQUARE, RCURLY}
  }

  /** `bracketMap`. */
  function Opener(c: char): char
  {
    if c == ')' then '(' else if c == ']' then '[' else '{'
  }

  // `strings.Index(s[p:], "*/")`, as an index into `s`.
  function StarSlashFrom(s: string, p: nat): (r: Option<nat>)
    requires p <= |s|
    decreases |s| - p
    ensures r.Some? ==> p <= r.value && r.value + 1 < |s| && s[r.value] == '*' && s[r.value + 1] == '/'
    ensures r.Some? ==> forall k :: p <= k < r.value ==> !(s[k] == '*' && s[k + 1] == '/')
    ensures r.None? ==> forall k :: p <= k < |s| - 1 ==> !(s[k] == '*' && s[k + 1] == '/')
  {
    if p + 1 >= |s| then None
    else if s[p] == '*' && s[p + 1] == '/' then Some(p)
    else StarSlashFrom(s, p + 1)
  }

  // ---------------------------------------------------------------------
  // Error messages (the values of ERROR tokens)

  function ExpectedToken(c: char): string { "expected Token " + RuneU(c) }
  function Unrecognised(c: char): string { "unrecognised character in code: " + RuneU(c) }
  function UnclosedLeft(c: char): string { "unclosed left bracket: " + RuneU(c) }
  const UnterminatedQuote: string := "unterminated quoted string"
  const UnterminatedRaw: string := "Unterminated raw string"
  function BadNumber(text: string): string { "Bad number syntax: " + Quote(text) }
  function BadCharacter(c: char): string { "Bad character: " + RuneU(c) }
  function UnexpectedRight(c: char): string { "unexpected right bracket " + RuneU(c) }
  const UnclosedComment: string := "Multiline comment is not closed"

  // ---------------------------------------------------------------------
  // One state function at a time

  /** What running one state does: the state named next, the new cursor,
   * pending-text start, bracket stack and previous type, and the tokens
   * emitted. */
  datatype Step = Step(next: State, end: nat, start: nat, stack: seq<char>, prev: Type, emitted: seq<LexToken>)

  /** What the cursor `q` and the pending text's start must satisfy for the
   * state `st` to run: the states entered after a backup find the rune
   * that chose them still ahead. */
  predicate ReadyAt(s: string, st: State, q: nat, start: nat)
  {
    start <= q <= |s|
    && (st == AtEof ==> q == |s|)
    && (st == Newline ==> q < |s| && s[q] == '\n')
    && (st == Number ==> q < |s| && (IsDecimalDigit(s[q]) || s[q] == '.'))
    && (st == Identifier ==> q < |s| && IsAlphaNumeric(s[q]))
    && (st == RightBracket ==> q < |s| && s[q] in ")]}")
    && (st == Operator ==> start < q)
  }

  /** A step from state `cur` at `q` that keeps the machine going: it either
   * stops, having emitted EOF or an ERROR last, or is stuck having emitted
   * nothing, or hands over to a state that is ready to run and lower in the
   * run's measure. EOF is only ever the last token of a stopping step. */
  predicate Progress(s: string, cur: State, q: nat, r: Step)
    requires q <= |s|
  {
    r.start <= r.end <= |s|
    && (forall i :: 0 <= i < |r.emitted| && r.emitted[i].typ == EOF ==> r.next == Stopped && i == |r.emitted| - 1)
    && (r.next == Stopped ==> r.emitted != [] && r.emitted[|r.emitted| - 1].typ in {EOF, ERROR})
    && (r.next == Stuck ==> r.emitted == [])
    && (r.next != Stopped && r.next != Stuck ==>
          ReadyAt(s, r.next, r.end, r.start) && 2 * (|s| - r.end) + Rank(r.next) < 2 * (|s| - q) + Rank(cur))
  }

  /** `emit(typ)` as the last act of a state that stops at `e`. */
  function Emitting(next: State, name: string, s: string, start: nat, e: nat, stack: seq<char>, typ: Type, line: int, col: int): Step
    requires start <= e <= |s|
  {
    Step(next, e, e, stack, typ, [LexToken(typ, s[start..e], Position(name, start, line, col))])
  }

  /** `errorf(msg)` as the last act of a state that stops at `e`. */
  function Failing(next: State, name: string, e: nat, start: nat, stack: seq<char>, prev: Type, msg: string, line: int, col: int): Step
  {
    Step(next, e, start, stack, prev, [LexToken(ERROR, msg, Position(name, start, line, col))])
  }

  // In each of the state functions below, `q` is the cursor when the state
  // starts, `start` the start of the pending text, and `line` and `col` the
  // cursor's line and column when it ends, which stamp the tokens.

  /** `lexCode`. */
  function CodeSpec(name: string, s: string, q: nat, start: nat, stack: seq<char>, prev: Type, line: int, col: int): (st: Step)
    requires start <= q <= |s|
    ensures Progress(s, Code, q, st)
  {
    if q == |s| then Step(AtEof, q, start, stack, prev, [])
    else
      var c := s[q];
      if c in Spaces then Step(Space, q + 1, start, stack, prev, [])
      else if c == '\n' then Step(Newline, q, start, stack, prev, [])
      else if c == '\'' then Step(Quoted, q + 1, q + 1, stack, prev, [])
      else if c == '`' then Step(Raw, q + 1, q + 1, stack, prev, [])
      else SymbolSpec(name, s, q, start, stack, prev, line, col)
  }

  /** The cases of `lexCode` for numbers, operators, comments, words and
   * brackets. */
  function SymbolSpec(name: string, s: string, q: nat, start: nat, stack: seq<char>, prev: Type, line: int, col: int): (st: Step)
    requires start <= q < |s|
    ensures Progress(s, Code, q, st)
  {
    var c := s[q];
    if c == '.' && q + 1 < |s| && !IsDecimalDigit(s[q + 1]) then Emitting(Code, name, s, start, q + 1, stack, DOT, line, col)
    else if c == '.' || IsDecimalDigit(c) then Step(Number, q, start, stack, prev, [])
    else if c in "+-*%=!<>" then Step(Operator, q + 1, start, stack, prev, [])
    else if c == '/' then
      if q + 1 < |s| && s[q + 1] == '/' then Step(LineComment, q + 1, start, stack, prev, [])
      else if q + 1 < |s| && s[q + 1] == '*' then Step(BlockComment, q + 1, start, stack, prev, [])
      else Step(Operator, q + 1, start, stack, prev, [])
    else if IsAlphaNumeric(c) then Step(Identifier, q, start, stack, prev, [])
    else if c in ")}]" then Step(RightBracket, q, start, stack, prev, [])
    else PunctSpec(name, s, q, start, stack, prev, line, col)
  }

  /** The cases of `lexCode` that emit a token or an error on the spot. A
   * lone '|' or '&' reports an error and lexing carries on, the pending
   * text still starting where it did. */
  function PunctSpec(name: string, s: string, q: nat, start: nat, stack: seq<char>, prev: Type, line: int, col: int): (st: Step)
    requires start <= q < |s|
    ensures Progress(s, Code, q, st)
  {
    var c := s[q];
    if c == ':' then Emitting(Code, name, s, start, q + 1, stack, COLON, line, col)
    else if c == ',' then Emitting(Code, name, s, start, q + 1, stack, COMMA, line, col)
    else if c == ';' then Emitting(Code, name, s, start, q + 1, stack, SEMICOLON, line, col)
    else if c == '(' then Emitting(Code, name, s, start, q + 1, stack + [c], LROUND, line, col)
    else if c == '{' then Emitting(Code, name, s, start, q + 1, stack + [c], LCURLY, line, col)
    else if c == '[' then Emitting(Code, name, s, start, q + 1, stack + [c], LSQUARE, line, col)
    else if c == '|' || c == '&' then
      var e := if q + 1 < |s| then q + 2 else q + 1;
      if At(s, q + 1) == Ch(c) then Emitting(Code, name, s, start, e, stack, if c == '|' then LOGICALOR else LOGICALAND, line, col)
      else Failing(Code, name, e, start, stack, prev, ExpectedToken(c), line, col)
    else Failing(Stopped, name, q + 1, start, stack, prev, Unrecognised(c), line, col)
  }

  /** `lexEOF`. */
  function EofSpec(name: string, s: string, start: nat, stack: seq<char>, prev: Type, line: int, col: int): (st: Step)
    requires start <= |s|
    ensures Progress(s, AtEof, |s|, st)
  {
    if stack == [] then Emitting(Stopped, name, s, start, |s|, stack, EOF, line, col)
    else Failing(Stopped, name, |s|, start, stack[..|stack| - 1], prev, UnclosedLeft(stack[|stack| - 1]), line, col)
  }

  /** `lexSpace`, one space already consumed. */
  function SpaceSpec(s: string, q: nat, stack: seq<char>, prev: Type): (st: Step)
    requires q <= |s|
    ensures Progress(s, Space, q, st)
  {
    var e := RunEnd(s, q, Spaces);
    Step(Code, e, e, stack, prev, [])
  }

  /** `lexNewline`: the run of line breaks is a SEMICOLON after a type that
   * ends a statement, and is dropped otherwise. */
  function NewlineSpec(name: string, s: string, q: nat, start: nat, stack: seq<char>, prev: Type, line: int, col: int): (st: Step)
    requires start <= q < |s| && s[q] == '\n'
    ensures Progress(s, Newline, q, st)
  {
    var e := RunEnd(s, q, "\n");
    if AsiAfter(prev) then Emitting(Code, name, s, start, e, stack, SEMICOLON, line, col)
    else Step(Code, e, e, stack, prev, [])
  }

  /** How the body of a quoted string from `p` ends: at the closing quote,
   * at a backslash followed by a line break or by the end of input, or
   * never, when the input ends first. */
  datatype QuoteEnd = Closed(close: nat) | Broken(stop: nat) | Forever

  function QuoteScan(s: string, p: nat): (r: QuoteEnd)
    requires p <= |s|
    decreases |s| - p
    ensures r.Closed? ==> p <= r.close < |s| && s[r.close] == '\''
    ensures r.Broken? ==> p < r.stop <= |s|
  {
    if p >= |s| then Forever
    else if s[p] == '\\' then
      if p + 1 >= |s| then Broken(p + 1)
      else if s[p + 1] == '\n' then Broken(p + 2)
      else QuoteScan(s, p + 2)
    else if s[p] == '\'' then Closed(p)
    else QuoteScan(s, p + 1)
  }

  /** `lexQuotedString`, just past the opening quote. The STR token is
   * emitted before the closing quote is consumed, one column back. */
  function QuotedSpec(name: string, s: string, q: nat, start: nat, stack: seq<char>, prev: Type, line: int, col: int): (st: Step)
    requires start <= q <= |s|
    ensures Progress(s, Quoted, q, st)
  {
    match QuoteScan(s, q)
    case Closed(k) => Step(Code, k + 1, k + 1, stack, STR, [LexToken(STR, s[start..k], Position(name, start, line, col - 1))])
    case Broken(e) => Failing(Stopped, name, e, start, stack, prev, UnterminatedQuote, line, col)
    case Forever => Step(Stuck, |s|, start, stack, prev, [])
  }

  /** A quoted string closed by the quote at `k`. */
  lemma QuotedClosed(name: string, s: string, q: nat, start: nat, stack: seq<char>, prev: Type, line: int, col: int, k: nat)
    requires start <= q <= |s| && QuoteScan(s, q) == Closed(k)
    ensures QuotedSpec(name, s, q, start, stack, prev, line, col)
      == Step(Code, k + 1, k + 1, stack, STR, [LexToken(STR, s[start..k], Position(name, start, line, col - 1))])
  {
  }

  /** `lexRawString`, just past the opening '`'. The RAWSTR token is emitted
   * before the closing '`' is consumed, one column back. */
  function RawSpec(name: string, s: string, q: nat, start: nat, stack: seq<char>, prev: Type, line: int, col: int): (st: Step)
    requires start <= q <= |s|
    ensures Progress(s, Raw, q, st)
  {
    match ScanLexer.IndexFrom(s, q, '`')
    case Some(k) => Step(Code, k + 1, k + 1, stack, RAWSTR, [LexToken(RAWSTR, s[start..k], Position(name, start, line, col - 1))])
    case None => Failing(Stopped, name, |s|, start, stack, prev, UnterminatedRaw, line, col)
  }

  /** The type `lexOperator` emits for the rune `c`, alone or followed by
   * '=', and none for a rune it has no case for. */
  function OperatorType(c: char, assign: bool): (t: Option<Type>)
    ensures t.Some? <==> c in "+-/%*=!><"
    ensures t.Some? ==> PLUS <= t.value < OperatorEnd
  {
    if c == '+' then Some(if assign then PLUSASSIGN else PLUS)
    else if c == '-' then Some(if assign then MINUSASSIGN else MINUS)
    else if c == '/' then Some(if assign then DIVASSIGN else DIV)
    else if c == '%' then Some(if assign then MODASSIGN else MOD)
    else if c == '*' then Some(if assign then MULTASSIGN else MULT)
    else if c == '=' then Some(if assign then EQ else ASSIGN)
    else if c == '!' then Some(if assign then NEQ else LOGICALNOT)
    else if c == '>' then Some(if assign then GREQ else GR)
    else if c == '<' then Some(if assign then SMEQ else SM)
    else None
  }

  /** `lexOperator`, the first rune consumed; the operator is the rune at
   * the pending text's start. */
  function OperatorSpec(name: string, s: string, q: nat, start: nat, stack: seq<char>, prev: Type, line: int, col: int): (st: Step)
    requires start < q <= |s|
    ensures Progress(s, Operator, q, st)
  {
    var assign := At(s, q) == Ch('=');
    var e := if assign then q + 1 else q;
    match OperatorType(s[start], assign)
    case Some(t) => Emitting(Code, name, s, start, e, stack, t, line, col)
    case None => Step(Code, e, start, stack, prev, [])
  }

  /** `lexNumber`. */
  function NumberSpec(name: string, s: string, q: nat, start: nat, stack: seq<char>, prev: Type, line: int, col: int): (st: Step)
    requires start <= q < |s| && (IsDecimalDigit(s[q]) || s[q] == '.')
    ensures Progress(s, Number, q, st)
  {
    var (e, ok) := NumberSyntax(s, q);
    if ok then Emitting(Code, name, s, start, e, stack, NUM, line, col)
    else Failing(Stopped, name, e, start, stack, prev, BadNumber(s[start..e]), line, col)
  }

  /** The end of the run of alphanumeric runes from `p`. */
  function AlnumEnd(s: string, p: nat): (e: nat)
    requires p <= |s|
    decreases |s| - p
    ensures p <= e <= |s| && (e < |s| ==> !IsAlphaNumeric(s[e]))
    ensures forall k :: p <= k < e ==> IsAlphaNumeric(s[k])
  {
    if p < |s| && IsAlphaNumeric(s[p]) then AlnumEnd(s, p + 1) else p
  }

  /** `lexIdentifier`. */
  function IdentifierSpec(name: string, s: string, q: nat, start: nat, stack: seq<char>, prev: Type, line: int, col: int): (st: Step)
    requires start <= q < |s| && IsAlphaNumeric(s[q])
    ensures Progress(s, Identifier, q, st)
  {
    var e := AlnumEnd(s, q);
    if !IsTerminator(At(s, e)) then Failing(Stopped, name, e, start, stack, prev, BadCharacter(s[e]), line, col)
    else Emitting(Code, name, s, start, e, stack, IdentifierType(s[start..e]), line, col)
  }

  /** `lexRightBracket`. A '}' closing a '{' right after a type other than
   * SEMICOLON is preceded by a SEMICOLON holding the text pending before
   * the brace, one column back. */
  function RightBracketSpec(name: string, s: string, q: nat, start: nat, stack: seq<char>, prev: Type, line: int, col: int): (st: Step)
    requires start <= q < |s| && s[q] in ")]}"
    ensures Progress(s, RightBracket, q, st)
  {
    var c := s[q];
    if stack == [] || stack[|stack| - 1] != Opener(c) then
      Failing(Stopped, name, q + 1, start, if stack == [] then stack else stack[..|stack| - 1], prev, UnexpectedRight(c), line, col)
    else CloserSpec(name, s, q, start, stack[..|stack| - 1], prev, line, col)
  }

  /** The tokens for the right bracket at `q` once it has matched the
   * opener on top of the stack, which is popped to `popped`. */
  function CloserSpec(name: string, s: string, q: nat, start: nat, popped: seq<char>, prev: Type, line: int, col: int): (st: Step)
    requires start <= q < |s| && s[q] in ")]}"
    ensures Progress(s, RightBracket, q, st)
  {
    var c := s[q];
    if c == ')' then Emitting(Code, name, s, start, q + 1, popped, RROUND, line, col)
    else if c == ']' then Emitting(Code, name, s, start, q + 1, popped, RSQUARE, line, col)
    else if prev != SEMICOLON then
      Step(Code, q + 1, q + 1, popped, RCURLY,
        [LexToken(SEMICOLON, s[start..q], Position(name, start, line, col - 1)),
         LexToken(RCURLY, s[q..q + 1], Position(name, q, line, col))])
    else Emitting(Code, name, s, start, q + 1, popped, RCURLY, line, col)
  }

  /** `lexSinglelineComment`, the first '/' consumed: through the line
   * break, which is consumed too, or the end of input. */
  function LineCommentSpec(s: string, q: nat, stack: seq<char>, prev: Type): (st: Step)
    requires q <= |s|
    ensures Progress(s, LineComment, q, st)
  {
    var e := ScanLexer.LineCommentEnd(s, q);
    Step(Code, e, e, stack, prev, [])
  }

  /** `lexMultilineComment`, the '/' consumed and the cursor on the star:
   * through the first star-slash pair at or after the cursor, or an error
   * when there is none. */
  function BlockCommentSpec(name: string, s: string, q: nat, start: nat, stack: seq<char>, prev: Type, line: int, col: int): (st: Step)
    requires start <= q <= |s|
    ensures Progress(s, BlockComment, q, st)
  {
    match StarSlashFrom(s, q)
    case Some(k) => Step(Code, k + 2, k + 2, stack, prev, [])
    case None => Failing(Stopped, name, q, start, stack, prev, UnclosedComment, line, col)
  }

  /** Running the state `cur`: the state function it names, nothing for the
   * nil state, and for `Stuck` nothing either (the source spins there). */
  function StepSpec(name: string, s: string, cur: State, q: nat, start: nat, stack: seq<char>, prev: Type, line: int, col: int): (st: Step)
    requires ReadyAt(s, cur, q, start)
    ensures cur != Stopped && cur != Stuck ==> Progress(s, cur, q, st)
  {
    match cur
    case Code => CodeSpec(name, s, q, start, stack, prev, line, col)
    case AtEof => EofSpec(name, s, start, stack, prev, line, col)
    case Space => SpaceSpec(s, q, stack, prev)
    case Newline => NewlineSpec(name, s, q, start, stack, prev, line, col)
    case Quoted => QuotedSpec(name, s, q, start, stack, prev, line, col)
    case Raw => RawSpec(name, s, q, start, stack, prev, line, col)
    case Operator => OperatorSpec(name, s, q, start, stack, prev, line, col)
    case Number => NumberSpec(name, s, q, start, stack, prev, line, col)
    case Identifier => IdentifierSpec(name, s, q, start, stack, prev, line, col)
    case RightBracket => RightBracketSpec(name, s, q, start, stack, prev, line, col)
    case LineComment => LineCommentSpec(s, q, stack, prev)
    case BlockComment => BlockCommentSpec(name, s, q, start, stack, prev, line, col)
    case Stopped | Stuck => Step(cur, q, start, stack, prev, [])
  }

  // ---------------------------------------------------------------------
  // The whole run

  /** A token without its name, line and column. */
  datatype Item = Item(typ: Type, value: string, offset: nat)

  function Strip(ts: seq<LexToken>): (r: seq<Item>)
    ensures |r| == |ts|
    ensures forall i :: 0 <= i < |ts| ==> r[i] == Item(ts[i].typ, ts[i].value, ts[i].pos.offset)
  {
    seq(|ts|, i requires 0 <= i < |ts| => Item(ts[i].typ, ts[i].value, ts[i].pos.offset))
  }

  /** What `run` sends from state `cur` on: the tokens, unstamped, and
   * whether it ends (the nil state) rather than spinning. */
  datatype Outcome = Outcome(items: seq<Item>, halts: bool)

  function Trace(s: string, cur: State, q: nat, start: nat, stack: seq<char>, prev: Type): (o: Outcome)
    requires ReadyAt(s, cur, q, start)
    decreases 2 * (|s| - q) + Rank(cur), 1
  {
    if cur == Stopped then Outcome([], true)
    else if cur == Stuck then Outcome([], false)
    else Continue(s, cur, q, StepSpec("", s, cur, q, start, stack, prev, 0, 0))
  }

  /** The rest of the run after the step `r` from the running state `cur`
   * at `q`: what it emits, then the trace from the state it names. */
  function Continue(s: string, cur: State, q: nat, r: Step): (o: Outcome)
    requires q <= |s| && cur != Stopped && cur != Stuck && Progress(s, cur, q, r)
    decreases 2 * (|s| - q) + Rank(cur), 0
  {
    if r.next == Stopped then Outcome(Strip(r.emitted), true)
    else if r.next == Stuck then Outcome(Strip(r.emitted), false)
    else
      var rest := Trace(s, r.next, r.end, r.start, r.stack, r.prev);
      Outcome(Strip(r.emitted) + rest.items, rest.halts)
  }

  /** The stamps (name, line and column) do not steer the state functions. */
  predicate SameBut(a: Step, b: Step)
  {
    a.next == b.next && a.end == b.end && a.start == b.start && a.stack == b.stack && a.prev == b.prev
    && Strip(a.emitted) == Strip(b.emitted)
  }

  lemma StampFree(name: string, s: string, cur: State, q: nat, start: nat, stack: seq<char>, prev: Type, line: int, col: int)
    requires ReadyAt(s, cur, q, start)
    ensures SameBut(StepSpec(name, s, cur, q, start, stack, prev, line, col), StepSpec("", s, cur, q, start, stack, prev, 0, 0))
  {
    match cur
    case Code =>
      if q < |s| {
        SymbolStampFree(name, s, q, start, stack, prev, line, col);
      }
    case RightBracket => RightBracketStampFree(name, s, q, start, stack, prev, line, col);
    case Quoted => QuotedStampFree(name, s, q, start, stack, prev, line, col);
    case Number => NumberStampFree(name, s, q, start, stack, prev, line, col);
    case Identifier => IdentifierStampFree(name, s, q, start, stack, prev, line, col);
    case AtEof | Newline | Raw | Operator | BlockComment =>
      SteadyStampFree(name, s, cur, q, start, stack, prev, line, col);
    case Space | LineComment | Stopped | Stuck =>
  }

  /** The states whose steps name no position but for the tokens' stamps. */
  lemma SteadyStampFree(name: string, s: string, cur: State, q: nat, start: nat, stack: seq<char>, prev: Type, line: int, col: int)
    requires ReadyAt(s, cur, q, start) && cur in {AtEof, Newline, Raw, Operator, BlockComment}
    ensures SameBut(StepSpec(name, s, cur, q, start, stack, prev, line, col), StepSpec("", s, cur, q, start, stack, prev, 0, 0))
  {
  }

  lemma QuotedStampFree(name: string, s: string, q: nat, start: nat, stack: seq<char>, prev: Type, line: int, col: int)
    requires start <= q <= |s|
    ensures SameBut(QuotedSpec(name, s, q, start, stack, prev, line, col), QuotedSpec("", s, q, start, stack, prev, 0, 0))
  {
  }

  lemma NumberStampFree(name: string, s: string, q: nat, start: nat, stack: seq<char>, prev: Type, line: int, col: int)
    requires start <= q < |s| && (IsDecimalDigit(s[q]) || s[q] == '.')
    ensures SameBut(NumberSpec(name, s, q, start, stack, prev, line, col), NumberSpec("", s, q, start, stack, prev, 0, 0))
  {
  }

  lemma IdentifierStampFree(name: string, s: string, q: nat, start: nat, stack: seq<char>, prev: Type, line: int, col: int)
    requires start <= q < |s| && IsAlphaNumeric(s[q])
    ensures SameBut(IdentifierSpec(name, s, q, start, stack, prev, line, col), IdentifierSpec("", s, q, start, stack, prev, 0, 0))
  {
  }

  lemma SymbolStampFree(name: string, s: string, q: nat, start: nat, stack: seq<char>, prev: Type, line: int, col: int)
    requires start <= q < |s|
    ensures SameBut(SymbolSpec(name, s, q, start, stack, prev, line, col), SymbolSpec("", s, q, start, stack, prev, 0, 0))
  {
    PunctStampFree(name, s, q, start, stack, prev, line, col);
  }

  lemma PunctStampFree(name: string, s: string, q: nat, start: nat, stack: seq<char>, prev: Type, line: int, col: int)
    requires start <= q < |s|
    ensures SameBut(PunctSpec(name, s, q, start, stack, prev, line, col), PunctSpec("", s, q, start, stack, prev, 0, 0))
  {
    var c := s[q];
    if c == ':' {
      EmittingStampFree(Code, name, s, start, q + 1, stack, COLON, line, col);
    } else if c == ',' {
      EmittingStampFree(Code, name, s, start, q + 1, stack, COMMA, line, col);
    } else if c == ';' {
      EmittingStampFree(Code, name, s, start, q + 1, stack, SEMICOLON, line, col);
    } else if c == '(' {
      EmittingStampFree(Code, name, s, start, q + 1, stack + [c], LROUND, line, col);
    } else if c == '{' {
      EmittingStampFree(Code, name, s, start, q + 1, stack + [c], LCURLY, line, col);
    } else if c == '[' {
      EmittingStampFree(Code, name, s, start, q + 1, stack + [c], LSQUARE, line, col);
    } else if c == '|' || c == '&' {
      var e := if q + 1 < |s| then q + 2 else q + 1;
      if At(s, q + 1) == Ch(c) {
        EmittingStampFree(Code, name, s, start, e, stack, if c == '|' then LOGICALOR else LOGICALAND, line, col);
      } else {
        FailingStampFree(Code, name, e, start, stack, prev, ExpectedToken(c), line, col);
      }
    } else {
      FailingStampFree(Stopped, name, q + 1, start, stack, prev, Unrecognised(c), line, col);
    }
  }

  lemma EmittingStampFree(next: State, name: string, s: string, start: nat, e: nat, stack: seq<char>, typ: Type, line: int, col: int)
    requires start <= e <= |s|
    ensures SameBut(Emitting(next, name, s, start, e, stack, typ, line, col), Emitting(next, "", s, start, e, stack, typ, 0, 0))
  {
  }

  lemma FailingStampFree(next: State, name: string, e: nat, start: nat, stack: seq<char>, prev: Type, msg: string, line: int, col: int)
    ensures SameBut(Failing(next, name, e, start, stack, prev, msg, line, col), Failing(next, "", e, start, stack, prev, msg, 0, 0))
  {
  }

  lemma RightBracketStampFree(name: string, s: string, q: nat, start: nat, stack: seq<char>, prev: Type, line: int, col: int)
    requires start <= q < |s| && s[q] in ")]}"
    ensures SameBut(RightBracketSpec(name, s, q, start, stack, prev, line, col), RightBracketSpec("", s, q, start, stack, prev, 0, 0))
  {
  }

  /** One turn of the run: the trace from a running state is what its step
   * emits followed by the trace from the state it names. */
  lemma TraceStep(name: string, s: string, cur: State, q: nat, start: nat, stack: seq<char>, prev: Type, line: int, col: int)
    requires ReadyAt(s, cur, q, start) && cur != Stopped && cur != Stuck
    ensures var a := StepSpec(name, s, cur, q, start, stack, prev, line, col);
      ReadyAt(s, a.next, a.end, a.start)
      && Trace(s, cur, q, start, stack, prev).items == Strip(a.emitted) + Trace(s, a.next, a.end, a.start, a.stack, a.prev).items
      && Trace(s, cur, q, start, stack, prev).halts == Trace(s, a.next, a.end, a.start, a.stack, a.prev).halts
  {
    StampFree(name, s, cur, q, start, stack, prev, line, col);
  }

  /** `TraceStep` for a run whose tokens so far are `o`, sent `out` after
   * the step `a`. */
  lemma TraceTurn(name: string, s: string, cur: State, q: nat, start: nat, stack: seq<char>, prev: Type, line: int, col: int,
                  o: seq<LexToken>, a: Step, out: seq<LexToken>)
    requires ReadyAt(s, cur, q, start) && cur != Stopped && cur != Stuck
    requires a == StepSpec(name, s, cur, q, start, stack, prev, line, col) && out == o + a.emitted
    ensures Strip(out) + Trace(s, a.next, a.end, a.start, a.stack, a.prev).items == Strip(o) + Trace(s, cur, q, start, stack, prev).items
  {
    TraceStep(name, s, cur, q, start, stack, prev, line, col);
    assert Strip(o + a.emitted) == Strip(o) + Strip(a.emitted);
    Regroup(Strip(o), Strip(a.emitted), Trace(s, a.next, a.end, a.start, a.stack, a.prev).items, Trace(s, cur, q, start, stack, prev).items);
  }

  class Lexer {
    const name: string
    const input: string
    var out: seq<LexToken>
    var pos: nat
    var line: int
    var col: int
    var prevCol: int
    var start: nat
    var width: nat
    var prevTokTyp: Type
    var stack: seq<char>

    ghost predicate Valid()
      reads this
    {
      start <= pos <= |input| && width <= 1
    }

    /** What the state `st` needs of the cursor to run. */
    ghost predicate Ready(st: State)
      reads this
    {
      Valid() && ReadyAt(input, st, pos, start)
    }

    /** The run loop's measure. */
    ghost function Measure(st: State): nat
      reads this
      requires Valid()
    {
      2 * (|input| - pos) + Rank(st)
    }

    /** `Tokenise`, without the goroutine. */
    constructor (name: string, input: string)
      ensures Valid() && this.name == name && this.input == input
      ensures out == [] && pos == 0 && start == 0 && width == 0 && stack == []
      ensures line == 1 && col == 1 && prevCol == 1 && prevTokTyp == ERROR
    {
      this.name, this.input := name, input;
      out, pos, start, width, stack := [], 0, 0, 0, [];
      line, col, prevCol, prevTokTyp := 1, 1, 1, ERROR;
    }

    /** Only the cursor (position, width, line and columns) changed. */
    twostate predicate CursorOnly()
      reads this
    {
      out == old(out) && start == old(start) && prevTokTyp == old(prevTokTyp) && stack == old(stack)
    }

    /** The state ran as `r` says: it named `next`, and the cursor, the
     * pending text's start, the stack, the previous type and the tokens sent
     * are `r`'s. */
    twostate predicate Took(next: State, r: Step)
      reads this
    {
      next == r.next && pos == r.end && start == r.start && stack == r.stack && prevTokTyp == r.prev
      && out == old(out) + r.emitted
    }

    /** `next`. */
    method Next() returns (r: Rune)
      requires Valid()
      modifies this
      ensures Valid() && CursorOnly()
      ensures r == At(input, old(pos))
      ensures r.Eof? ==> pos == old(pos) && width == 0 && line == old(line) && col == old(col) && prevCol == old(prevCol)
      ensures r.Ch? ==> pos == old(pos) + 1 && width == 1
      ensures r == Ch('\n') ==> line == old(line) + 1 && col == 1 && prevCol == old(prevCol)
      ensures r.Ch? && r.c != '\n' ==> line == old(line) && col == old(col) + 1 && prevCol == old(col)
    {
      if pos >= |input| {
        width := 0;
        return Eof;
      }
      r := Ch(input[pos]);
      width := 1;
      pos := pos + 1;
      if r.c == '\n' {
        line := line + 1;
        col := 1;
      } else {
        prevCol := col;
        col := col + 1;
      }
    }

    /** `backup`. */
    method Backup()
      requires Valid() && start + width <= pos
      modifies this
      ensures Valid() && CursorOnly()
      ensures pos == old(pos) - old(width) && width == old(width) && col == old(prevCol) && prevCol == old(prevCol)
      ensures old(width) == 1 && input[pos] == '\n' ==> line == old(line) - 1
      ensures !(old(width) == 1 && input[pos] == '\n') ==> line == old(line)
    {
      pos := pos - width;
      col := prevCol;
      if width == 1 && input[pos] == '\n' {
        line := line - 1;
      }
    }

    /** `peek`: `next` then `backup`. The cursor stays, but after a line break
     * or at the end of input the column becomes the previous column. */
    method Peek() returns (r: Rune)
      requires Valid()
      modifies this
      ensures Valid() && CursorOnly()
      ensures r == At(input, old(pos)) && pos == old(pos) && line == old(line)
      ensures r.Ch? && r.c != '\n' ==> col == old(col) && prevCol == old(col) && width == 1
      ensures !(r.Ch? && r.c != '\n') ==> col == old(prevCol) && prevCol == old(prevCol)
    {
      r := Next();
      Backup();
    }

    /** `emit`: the pending text as a token of type `typ`. */
    method Emit(typ: Type)
      requires Valid()
      modifies this
      ensures Valid()
      ensures pos == old(pos) && width == old(width) && line == old(line) && col == old(col) && prevCol == old(prevCol)
      ensures out == old(out) + [LexToken(typ, input[old(start)..pos], Position(name, old(start), line, col))]
      ensures start == pos && prevTokTyp == typ && stack == old(stack)
    {
      out := out + [LexToken(typ, input[start..pos], Position(name, start, line, col))];
      start := pos;
      prevTokTyp := typ;
    }

    /** `ignore`. */
    method Ignore()
      requires Valid()
      modifies this
      ensures Valid() && start == pos
      ensures out == old(out) && prevTokTyp == old(prevTokTyp) && stack == old(stack)
      ensures pos == old(pos) && width == old(width) && line == old(line) && col == old(col) && prevCol == old(prevCol)
    {
      start := pos;
    }

    /** `errorf`: an ERROR token carrying `msg`, at the pending text's start. */
    method Errorf(msg: string)
      requires Valid()
      modifies this
      ensures Valid()
      ensures out == old(out) + [LexToken(ERROR, msg, Position(name, start, line, col))]
      ensures start == old(start) && prevTokTyp == old(prevTokTyp) && stack == old(stack)
      ensures pos == old(pos) && width == old(width) && line == old(line) && col == old(col) && prevCol == old(prevCol)
    {
      out := out + [LexToken(ERROR, msg, Position(name, start, line, col))];
    }

    /** `accept`. */
    method Accept(valid: string) returns (ok: bool)
      requires Valid()
      modifies this
      ensures Valid() && CursorOnly()
      ensures ok <==> RuneIn(At(input, old(pos)), valid)
      ensures pos == if ok then old(pos) + 1 else old(pos)
    {
      var r := Next();
      ok := RuneIn(r, valid);
      if !ok {
        Backup();
      }
    }

    /** `acceptRun`. */
    method AcceptRun(valid: string)
      requires Valid()
      modifies this
      ensures Valid() && CursorOnly()
      ensures pos == RunEnd(input, old(pos), valid)
    {
      var r := Next();
      while RuneIn(r, valid)
        invariant Valid() && CursorOnly()
        invariant old(pos) <= pos - width && RunEnd(input, old(pos), valid) == RunEnd(input, pos - width, valid)
        invariant r == At(input, pos - width) && (r.Eof? <==> width == 0)
        decreases |input| - pos + width
      {
        r := Next();
      }
      Backup();
    }

    /** `scanNumber`. */
    method ScanNumber() returns (ok: bool)
      requires Valid()
      modifies this
      ensures Valid() && CursorOnly()
      ensures (pos, ok) == NumberSyntax(input, old(pos))
    {
      ScanMantissa();
      ScanExponent();
      var r := Peek();
      if IsAlnumRune(r) {
        var _ := Next();
        return false;
      }
      return true;
    }

    /** The digits and fraction of `scanNumber`. */
    method ScanMantissa()
      requires Valid()
      modifies this
      ensures Valid() && CursorOnly() && pos == MantissaEnd(input, old(pos))
    {
      AcceptRun(Digits);
      var dot := Accept(".");
      if dot {
        AcceptRun(Digits);
      }
    }

    /** The exponent of `scanNumber`. */
    method ScanExponent()
      requires Valid()
      modifies this
      ensures Valid() && CursorOnly() && pos == ExponentEnd(input, old(pos))
    {
      var exp := Accept("eE");
      if exp {
        var _ := Accept("+-");
        var _ := Accept(Digits);
      }
    }

    /** `atIdentifierTerminator`. */
    method AtIdentifierTerminator() returns (b: bool)
      requires Valid()
      modifies this
      ensures Valid() && CursorOnly() && pos == old(pos) && line == old(line)
      ensures b <==> IsTerminator(At(input, pos))
    {
      var r := Peek();
      b := IsTerminator(r);
    }

    // -------------------------------------------------------------------
    // The state functions

    /** `lexCode`. */
    method LexCode() returns (next: State)
      requires Valid()
      modifies this
      ensures Valid() && Took(next, CodeSpec(name, input, old(pos), old(start), old(stack), old(prevTokTyp), line, col))
    {
      var r := Next();
      if r.Eof? {
        return AtEof;
      }
      var c := r.c;
      if c in Spaces {
        return Space;
      } else if c == '\n' {
        Backup();
        return Newline;
      } else if c == '\'' {
        Ignore();
        return Quoted;
      } else if c == '`' {
        Ignore();
        return Raw;
      }
      next := LexSymbol(c);
    }

    /** The cases of `lexCode` for numbers, operators, comments, words and
     * brackets, `c` just consumed. */
    method LexSymbol(c: char) returns (next: State)
      requires Valid() && start < pos && input[pos - 1] == c && width == 1
      modifies this
      ensures Valid() && Took(next, SymbolSpec(name, input, old(pos) - 1, old(start), old(stack), old(prevTokTyp), line, col))
    {
      if c == '.' && pos < |input| && !IsDecimalDigit(input[pos]) {
        Emit(DOT);
        return Code;
      } else if c == '.' || IsDecimalDigit(c) {
        Backup();
        return Number;
      } else if c in "+-*%=!<>" {
        return Operator;
      } else if c == '/' {
        if pos < |input| && input[pos] == '/' {
          return LineComment;
        } else if pos < |input| && input[pos] == '*' {
          return BlockComment;
        }
        return Operator;
      } else if IsAlphaNumeric(c) {
        Backup();
        return Identifier;
      } else if c in ")}]" {
        Backup();
        return RightBracket;
      }
      next := LexPunct(c);
    }

    /** The cases of `lexCode` that emit on the spot, `c` just consumed. */
    method LexPunct(c: char) returns (next: State)
      requires Valid() && start < pos && input[pos - 1] == c
      modifies this
      ensures Valid() && Took(next, PunctSpec(name, input, old(pos) - 1, old(start), old(stack), old(prevTokTyp), line, col))
    {
      if c == ':' {
        Emit(COLON);
      } else if c == ',' {
        Emit(COMMA);
      } else if c == ';' {
        Emit(SEMICOLON);
      } else if c == '(' || c == '{' || c == '[' {
        Emit(if c == '(' then LROUND else if c == '{' then LCURLY else LSQUARE);
        stack := stack + [c];
      } else if c == '|' || c == '&' {
        LexDoubled(c);
      } else {
        Errorf(Unrecognised(c));
        return Stopped;
      }
      return Code;
    }

    /** The '|' and '&' cases of `lexCode`: the rune must come twice. */
    method LexDoubled(c: char)
      requires Valid() && start < pos && input[pos - 1] == c && (c == '|' || c == '&')
      modifies this
      ensures Valid() && Took(Code, PunctSpec(name, input, old(pos) - 1, old(start), old(stack), old(prevTokTyp), line, col))
    {
      var r := Next();
      if r == Ch(c) {
        Emit(if c == '|' then LOGICALOR else LOGICALAND);
      } else {
        Errorf(ExpectedToken(c));
      }
    }

    /** `lexEOF`. */
    method LexEof() returns (next: State)
      requires Valid() && pos == |input|
      modifies this
      ensures Valid() && Took(next, EofSpec(name, input, old(start), old(stack), old(prevTokTyp), line, col))
    {
      if stack != [] {
        var r := stack[|stack| - 1];
        stack := stack[..|stack| - 1];
        Errorf(UnclosedLeft(r));
        return Stopped;
      }
      Emit(EOF);
      return Stopped;
    }

    /** `lexSpace`. */
    method LexSpace() returns (next: State)
      requires Valid()
      modifies this
      ensures Valid() && Took(next, SpaceSpec(input, old(pos), old(stack), old(prevTokTyp)))
    {
      var r := Peek();
      while RuneIn(r, Spaces)
        invariant Valid() && CursorOnly() && old(pos) <= pos
        invariant RunEnd(input, old(pos), Spaces) == RunEnd(input, pos, Spaces) && r == At(input, pos)
        decreases |input| - pos
      {
        var _ := Next();
        r := Peek();
      }
      Ignore();
      return Code;
    }

    /** `lexNewline`; its loop is `acceptRun` of the line break. */
    method LexNewline() returns (next: State)
      requires Valid() && pos < |input| && input[pos] == '\n'
      modifies this
      ensures Valid() && Took(next, NewlineSpec(name, input, old(pos), old(start), old(stack), old(prevTokTyp), line, col))
    {
      AcceptRun("\n");
      if AsiAfter(prevTokTyp) {
        Emit(SEMICOLON);
      } else {
        Ignore();
      }
      return Code;
    }

    /** `lexQuotedString`. Where the source would spin forever, at the end
     * of input with no backslash before it, the state is `Stuck`. */
    method LexQuotedString() returns (next: State)
      requires Valid()
      modifies this
      ensures Valid() && Took(next, QuotedSpec(name, input, old(pos), old(start), old(stack), old(prevTokTyp), line, col))
    {
      var e := SeekQuote();
      if e.Closed? {
        CloseQuote();
        QuotedClosed(name, input, old(pos), old(start), old(stack), old(prevTokTyp), line, col, e.close);
        return Code;
      } else if e.Broken? {
        Errorf(UnterminatedQuote);
        return Stopped;
      }
      return Stuck;
    }

    /** The end of `lexQuotedString` at its closing quote: the text before
     * it is sent as STR, and the quote is dropped. */
    method CloseQuote()
      requires Valid() && pos < |input| && input[pos] == '\''
      modifies this
      ensures Valid() && pos == old(pos) + 1 && start == pos && stack == old(stack) && prevTokTyp == STR
      ensures line == old(line) && col == old(col) + 1
      ensures out == old(out) + [LexToken(STR, input[old(start)..old(pos)], Position(name, old(start), line, col - 1))]
    {
      Emit(STR);
      var _ := Next();
      Ignore();
    }

    /** The loop of `lexQuotedString`: up to the closing quote, or past
     * the escape that ends it in an error, or to the end of input. */
    method SeekQuote() returns (e: QuoteEnd)
      requires Valid()
      modifies this
      ensures Valid() && CursorOnly()
      ensures e == QuoteScan(input, old(pos))
      ensures e.Closed? ==> pos == e.close
      ensures e.Broken? ==> pos == e.stop
      ensures e.Forever? ==> pos == |input|
    {
      while true
        invariant Valid() && CursorOnly() && old(pos) <= pos
        invariant QuoteScan(input, old(pos)) == QuoteScan(input, pos)
        decreases |input| - pos
      {
        var r := Next();
        if r == Ch('\\') {
          var r2 := Next();
          if r2 == Ch('\n') || r2.Eof? {
            return Broken(pos);
          }
        } else if r == Ch('\'') {
          Backup();
          return Closed(pos);
        } else if r.Eof? {
          return Forever;
        }
      }
    }

    /** `lexRawString`. An unterminated one is reported at the line and
     * column of its opening quote. */
    method LexRawString() returns (next: State)
      requires Valid()
      modifies this
      ensures Valid() && Took(next, RawSpec(name, input, old(pos), old(start), old(stack), old(prevTokTyp), line, col))
      ensures next == Stopped ==> line == old(line) && col == old(col)
    {
      var startLine, startCol := line, col;
      var closed := SeekBacktick();
      if !closed {
        line, col := startLine, startCol;
        Errorf(UnterminatedRaw);
        return Stopped;
      }
      Emit(RAWSTR);
      var _ := Next();
      Ignore();
      return Code;
    }

    /** The loop of `lexRawString`: on to the closing '`', backed up before
     * it, or to the end of input. */
    method SeekBacktick() returns (closed: bool)
      requires Valid()
      modifies this
      ensures Valid() && CursorOnly()
      ensures closed <==> ScanLexer.IndexFrom(input, old(pos), '`').Some?
      ensures closed ==> pos == ScanLexer.IndexFrom(input, old(pos), '`').value && input[pos] == '`'
      ensures !closed ==> pos == |input|
    {
      while true
        invariant Valid() && CursorOnly() && old(pos) <= pos
        invariant ScanLexer.IndexFrom(input, old(pos), '`') == ScanLexer.IndexFrom(input, pos, '`')
        decreases |input| - pos
      {
        var r := Next();
        if r.Eof? {
          return false;
        } else if r == Ch('`') {
          Backup();
          return true;
        }
      }
    }

    /** `lexOperator`. */
    method LexOperator() returns (next: State)
      requires Valid() && start < pos
      modifies this
      ensures Valid() && Took(next, OperatorSpec(name, input, old(pos), old(start), old(stack), old(prevTokTyp), line, col))
    {
      var r := input[start];
      var n := Next();
      if n != Ch('=') {
        Backup();
      }
      match OperatorType(r, n == Ch('=')) {
        case Some(t) => Emit(t);
        case None =>
      }
      return Code;
    }

    /** `lexNumber`. */
    method LexNumber() returns (next: State)
      requires Valid() && pos < |input| && (IsDecimalDigit(input[pos]) || input[pos] == '.')
      modifies this
      ensures Valid() && Took(next, NumberSpec(name, input, old(pos), old(start), old(stack), old(prevTokTyp), line, col))
    {
      var ok := ScanNumber();
      if !ok {
        Errorf(BadNumber(input[start..pos]));
        return Stopped;
      }
      Emit(NUM);
      return Code;
    }

    /** `lexIdentifier`. */
    method LexIdentifier() returns (next: State)
      requires Valid() && pos < |input| && IsAlphaNumeric(input[pos])
      modifies this
      ensures Valid() && Took(next, IdentifierSpec(name, input, old(pos), old(start), old(stack), old(prevTokTyp), line, col))
    {
      var r := Next();
      while IsAlnumRune(r)
        invariant Valid() && CursorOnly() && old(pos) <= pos - width
        invariant AlnumEnd(input, old(pos)) == AlnumEnd(input, pos - width)
        invariant r == At(input, pos - width) && (r.Eof? <==> width == 0)
        decreases |input| - pos + width
      {
        r := Next();
      }
      Backup();
      var ok := AtIdentifierTerminator();
      if !ok {
        Errorf(BadCharacter(r.c));
        return Stopped;
      }
      Emit(IdentifierType(input[start..pos]));
      return Code;
    }

    /** `lexRightBracket`. */
    method LexRightBracket() returns (next: State)
      requires Valid() && pos < |input| && input[pos] in ")]}"
      modifies this
      ensures Valid() && Took(next, RightBracketSpec(name, input, old(pos), old(start), old(stack), old(prevTokTyp), line, col))
    {
      var r := Next();
      var c := r.c;
      if stack == [] {
        Errorf(UnexpectedRight(c));
        return Stopped;
      }
      var top := stack[|stack| - 1];
      stack := stack[..|stack| - 1];
      if top != Opener(c) {
        Errorf(UnexpectedRight(c));
        return Stopped;
      }
      next := EmitCloser(c);
    }

    /** The emitting half of `lexRightBracket`: `c` has been consumed and
     * has matched. */
    method EmitCloser(c: char) returns (next: State)
      requires Valid() && start < pos && input[pos - 1] == c && c in ")]}" && width == 1 && prevCol == col - 1
      modifies this
      ensures Valid() && Took(next, CloserSpec(name, input, old(pos) - 1, old(start), old(stack), old(prevTokTyp), line, col))
    {
      if c == ')' {
        Emit(RROUND);
      } else if c == '}' {
        if prevTokTyp != SEMICOLON {
          InsertBeforeCurly();
        } else {
          Emit(RCURLY);
        }
      } else {
        Emit(RSQUARE);
      }
      return Code;
    }

    /** A '}' just consumed after a token other than SEMICOLON: the text
     * before it is sent as an inserted SEMICOLON one column back, then the
     * '}' as RCURLY. */
    method InsertBeforeCurly()
      requires Valid() && start < pos && input[pos - 1] == '}' && width == 1 && prevCol == col - 1
      modifies this
      ensures Valid() && pos == old(pos) && start == pos && stack == old(stack) && prevTokTyp == RCURLY
      ensures line == old(line) && col == old(col)
      ensures out == old(out) + [LexToken(SEMICOLON, input[old(start)..old(pos) - 1], Position(name, old(start), line, col - 1)),
                                 LexToken(RCURLY, input[old(pos) - 1..old(pos)], Position(name, old(pos) - 1, line, col))]
    {
      Backup();
      Emit(SEMICOLON);
      var _ := Next();
      Emit(RCURLY);
    }

    /** `lexSinglelineComment`. */
    method LexLineComment() returns (next: State)
      requires Valid()
      modifies this
      ensures Valid() && Took(next, LineCommentSpec(input, old(pos), old(stack), old(prevTokTyp)))
    {
      while true
        invariant Valid() && CursorOnly() && old(pos) <= pos
        invariant ScanLexer.LineCommentEnd(input, old(pos)) == ScanLexer.LineCommentEnd(input, pos)
        decreases |input| - pos
      {
        var r := Next();
        if r == Ch('\n') || r.Eof? {
          break;
        }
      }
      Ignore();
      return Code;
    }

    /** `lexMultilineComment`. The search for the closing pair stands for
     * `strings.Index`. */
    method LexBlockComment() returns (next: State)
      requires Valid()
      modifies this
      ensures Valid() && Took(next, BlockCommentSpec(name, input, old(pos), old(start), old(stack), old(prevTokTyp), line, col))
    {
      if StarSlashFrom(input, pos).None? {
        Errorf(UnclosedComment);
        return Stopped;
      }
      ghost var k := StarSlashFrom(input, pos).value;
      var right := Next();
      var left: Rune;
      while true
        invariant Valid() && CursorOnly() && old(pos) < pos <= k + 1
        invariant right == At(input, pos - 1) && StarSlashFrom(input, pos - 1) == Some(k)
        decreases k + 1 - pos
      {
        left := right;
        right := Next();
        if left == Ch('*') && right == Ch('/') {
          break;
        }
      }
      Ignore();
      return Code;
    }

    /** One turn of `run`'s loop: the state function `st` names. */
    method RunState(st: State) returns (next: State)
      requires Ready(st) && st != Stopped && st != Stuck
      modifies this
      ensures Valid() && Took(next, StepSpec(name, input, st, old(pos), old(start), old(stack), old(prevTokTyp), line, col))
    {
      match st
      case Code => next := LexCode();
      case AtEof => next := LexEof();
      case Space => next := LexSpace();
      case Newline => next := LexNewline();
      case Quoted => next := LexQuotedString();
      case Raw => next := LexRawString();
      case Operator => next := LexOperator();
      case Number => next := LexNumber();
      case Identifier => next := LexIdentifier();
      case RightBracket => next := LexRightBracket();
      case LineComment => next := LexLineComment();
      case BlockComment => next := LexBlockComment();
    }

    /** `RunState`, seen from the trace: what it sends and the trace from
     * the state it names make up the trace from `st`. */
    method Turn(st: State) returns (next: State)
      requires Ready(st) && st != Stopped && st != Stuck
      modifies this
      ensures Valid() && (next == Stopped || next == Stuck || (Ready(next) && Measure(next) < old(Measure(st))))
      ensures ReadyAt(input, next, pos, start)
      ensures Strip(out) + Trace(input, next, pos, start, stack, prevTokTyp).items
           == Strip(old(out)) + Trace(input, st, old(pos), old(start), old(stack), old(prevTokTyp)).items
      ensures Trace(input, next, pos, start, stack, prevTokTyp).halts
           == Trace(input, st, old(pos), old(start), old(stack), old(prevTokTyp)).halts
    {
      ghost var (o, q, s0, k0, p0) := (out, pos, start, stack, prevTokTyp);
      next := RunState(st);
      TraceStep(name, input, st, q, s0, k0, p0, line, col);
      TraceTurn(name, input, st, q, s0, k0, p0, line, col, o, StepSpec(name, input, st, q, s0, k0, p0, line, col), out);
    }

    /** `run`: the state functions from `lexCode` until one names none, the
     * tokens it sends being those of `Trace`; or until the one that spins. */
    method Run() returns (last: State)
      requires Valid()
      modifies this
      ensures Valid() && (last == Stopped || last == Stuck)
      ensures Strip(out) == Strip(old(out)) + Trace(input, Code, old(pos), old(start), old(stack), old(prevTokTyp)).items
      ensures last == Stopped <==> Trace(input, Code, old(pos), old(start), old(stack), old(prevTokTyp)).halts
    {
      var st := Code;
      while st != Stopped && st != Stuck
        invariant Ready(st)
        invariant Strip(out) + Trace(input, st, pos, start, stack, prevTokTyp).items
               == Strip(old(out)) + Trace(input, Code, old(pos), old(start), old(stack), old(prevTokTyp)).items
        invariant Trace(input, st, pos, start, stack, prevTokTyp).halts
               == Trace(input, Code, old(pos), old(start), old(stack), old(prevTokTyp)).halts
        decreases if st == Stopped || st == Stuck then 0 else Measure(st) + 1
      {
        st := Turn(st);
      }
      return st;
    }
  }

  // ---------------------------------------------------------------------
  // Properties

  /** A run of line breaks ends a statement, as a SEMICOLON holding the run,
   * exactly after the types `AsiAfter` lists; otherwise it is dropped. */
  lemma NewlineAsi(name: string, s: string, q: nat, stack: seq<char>, prev: Type, line: int, col: int)
    requires q < |s| && s[q] == '\n'
    ensures var r := NewlineSpec(name, s, q, q, stack, prev, line, col);
      r.next == Code && q < r.end && (r.end == |s| || s[r.end] != '\n')
      && (forall k :: q <= k < r.end ==> s[k] == '\n')
      && (AsiAfter(prev) <==> r.emitted != [])
      && (AsiAfter(prev) ==> r.emitted == [LexToken(SEMICOLON, s[q..r.end], Position(name, q, line, col))] && r.prev == SEMICOLON)
      && (!AsiAfter(prev) ==> r.prev == prev)
  {
  }

  /** A '}' that closes a '{' after a type other than SEMICOLON is preceded
   * by an empty SEMICOLON; after a SEMICOLON it comes alone. */
  lemma CurlySemicolon(name: string, s: string, q: nat, stack: seq<char>, prev: Type, line: int, col: int)
    requires q < |s| && s[q] == '}' && stack != [] && stack[|stack| - 1] == '{'
    ensures var r := RightBracketSpec(name, s, q, q, stack, prev, line, col);
      r.next == Code && r.end == q + 1 && r.stack == stack[..|stack| - 1] && r.prev == RCURLY
      && (prev != SEMICOLON ==> r.emitted == [LexToken(SEMICOLON, "", Position(name, q, line, col - 1)), LexToken(RCURLY, "}", Position(name, q, line, col))])
      && (prev == SEMICOLON ==> r.emitted == [LexToken(RCURLY, "}", Position(name, q, line, col))])
  {
    assert s[q..q + 1] == "}" && s[q..q] == "";
  }

  /** A right bracket with nothing open, or closing the wrong opener, is one
   * ERROR and the end of the run. */
  lemma UnexpectedCloser(name: string, s: string, q: nat, start: nat, stack: seq<char>, prev: Type, line: int, col: int)
    requires start <= q < |s| && s[q] in ")]}"
    ensures var r := RightBracketSpec(name, s, q, start, stack, prev, line, col);
      (stack == [] || stack[|stack| - 1] != Opener(s[q]))
      <==> (r.next == Stopped && r.emitted == [LexToken(ERROR, UnexpectedRight(s[q]), Position(name, start, line, col))])
  {
  }

  /** At the end of input, an open bracket is reported instead of EOF. */
  lemma UnclosedAtEof(name: string, s: string, start: nat, stack: seq<char>, prev: Type, line: int, col: int)
    requires start <= |s|
    ensures var r := EofSpec(name, s, start, stack, prev, line, col);
      r.next == Stopped && |r.emitted| == 1
      && (stack == [] <==> r.emitted[0].typ == EOF)
      && (stack != [] ==> r.emitted[0].value == UnclosedLeft(stack[|stack| - 1]) && r.stack == stack[..|stack| - 1])
  {
  }

  /** A lone '|' or '&' is reported, and the run goes on in `lexCode`, the
   * rune after it consumed and the pending text still starting where it
   * did. */
  lemma LoneBarOrAmpersand(name: string, s: string, q: nat, start: nat, stack: seq<char>, prev: Type, line: int, col: int)
    requires start <= q < |s| && s[q] in "|&" && At(s, q + 1) != Ch(s[q])
    ensures var r := CodeSpec(name, s, q, start, stack, prev, line, col);
      r.next == Code && r.start == start && r.end == (if q + 1 < |s| then q + 2 else q + 1)
      && r.emitted == [LexToken(ERROR, ExpectedToken(s[q]), Position(name, start, line, col))]
  {
    BarOrAmpersandIsPunct(name, s, q, start, stack, prev, line, col);
    var c := s[q];
    var e := if q + 1 < |s| then q + 2 else q + 1;
    assert PunctSpec(name, s, q, start, stack, prev, line, col) == Failing(Code, name, e, start, stack, prev, ExpectedToken(c), line, col);
  }

  /** `|` and `&` reach the punctuation cases of `lexCode`. */
  lemma BarOrAmpersandIsPunct(name: string, s: string, q: nat, start: nat, stack: seq<char>, prev: Type, line: int, col: int)
    requires start <= q < |s| && s[q] in "|&"
    ensures CodeSpec(name, s, q, start, stack, prev, line, col) == PunctSpec(name, s, q, start, stack, prev, line, col)
  {
    var c := s[q];
    assert c == '|' || c == '&';
    assert c != '\n' && c != '\'' && c != '`' && c !in Spaces;
    assert CodeSpec(name, s, q, start, stack, prev, line, col) == SymbolSpec(name, s, q, start, stack, prev, line, col);
    assert c != '.' && !IsDecimalDigit(c) && c !in "+-*%=!<>" && c != '/' && !IsAlphaNumeric(c) && c !in ")}]";
  }

  /** `scanNumber` stops where the syntax says, and the number is bad
   * exactly when an alphanumeric rune follows what it accepted. */
  lemma NumberSyntaxBad(s: string, p: nat)
    requires p <= |s|
    ensures var (e, ok) := NumberSyntax(s, p);
      var m := ExponentEnd(s, MantissaEnd(s, p));
      (ok <==> !IsAlnumRune(At(s, m))) && e == (if ok then m else m + 1)
      && (forall k :: p <= k < RunEnd(s, p, Digits) ==> IsDecimalDigit(s[k]))
  {
  }

  /** The exponent takes at most one digit: "1e23" is bad, "1e2" and "3.123"
   * are good. */
  lemma ExponentExamples()
    ensures NumberSyntax("1e23", 0) == (4, false)
    ensures NumberSyntax("1e2", 0) == (3, true)
  {
    assert RunEnd("1e23", 0, Digits) == 1;
    assert RunEnd("1e2", 0, Digits) == 1;
  }

  /** Fractions as in the source's tests. */
  lemma FractionExample()
    ensures NumberSyntax("3.123", 0) == (5, true)
  {
    assert RunEnd("3.123", 2, Digits) == 5;
  }

  /** A leading zero is accepted. */
  lemma LeadingZeroExample()
    ensures NumberSyntax("012.9", 0) == (5, true)
  {
    assert RunEnd("012.9", 0, Digits) == 3;
    assert RunEnd("012.9", 4, Digits) == 5;
  }

  /** A word is its keyword's type exactly when it spells a keyword, and
   * NAME otherwise. */
  lemma IdentifierKeyword(word: string)
    ensures IdentifierType(word) != NAME <==> exists t :: KeywordBegin < t < KeywordEnd && TokenTypes[t] == word
    ensures IdentifierType(word) != NAME ==> IsKeyword(IdentifierType(word)) && TokenTypes[IdentifierType(word)] == word
  {
    if IdentifierType(word) == NAME {
      forall t | KeywordBegin < t < KeywordEnd && TokenTypes[t] == word
        ensures false
      {
        KeywordLookupSpelling(t);
      }
    }
  }

  /** A line comment is dropped up to and including its line break. */
  lemma LineCommentThroughBreak(s: string, q: nat, stack: seq<char>, prev: Type)
    requires q <= |s|
    ensures var r := LineCommentSpec(s, q, stack, prev);
      r.next == Code && r.emitted == [] && r.start == r.end
      && (r.end < |s| ==> s[r.end - 1] == '\n')
      && (forall k :: q <= k < r.end - 1 ==> s[k] != '\n')
      && (r.end == |s| ==> forall k :: q <= k < |s| - 1 ==> s[k] != '\n')
  {
  }

  /** A block comment with no later star-slash pair is one ERROR and the end
   * of the run; otherwise it is dropped through the first pair. */
  lemma BlockCommentCloses(name: string, s: string, q: nat, start: nat, stack: seq<char>, prev: Type, line: int, col: int)
    requires start <= q <= |s|
    ensures var r := BlockCommentSpec(name, s, q, start, stack, prev, line, col);
      (r.next == Stopped <==> forall k :: q <= k < |s| - 1 ==> !(s[k] == '*' && s[k + 1] == '/'))
      && (r.next == Stopped ==> r.emitted == [LexToken(ERROR, UnclosedComment, Position(name, start, line, col))])
      && (r.next == Code ==> r.emitted == [] && 2 <= r.end && s[r.end - 2] == '*' && s[r.end - 1] == '/'
                             && forall k :: q <= k < r.end - 2 ==> !(s[k] == '*' && s[k + 1] == '/'))
  {
  }

  /** A quoted string whose rest has neither a quote nor a backslash never
   * ends: the source spins. */
  lemma {:induction false} QuoteSpins(s: string, p: nat)
    requires p <= |s|
    requires forall k :: p <= k < |s| ==> s[k] != '\'' && s[k] != '\\'
    ensures QuoteScan(s, p) == Forever
    decreases |s| - p
  {
    if p < |s| {
      QuoteSpins(s, p + 1);
    }
  }

  /** A run that halts ends with EOF or an error, and EOF comes at most
   * once, as the last token. */
  predicate EndsWell(o: Outcome)
  {
    (o.halts ==> o.items != [] && o.items[|o.items| - 1].typ in {EOF, ERROR})
    && (forall i :: 0 <= i < |o.items| - 1 ==> o.items[i].typ != EOF)
  }

  /** A halting run ends with EOF or an ERROR, and sends EOF at most once,
   * as its last token. */
  lemma {:induction false} TraceEnds(s: string, cur: State, q: nat, start: nat, stack: seq<char>, prev: Type)
    requires ReadyAt(s, cur, q, start) && cur != Stopped && cur != Stuck
    ensures EndsWell(Trace(s, cur, q, start, stack, prev))
    decreases 2 * (|s| - q) + Rank(cur), 1
  {
    ContinueEnds(s, cur, q, StepSpec("", s, cur, q, start, stack, prev, 0, 0));
  }

  lemma {:induction false} ContinueEnds(s: string, cur: State, q: nat, r: Step)
    requires q <= |s| && cur != Stopped && cur != Stuck && Progress(s, cur, q, r)
    ensures EndsWell(Continue(s, cur, q, r))
    decreases 2 * (|s| - q) + Rank(cur), 0
  {
    if r.next == Stopped || r.next == Stuck {
      EndsStop(r.emitted, r.next == Stopped);
    } else {
      TraceEnds(s, r.next, r.end, r.start, r.stack, r.prev);
      EndsJoin(r.emitted, Trace(s, r.next, r.end, r.start, r.stack, r.prev));
    }
  }

  /** The tokens of the last step: EOF only last, and EOF or an error
   * last when the run ends. */
  lemma EndsStop(e: seq<LexToken>, halts: bool)
    requires halts ==> e != [] && e[|e| - 1].typ in {EOF, ERROR}
    requires forall i :: 0 <= i < |e| && e[i].typ == EOF ==> i == |e| - 1
    ensures EndsWell(Outcome(Strip(e), halts))
  {
  }

  /** Tokens with no EOF among them, before a run that ends well. */
  lemma EndsJoin(e: seq<LexToken>, rest: Outcome)
    requires forall i :: 0 <= i < |e| ==> e[i].typ != EOF
    requires EndsWell(rest)
    ensures EndsWell(Outcome(Strip(e) + rest.items, rest.halts))
  {
    var o := Strip(e) + rest.items;
    assert forall i :: 0 <= i < |o| - 1 ==> o[i] == if i < |e| then Strip(e)[i] else rest.items[i - |e|];
  }
}
