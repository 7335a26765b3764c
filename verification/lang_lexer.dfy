/**
 * lang/lexer.go: the older state-function lexer of the `lang` package. It
 * is the lexer of lang/token/lexer.go before columns were tracked: a token
 * carries its type, its start offset, its text and the line it was sent
 * on. Closing brackets are handled inside `lexCode`, no semicolon is put
 * before a '}', a line comment stops before its line break, and a block
 * comment is skipped in one jump.
 *
 * The number syntax, the identifier terminators and the quoted-string
 * rules are the same as those of lang/token/lexer.go and are used from
 * there.
 */
module LangLexer {
  import opened Runes
  import opened TokenErrors
  import TokenLexer
  import ScanLexer

  // ---------------------------------------------------------------------
  // Token types (`tokenType`), in declaration order

  type TokenType = int

  const TokError: TokenType := 0
  const TokEOF: TokenType := 1
  const TokDot: TokenType := 2
  const TokIdentifier: TokenType := 3
  const TokLeftRound: TokenType := 4
  const TokRightRound: TokenType := 5
  const TokLeftCurly: TokenType := 6
  const TokRightCurly: TokenType := 7
  const TokLeftSquare: TokenType := 8
  const TokRightSquare: TokenType := 9
  const TokColon: TokenType := 10
  const TokSemicolon: TokenType := 11
  const TokComma: TokenType := 12
  const TokNumber: TokenType := 13
  const TokQuotedString: TokenType := 14
  const TokRawString: TokenType := 15
  const TokPlus: TokenType := 16
  const TokMinus: TokenType := 17
  const TokDiv: TokenType := 18
  const TokMult: TokenType := 19
  const TokMod: TokenType := 20
  const TokAssign: TokenType := 21
  const TokPlusAssign: TokenType := 22
  const TokMinusAssign: TokenType := 23
  const TokDivAssign: TokenType := 24
  const TokMultAssign: TokenType := 25
  const TokModAssign: TokenType := 26
  const TokEquals: TokenType := 27
  const TokNotEquals: TokenType := 28
  const TokGreater: TokenType := 29
  const TokSmaller: TokenType := 30
  const TokGreaterEquals: TokenType := 31
  const TokSmallerEquals: TokenType := 32
  const TokLogicalNot: TokenType := 33
  const TokOr: TokenType := 34
  const TokAnd: TokenType := 35
  const TokKeyword: TokenType := 36
  const TokFunc: TokenType := 37
  const TokIf: TokenType := 38
  const TokElse: TokenType := 39
  const TokElseIf: TokenType := 40
  const TokFor: TokenType := 41
  const TokNull: TokenType := 42
  const TokFalse: TokenType := 43
  const TokTrue: TokenType := 44
  const TokWhile: TokenType := 45
  const TokReturn: TokenType := 46
  const TokIn: TokenType := 47
  const TokBreak: TokenType := 48
  const TokCont: TokenType := 49

  /** `keyMap[word]`, zero for a word that is not in it. */
  function KeyMap(word: string): (t: TokenType)
    ensures t == 0 || TokKeyword < t <= TokCont
  {
    if word == "func" then TokFunc else if word == "if" then TokIf
    else if word == "else" then TokElse else if word == "elif" then TokElseIf
    else if word == "for" then TokFor else if word == "null" then TokNull
    else if word == "false" then TokFalse else if word == "true" then TokTrue
    else if word == "while" then TokWhile else if word == "return" then TokReturn
    else if word == "in" then TokIn else if word == "break" then TokBreak
    else if word == "continue" then TokCont else 0
  }

  /** `lexIdentifier`'s choice: a keyword when `keyMap[word]` is above
   * `tokenKeyword`, an identifier otherwise. */
  function WordType(word: string): TokenType
  {
    if KeyMap(word) > TokKeyword then KeyMap(word) else TokIdentifier
  }

  /** `lexNewline`'s rule: a run of line breaks ends a statement after these
   * types (a '}' is not among them). */
  predicate EndsStatement(prev: TokenType)
  {
    prev in {TokIdentifier, TokRawString, TokQuotedString, TokFalse, TokTrue, TokNumber,
             TokBreak, TokCont, TokReturn, TokRightRound, TokRightSquare}
  }

  /** `token`: type, start offset, text and line. */
  datatype LangToken = LangToken(typ: TokenType, pos: nat, value: string, line: int)

  // ---------------------------------------------------------------------
  // Error messages

  function ExpectedToken(c: char): string { "expected token " + RuneU(c) }
  function UnexpectedParen(c: char): string { "unexpected right paren " + RuneU(c) }
  function Unrecognised(c: char): string { "Unrecognised character in code: " + RuneU(c) }
  function UnclosedParen(c: char): string { "unclosed left paren: " + RuneU(c) }
  const UnterminatedQuote: string := "unterminated quoted string"
  const UnterminatedRaw: string := "Unterminated raw string"
  function BadNumber(text: string): string { "Bad number syntax: " + Quote(text) }
  function BadCharacter(c: char): string { "Bad character: " + RuneU(c) }
  const UnclosedComment: string := "Multiline comment is not closed"

  // ---------------------------------------------------------------------
  // One state function at a time

  /** The state functions, plus `Stopped` for the nil state and `Stuck` for
   * the quoted string the source never leaves. */
  datatype State =
    | Code | AtEof | Space | Newline | Quoted | Raw | Operator | Number | Identifier
    | LineComment | BlockComment | Stopped | Stuck

  /** The order the run loop's measure gives the states: those entered just
   * after consuming a rune rank above `Code`, those entered after backing
   * up rank below it. */
  function Rank(st: State): nat
  {
    match st
    case Code => 1
    case Space | Operator | Quoted | Raw | LineComment | BlockComment => 2
    case _ => 0
  }

  /** What running one state does: the state named next, the new cursor,
   * pending-text start, bracket stack and previous type, and the tokens
   * sent. */
  datatype Step = Step(next: State, end: nat, start: nat, stack: seq<char>, prev: TokenType, emitted: seq<LangToken>)

  /** What the cursor `q` and the pending text's start must satisfy for the
   * state `st` to run. */
  predicate ReadyAt(s: string, st: State, q: nat, start: nat)
  {
    start <= q <= |s|
    && (st == AtEof ==> q == |s|)
    && (st == Newline ==> q < |s| && s[q] == '\n')
    && (st == Number ==> q < |s| && (IsDecimalDigit(s[q]) || s[q] == '.'))
    && (st == Identifier ==> q < |s| && IsAlphaNumeric(s[q]))
    && (st == Operator ==> start < q)
    && (st == Raw ==> start == q)
  }

  /** A step from state `cur` at `q` that keeps the machine going: it either
   * stops, having sent EOF or an error last, or is stuck having sent
   * nothing, or hands over to a state that is ready to run and lower in the
   * run's measure. EOF is only ever the last token of a stopping step. */
  predicate Progress(s: string, cur: State, q: nat, r: Step)
    requires q <= |s|
  {
    r.start <= r.end <= |s|
    && (forall i :: 0 <= i < |r.emitted| && r.emitted[i].typ == TokEOF ==> r.next == Stopped && i == |r.emitted| - 1)
    && (r.next == Stopped ==> r.emitted != [] && r.emitted[|r.emitted| - 1].typ in {TokEOF, TokError})
    && (r.next == Stuck ==> r.emitted == [])
    && (r.next != Stopped && r.next != Stuck ==>
          ReadyAt(s, r.next, r.end, r.start) && 2 * (|s| - r.end) + Rank(r.next) < 2 * (|s| - q) + Rank(cur))
  }

  /** `emit(typ)` as the last act of a state that stops at `e`. */
  function Emitting(next: State, s: string, start: nat, e: nat, stack: seq<char>, typ: TokenType, line: int): Step
    requires start <= e <= |s|
  {
    Step(next, e, e, stack, typ, [LangToken(typ, start, s[start..e], line)])
  }

  /** `errorf(msg)` as the last act of a state that stops at `e`. */
  function Failing(next: State, e: nat, start: nat, stack: seq<char>, prev: TokenType, msg: string, line: int): Step
  {
    Step(next, e, start, stack, prev, [LangToken(TokError, start, msg, line)])
  }

  // In each of the state functions below, `q` is the cursor when the state
  // starts, `start` the start of the pending text, and `line` the line
  // tokens are sent on.

  /** `lexCode`. */
  function CodeSpec(s: string, q: nat, start: nat, stack: seq<char>, prev: TokenType, line: int): (st: Step)
    requires start <= q <= |s|
    ensures Progress(s, Code, q, st)
  {
    if q == |s| then Step(AtEof, q, start, stack, prev, [])
    else
      var c := s[q];
      if c in TokenLexer.Spaces then Step(Space, q + 1, start, stack, prev, [])
      else if c == '\n' then Step(Newline, q, start, stack, prev, [])
      else if c == '\'' then Step(Quoted, q + 1, q + 1, stack, prev, [])
      else if c == '`' then Step(Raw, q + 1, q + 1, stack, prev, [])
      else SymbolSpec(s, q, start, stack, prev, line)
  }

  /** The cases of `lexCode` for numbers, operators, comments and words. */
  function SymbolSpec(s: string, q: nat, start: nat, stack: seq<char>, prev: TokenType, line: int): (st: Step)
    requires start <= q < |s|
    ensures Progress(s, Code, q, st)
  {
    var c := s[q];
    if c == '.' && q + 1 < |s| && !IsDecimalDigit(s[q + 1]) then Emitting(Code, s, start, q + 1, stack, TokDot, line)
    else if c == '.' || IsDecimalDigit(c) then Step(Number, q, start, stack, prev, [])
    else if c in "+-*%=!<>" then Step(Operator, q + 1, start, stack, prev, [])
    else if c == '/' then
      if q + 1 < |s| && s[q + 1] == '/' then Step(LineComment, q + 1, start, stack, prev, [])
      else if q + 1 < |s| && s[q + 1] == '*' then Step(BlockComment, q + 1, start, stack, prev, [])
      else Step(Operator, q + 1, start, stack, prev, [])
    else if IsAlphaNumeric(c) then Step(Identifier, q, start, stack, prev, [])
    else PunctSpec(s, q, start, stack, prev, line)
  }

  /** The cases of `lexCode` that send a token or an error on the spot. A
   * lone '|' or '&' reports an error and lexing carries on. */
  function PunctSpec(s: string, q: nat, start: nat, stack: seq<char>, prev: TokenType, line: int): (st: Step)
    requires start <= q < |s|
    ensures Progress(s, Code, q, st)
  {
    var c := s[q];
    if c == ':' then Emitting(Code, s, start, q + 1, stack, TokColon, line)
    else if c == ',' then Emitting(Code, s, start, q + 1, stack, TokComma, line)
    else if c == '|' || c == '&' then
      var e := if q + 1 < |s| then q + 2 else q + 1;
      if At(s, q + 1) == Ch(c) then Emitting(Code, s, start, e, stack, if c == '|' then TokOr else TokAnd, line)
      else Failing(Code, e, start, stack, prev, ExpectedToken(c), line)
    else if c == '(' then Emitting(Code, s, start, q + 1, stack + [c], TokLeftRound, line)
    else if c == '{' then Emitting(Code, s, start, q + 1, stack + [c], TokLeftCurly, line)
    else if c == '[' then Emitting(Code, s, start, q + 1, stack + [c], TokLeftSquare, line)
    else if c in ")}]" then CloserSpec(s, q, start, stack, prev, line)
    else Failing(Stopped, q + 1, start, stack, prev, Unrecognised(c), line)
  }

  /** The closing-bracket case of `lexCode`: with nothing open, or closing
   * the wrong opener (which is popped all the same), an error that ends the
   * run; otherwise the closer's token. */
  function CloserSpec(s: string, q: nat, start: nat, stack: seq<char>, prev: TokenType, line: int): (st: Step)
    requires start <= q < |s| && s[q] in ")}]"
    ensures Progress(s, Code, q, st)
  {
    var c := s[q];
    if stack == [] then Failing(Stopped, q + 1, start, stack, prev, UnexpectedParen(c), line)
    else if stack[|stack| - 1] != TokenLexer.Opener(c) then Failing(Stopped, q + 1, start, stack[..|stack| - 1], prev, UnexpectedParen(c), line)
    else Emitting(Code, s, start, q + 1, stack[..|stack| - 1],
                  if c == ')' then TokRightRound else if c == '}' then TokRightCurly else TokRightSquare, line)
  }

  /** `lexEOF`. */
  function EofSpec(s: string, start: nat, stack: seq<char>, prev: TokenType, line: int): (st: Step)
    requires start <= |s|
    ensures Progress(s, AtEof, |s|, st)
  {
    if stack == [] then Emitting(Stopped, s, start, |s|, stack, TokEOF, line)
    else Failing(Stopped, |s|, start, stack[..|stack| - 1], prev, UnclosedParen(stack[|stack| - 1]), line)
  }

  /** `lexSpace`, one space already consumed. */
  function SpaceSpec(s: string, q: nat, stack: seq<char>, prev: TokenType): (st: Step)
    requires q <= |s|
    ensures Progress(s, Space, q, st)
  {
    var e := RunEnd(s, q, TokenLexer.Spaces);
    Step(Code, e, e, stack, prev, [])
  }

  /** `lexNewline`: the run of line breaks is a semicolon after a type that
   * ends a statement, and is dropped otherwise. */
  function NewlineSpec(s: string, q: nat, start: nat, stack: seq<char>, prev: TokenType, line: int): (st: Step)
    requires start <= q < |s| && s[q] == '\n'
    ensures Progress(s, Newline, q, st)
  {
    var e := RunEnd(s, q, "\n");
    if EndsStatement(prev) then Emitting(Code, s, start, e, stack, TokSemicolon, line)
    else Step(Code, e, e, stack, prev, [])
  }

  /** `lexQuotedString`, just past the opening quote. */
  function QuotedSpec(s: string, q: nat, start: nat, stack: seq<char>, prev: TokenType, line: int): (st: Step)
    requires start <= q <= |s|
    ensures Progress(s, Quoted, q, st)
  {
    match TokenLexer.QuoteScan(s, q)
    case Closed(k) => Step(Code, k + 1, k + 1, stack, TokQuotedString, [LangToken(TokQuotedString, start, s[start..k], line)])
    case Broken(e) => Failing(Stopped, e, start, stack, prev, UnterminatedQuote, line)
    case Forever => Step(Stuck, |s|, start, stack, prev, [])
  }

  /** `lexRawString`, just past the opening '`'. The token is sent on the
   * line the cursor has reached at the closing '`'; `emit` then counts the
   * text's line breaks a second time, so `line` here, the line after the
   * state, is that line plus the count. */
  function RawSpec(s: string, q: nat, start: nat, stack: seq<char>, prev: TokenType, line: int): (st: Step)
    requires start <= q <= |s|
    ensures Progress(s, Raw, q, st)
  {
    match ScanLexer.IndexFrom(s, q, '`')
    case Some(k) => RawStep(s, start, k, stack, line)
    case None => Failing(Stopped, |s|, start, stack, prev, UnterminatedRaw, line)
  }

  /** The raw string from `start` closed by the '`' at `k`: the token holds
   * the text up to that '`', sent on the line the text starts on. */
  function RawStep(s: string, start: nat, k: nat, stack: seq<char>, line: int): Step
    requires start <= k < |s|
  {
    var text := s[start..k];
    Step(Code, k + 1, k + 1, stack, TokRawString, [LangToken(TokRawString, start, text, line - CountOf(text, '\n'))])
  }

  /** A raw string closed by the '`' at `k`. */
  lemma RawClosed(s: string, q: nat, start: nat, stack: seq<char>, prev: TokenType, line: int, k: nat)
    requires start <= q <= |s| && ScanLexer.IndexFrom(s, q, '`') == Some(k)
    ensures RawSpec(s, q, start, stack, prev, line) == RawStep(s, start, k, stack, line)
  {
  }

  /** The type `lexOperator` sends for the rune `c`, alone or followed by
   * '=', and none for a rune it has no case for. */
  function OperatorType(c: char, assign: bool): (t: Option<TokenType>)
    ensures t.Some? <==> c in "+-/%*=!><"
    ensures t.Some? ==> TokPlus <= t.value <= TokLogicalNot
  {
    if c == '+' then Some(if assign then TokPlusAssign else TokPlus)
    else if c == '-' then Some(if assign then TokMinusAssign else TokMinus)
    else if c == '/' then Some(if assign then TokDivAssign else TokDiv)
    else if c == '%' then Some(if assign then TokModAssign else TokMod)
    else if c == '*' then Some(if assign then TokMultAssign else TokMult)
    else if c == '=' then Some(if assign then TokEquals else TokAssign)
    else if c == '!' then Some(if assign then TokNotEquals else TokLogicalNot)
    else if c == '>' then Some(if assign then TokGreaterEquals else TokGreater)
    else if c == '<' then Some(if assign then TokSmallerEquals else TokSmaller)
    else None
  }

  /** `lexOperator`, the first rune consumed; the operator is the rune at
   * the pending text's start. */
  function OperatorSpec(s: string, q: nat, start: nat, stack: seq<char>, prev: TokenType, line: int): (st: Step)
    requires start < q <= |s|
    ensures Progress(s, Operator, q, st)
  {
    var assign := At(s, q) == Ch('=');
    var e := if assign then q + 1 else q;
    match OperatorType(s[start], assign)
    case Some(t) => Emitting(Code, s, start, e, stack, t, line)
    case None => Step(Code, e, start, stack, prev, [])
  }

  /** `lexNumber`. */
  function NumberSpec(s: string, q: nat, start: nat, stack: seq<char>, prev: TokenType, line: int): (st: Step)
    requires start <= q < |s| && (IsDecimalDigit(s[q]) || s[q] == '.')
    ensures Progress(s, Number, q, st)
  {
    var (e, ok) := TokenLexer.NumberSyntax(s, q);
    if ok then Emitting(Code, s, start, e, stack, TokNumber, line)
    else Failing(Stopped, e, start, stack, prev, BadNumber(s[start..e]), line)
  }

  /** `lexIdentifier`. */
  function IdentifierSpec(s: string, q: nat, start: nat, stack: seq<char>, prev: TokenType, line: int): (st: Step)
    requires start <= q < |s| && IsAlphaNumeric(s[q])
    ensures Progress(s, Identifier, q, st)
  {
    var e := TokenLexer.AlnumEnd(s, q);
    if !TokenLexer.IsTerminator(At(s, e)) then Failing(Stopped, e, start, stack, prev, BadCharacter(s[e]), line)
    else Emitting(Code, s, start, e, stack, WordType(s[start..e]), line)
  }

  /** `lexSinglelineComment`, the first '/' consumed: up to, not through,
   * the line break, or to the end of input. */
  function LineCommentSpec(s: string, q: nat, stack: seq<char>, prev: TokenType): (st: Step)
    requires q <= |s|
    ensures Progress(s, LineComment, q, st)
  {
    var e := match ScanLexer.IndexFrom(s, q, '\n') case Some(i) => i case None => |s|;
    Step(Code, e, e, stack, prev, [])
  }

  /** `lexMultilineComment`, the '/' consumed and the cursor on the star:
   * through the first star-slash pair at or after the cursor, or an error
   * when there is none. */
  function BlockCommentSpec(s: string, q: nat, start: nat, stack: seq<char>, prev: TokenType, line: int): (st: Step)
    requires start <= q <= |s|
    ensures Progress(s, BlockComment, q, st)
  {
    match TokenLexer.StarSlashFrom(s, q)
    case Some(k) => Step(Code, k + 2, k + 2, stack, prev, [])
    case None => Failing(Stopped, q, start, stack, prev, UnclosedComment, line)
  }

  /** Running the state `cur`: the state function it names, and nothing for
   * the nil state or the spinning one. */
  function StepSpec(s: string, cur: State, q: nat, start: nat, stack: seq<char>, prev: TokenType, line: int): (st: Step)
    requires ReadyAt(s, cur, q, start)
    ensures cur != Stopped && cur != Stuck ==> Progress(s, cur, q, st)
  {
    match cur
    case Code => CodeSpec(s, q, start, stack, prev, line)
    case AtEof => EofSpec(s, start, stack, prev, line)
    case Space => SpaceSpec(s, q, stack, prev)
    case Newline => NewlineSpec(s, q, start, stack, prev, line)
    case Quoted => QuotedSpec(s, q, start, stack, prev, line)
    case Raw => RawSpec(s, q, start, stack, prev, line)
    case Operator => OperatorSpec(s, q, start, stack, prev, line)
    case Number => NumberSpec(s, q, start, stack, prev, line)
    case Identifier => IdentifierSpec(s, q, start, stack, prev, line)
    case LineComment => LineCommentSpec(s, q, stack, prev)
    case BlockComment => BlockCommentSpec(s, q, start, stack, prev, line)
    case Stopped | Stuck => Step(cur, q, start, stack, prev, [])
  }

  // ---------------------------------------------------------------------
  // The whole run

  /** A token without its line. */
  datatype Item = Item(typ: TokenType, pos: nat, value: string)

  function Strip(ts: seq<LangToken>): (r: seq<Item>)
    ensures |r| == |ts|
    ensures forall i :: 0 <= i < |ts| ==> r[i] == Item(ts[i].typ, ts[i].pos, ts[i].value)
  {
    seq(|ts|, i requires 0 <= i < |ts| => Item(ts[i].typ, ts[i].pos, ts[i].value))
  }

  /** What `run` sends from state `cur` on: the tokens, without lines, and
   * whether it ends (the nil state) rather than spinning. */
  datatype Outcome = Outcome(items: seq<Item>, halts: bool)

  function Trace(s: string, cur: State, q: nat, start: nat, stack: seq<char>, prev: TokenType): (o: Outcome)
    requires ReadyAt(s, cur, q, start)
    decreases 2 * (|s| - q) + Rank(cur), 1
  {
    if cur == Stopped then Outcome([], true)
    else if cur == Stuck then Outcome([], false)
    else Continue(s, cur, q, StepSpec(s, cur, q, start, stack, prev, 0))
  }

  /** The rest of the run after the step `r` from the running state `cur`
   * at `q`: what it emits, then the trace from the state it names. */
  function Continue(s: string, cur: State, q: nat, r: Step): (o: Outcome)
    requires q <= |s| && cur != Stopped && cur != Stuck && Progress(s, cur, q, r)
    decreases 2 * (|s| - q) + Rank(cur), 0
  {
    if r.next == Stopped then Outcome(Strip(r.emitted), true)
    else if r.next == Stuck then Outcome(Strip(r.emitted), false)
    else
      var rest := Trace(s, r.next, r.end, r.start, r.stack, r.prev);
      Outcome(Strip(r.emitted) + rest.items, rest.halts)
  }

  /** Two steps that differ only in the lines of their tokens. */
  predicate SameBut(a: Step, b: Step)
  {
    a.next == b.next && a.end == b.end && a.start == b.start && a.stack == b.stack && a.prev == b.prev
    && Strip(a.emitted) == Strip(b.emitted)
  }

  /** The line does not steer the state functions. */
  lemma LineFree(s: string, cur: State, q: nat, start: nat, stack: seq<char>, prev: TokenType, line: int)
    requires ReadyAt(s, cur, q, start)
    ensures SameBut(StepSpec(s, cur, q, start, stack, prev, line), StepSpec(s, cur, q, start, stack, prev, 0))
  {
    match cur
    case Code =>
      if q < |s| {
        SymbolLineFree(s, q, start, stack, prev, line);
      }
    case Quoted => QuotedLineFree(s, q, start, stack, prev, line);
    case Raw => RawLineFree(s, q, start, stack, prev, line);
    case Number => NumberLineFree(s, q, start, stack, prev, line);
    case Identifier => IdentifierLineFree(s, q, start, stack, prev, line);
    case AtEof | Newline | Operator | BlockComment => SteadyLineFree(s, cur, q, start, stack, prev, line);
    case Space | LineComment | Stopped | Stuck =>
  }

  /** The states whose steps use the line only in the tokens' stamps. */
  lemma SteadyLineFree(s: string, cur: State, q: nat, start: nat, stack: seq<char>, prev: TokenType, line: int)
    requires ReadyAt(s, cur, q, start) && cur in {AtEof, Newline, Operator, BlockComment}
    ensures SameBut(StepSpec(s, cur, q, start, stack, prev, line), StepSpec(s, cur, q, start, stack, prev, 0))
  {
  }

  lemma SymbolLineFree(s: string, q: nat, start: nat, stack: seq<char>, prev: TokenType, line: int)
    requires start <= q < |s|
    ensures SameBut(SymbolSpec(s, q, start, stack, prev, line), SymbolSpec(s, q, start, stack, prev, 0))
  {
    PunctLineFree(s, q, start, stack, prev, line);
  }

  lemma PunctLineFree(s: string, q: nat, start: nat, stack: seq<char>, prev: TokenType, line: int)
    requires start <= q < |s|
    ensures SameBut(PunctSpec(s, q, start, stack, prev, line), PunctSpec(s, q, start, stack, prev, 0))
  {
    var c := s[q];
    if c in ")}]" {
      CloserLineFree(s, q, start, stack, prev, line);
    } else if c == ':' {
      EmittingLineFree(Code, s, start, q + 1, stack, TokColon, line);
    } else if c == ',' {
      EmittingLineFree(Code, s, start, q + 1, stack, TokComma, line);
    } else if c == '|' || c == '&' {
      DoubledLineFree(s, q, start, stack, prev, line);
    } else if c in "({[" {
      OpenerLineFree(s, q, start, stack, prev, line);
    } else {
      FailingLineFree(Stopped, q + 1, start, stack, prev, Unrecognised(c), line);
    }
  }

  /** An opening bracket, pushed and emitted. */
  lemma OpenerLineFree(s: string, q: nat, start: nat, stack: seq<char>, prev: TokenType, line: int)
    requires start <= q < |s| && s[q] in "({["
    ensures SameBut(PunctSpec(s, q, start, stack, prev, line), PunctSpec(s, q, start, stack, prev, 0))
  {
    var c := s[q];
    EmittingLineFree(Code, s, start, q + 1, stack + [c], if c == '(' then TokLeftRound else if c == '{' then TokLeftCurly else TokLeftSquare, line);
  }

  /** `||` and `&&`, or the error a single one gives. */
  lemma DoubledLineFree(s: string, q: nat, start: nat, stack: seq<char>, prev: TokenType, line: int)
    requires start <= q < |s| && (s[q] == '|' || s[q] == '&')
    ensures SameBut(PunctSpec(s, q, start, stack, prev, line), PunctSpec(s, q, start, stack, prev, 0))
  {
    var c := s[q];
    var e := if q + 1 < |s| then q + 2 else q + 1;
    if At(s, q + 1) == Ch(c) {
      EmittingLineFree(Code, s, start, e, stack, if c == '|' then TokOr else TokAnd, line);
    } else {
      FailingLineFree(Code, e, start, stack, prev, ExpectedToken(c), line);
    }
  }

  lemma EmittingLineFree(next: State, s: string, start: nat, e: nat, stack: seq<char>, typ: TokenType, line: int)
    requires start <= e <= |s|
    ensures SameBut(Emitting(next, s, start, e, stack, typ, line), Emitting(next, s, start, e, stack, typ, 0))
  {
    var a, b := Emitting(next, s, start, e, stack, typ, line), Emitting(next, s, start, e, stack, typ, 0);
    OneLineFree(a.emitted, b.emitted);
  }

  lemma FailingLineFree(next: State, e: nat, start: nat, stack: seq<char>, prev: TokenType, msg: string, line: int)
    ensures SameBut(Failing(next, e, start, stack, prev, msg, line), Failing(next, e, start, stack, prev, msg, 0))
  {
    var a, b := Failing(next, e, start, stack, prev, msg, line), Failing(next, e, start, stack, prev, msg, 0);
    OneLineFree(a.emitted, b.emitted);
  }

  lemma OneLineFree(a: seq<LangToken>, b: seq<LangToken>)
    requires |a| == |b| == 1 && a[0] == b[0].(line := a[0].line)
    ensures Strip(a) == Strip(b)
  {
  }

  lemma CloserLineFree(s: string, q: nat, start: nat, stack: seq<char>, prev: TokenType, line: int)
    requires start <= q < |s| && s[q] in ")}]"
    ensures SameBut(CloserSpec(s, q, start, stack, prev, line), CloserSpec(s, q, start, stack, prev, 0))
  {
  }

  lemma QuotedLineFree(s: string, q: nat, start: nat, stack: seq<char>, prev: TokenType, line: int)
    requires start <= q <= |s|
    ensures SameBut(QuotedSpec(s, q, start, stack, prev, line), QuotedSpec(s, q, start, stack, prev, 0))
  {
  }

  lemma RawLineFree(s: string, q: nat, start: nat, stack: seq<char>, prev: TokenType, line: int)
    requires start <= q <= |s|
    ensures SameBut(RawSpec(s, q, start, stack, prev, line), RawSpec(s, q, start, stack, prev, 0))
  {
  }

  lemma NumberLineFree(s: string, q: nat, start: nat, stack: seq<char>, prev: TokenType, line: int)
    requires start <= q < |s| && (IsDecimalDigit(s[q]) || s[q] == '.')
    ensures SameBut(NumberSpec(s, q, start, stack, prev, line), NumberSpec(s, q, start, stack, prev, 0))
  {
  }

  lemma IdentifierLineFree(s: string, q: nat, start: nat, stack: seq<char>, prev: TokenType, line: int)
    requires start <= q < |s| && IsAlphaNumeric(s[q])
    ensures SameBut(IdentifierSpec(s, q, start, stack, prev, line), IdentifierSpec(s, q, start, stack, prev, 0))
  {
  }

  /** One turn of the run: the trace from a running state is what its step
   * sends followed by the trace from the state it names. */
  lemma TraceStep(s: string, cur: State, q: nat, start: nat, stack: seq<char>, prev: TokenType, line: int)
    requires ReadyAt(s, cur, q, start) && cur != Stopped && cur != Stuck
    ensures var a := StepSpec(s, cur, q, start, stack, prev, line);
      ReadyAt(s, a.next, a.end, a.start)
      && Trace(s, cur, q, start, stack, prev).items == Strip(a.emitted) + Trace(s, a.next, a.end, a.start, a.stack, a.prev).items
      && Trace(s, cur, q, start, stack, prev).halts == Trace(s, a.next, a.end, a.start, a.stack, a.prev).halts
  {
    LineFree(s, cur, q, start, stack, prev, line);
  }

  /** `TraceStep` for a run whose tokens so far are `o`, sent `out` after
   * the step `a`. */
  lemma TraceTurn(s: string, cur: State, q: nat, start: nat, stack: seq<char>, prev: TokenType, line: int,
                  o: seq<LangToken>, a: Step, out: seq<LangToken>)
    requires ReadyAt(s, cur, q, start) && cur != Stopped && cur != Stuck
    requires a == StepSpec(s, cur, q, start, stack, prev, line) && out == o + a.emitted
    ensures Strip(out) + Trace(s, a.next, a.end, a.start, a.stack, a.prev).items == Strip(o) + Trace(s, cur, q, start, stack, prev).items
  {
    TraceStep(s, cur, q, start, stack, prev, line);
    assert Strip(o + a.emitted) == Strip(o) + Strip(a.emitted);
    Regroup(Strip(o), Strip(a.emitted), Trace(s, a.next, a.end, a.start, a.stack, a.prev).items, Trace(s, cur, q, start, stack, prev).items);
  }

  // ---------------------------------------------------------------------
  // The lexer

  class Lexer {
    const name: string
    const input: string
    var out: seq<LangToken>
    var pos: nat
    var start: nat
    var width: nat
    var prevTokTyp: TokenType
    var stack: seq<char>
    var line: int

    ghost predicate Valid()
      reads this
    {
      start <= pos <= |input| && width <= 1
    }

    /** What the state `st` needs of the cursor to run. */
    ghost predicate Ready(st: State)
      reads this
    {
      Valid() && ReadyAt(input, st, pos, start)
    }

    /** The run loop's measure. */
    ghost function Measure(st: State): nat
      reads this
      requires Valid()
    {
      2 * (|input| - pos) + Rank(st)
    }

    /** `tokenise`, without the goroutine. */
    constructor (name: string, input: string)
      ensures Valid() && this.name == name && this.input == input
      ensures out == [] && pos == 0 && start == 0 && width == 0 && stack == []
      ensures line == 1 && prevTokTyp == TokError
    {
      this.name, this.input := name, input;
      out, pos, start, width, stack := [], 0, 0, 0, [];
      line, prevTokTyp := 1, TokError;
    }

    /** Only the cursor (position, width and line) changed. */
    twostate predicate CursorOnly()
      reads this
    {
      out == old(out) && start == old(start) && prevTokTyp == old(prevTokTyp) && stack == old(stack)
    }

    /** The state ran as `r` says. */
    twostate predicate Took(next: State, r: Step)
      reads this
    {
      next == r.next && pos == r.end && start == r.start && stack == r.stack && prevTokTyp == r.prev
      && out == old(out) + r.emitted
    }

    /** `next`. */
    method Next() returns (r: Rune)
      requires Valid()
      modifies this
      ensures Valid() && CursorOnly()
      ensures r == At(input, old(pos))
      ensures r.Eof? ==> pos == old(pos) && width == 0 && line == old(line)
      ensures r.Ch? ==> pos == old(pos) + 1 && width == 1
      ensures line == if r == Ch('\n') then old(line) + 1 else old(line)
    {
      if pos >= |input| {
        width := 0;
        return Eof;
      }
      r := Ch(input[pos]);
      width := 1;
      pos := pos + 1;
      if r.c == '\n' {
        line := line + 1;
      }
    }

    /** `backup`. */
    method Backup()
      requires Valid() && start + width <= pos
      modifies this
      ensures Valid() && CursorOnly()
      ensures pos == old(pos) - old(width) && width == old(width)
      ensures line == if old(width) == 1 && input[pos] == '\n' then old(line) - 1 else old(line)
    {
      pos := pos - width;
      if width == 1 && input[pos] == '\n' {
        line := line - 1;
      }
    }

    /** `peek`: `next` then `backup`; the cursor and the line stay. */
    method Peek() returns (r: Rune)
      requires Valid()
      modifies this
      ensures Valid() && CursorOnly()
      ensures r == At(input, old(pos)) && pos == old(pos) && line == old(line)
      ensures r.Ch? ==> width == 1
    {
      r := Next();
      Backup();
    }

    /** `emit`: the pending text as a token of type `typ`, on the current
     * line; after a raw string the line moves on by the text's line
     * breaks. */
    method Emit(typ: TokenType)
      requires Valid()
      modifies this
      ensures Valid() && pos == old(pos) && width == old(width)
      ensures out == old(out) + [LangToken(typ, old(start), input[old(start)..pos], old(line))]
      ensures line == old(line) + (if typ == TokRawString then CountOf(input[old(start)..pos], '\n') else 0)
      ensures start == pos && prevTokTyp == typ && stack == old(stack)
    {
      out := out + [LangToken(typ, start, input[start..pos], line)];
      if typ == TokRawString {
        line := line + CountOf(input[start..pos], '\n');
      }
      start := pos;
      prevTokTyp := typ;
    }

    /** `ignore`: drops the pending text, counting its line breaks when
     * asked. */
    method Ignore(countSpace: bool)
      requires Valid()
      modifies this
      ensures Valid() && start == pos && pos == old(pos) && width == old(width)
      ensures line == old(line) + (if countSpace then CountOf(input[old(start)..pos], '\n') else 0)
      ensures out == old(out) && prevTokTyp == old(prevTokTyp) && stack == old(stack)
    {
      if countSpace {
        line := line + CountOf(input[start..pos], '\n');
      }
      start := pos;
    }

    /** `errorf`: an error token carrying `msg`, at the pending text's
     * start. */
    method Errorf(msg: string)
      requires Valid()
      modifies this
      ensures Valid()
      ensures out == old(out) + [LangToken(TokError, start, msg, line)]
      ensures start == old(start) && prevTokTyp == old(prevTokTyp) && stack == old(stack)
      ensures pos == old(pos) && width == old(width) && line == old(line)
    {
      out := out + [LangToken(TokError, start, msg, line)];
    }

    /** `accept`. */
    method Accept(valid: string) returns (ok: bool)
      requires Valid()
      modifies this
      ensures Valid() && CursorOnly()
      ensures ok <==> RuneIn(At(input, old(pos)), valid)
      ensures pos == if ok then old(pos) + 1 else old(pos)
    {
      var r := Next();
      ok := RuneIn(r, valid);
      if !ok {
        Backup();
      }
    }

    /** `acceptRun`. */
    method AcceptRun(valid: string)
      requires Valid()
      modifies this
      ensures Valid() && CursorOnly()
      ensures pos == RunEnd(input, old(pos), valid)
    {
      var r := Next();
      while RuneIn(r, valid)
        invariant Valid() && CursorOnly()
        invariant old(pos) <= pos - width && RunEnd(input, old(pos), valid) == RunEnd(input, pos - width, valid)
        invariant r == At(input, pos - width) && (r.Eof? <==> width == 0)
        decreases |input| - pos + width
      {
        r := Next();
      }
      Backup();
    }

    /** `scanNumber`. */
    method ScanNumber() returns (ok: bool)
      requires Valid()
      modifies this
      ensures Valid() && CursorOnly()
      ensures (pos, ok) == TokenLexer.NumberSyntax(input, old(pos))
    {
      ScanMantissa();
      ScanExponent();
      var r := Peek();
      if TokenLexer.IsAlnumRune(r) {
        var _ := Next();
        return false;
      }
      return true;
    }

    /** The digits and fraction of `scanNumber`. */
    method ScanMantissa()
      requires Valid()
      modifies this
      ensures Valid() && CursorOnly() && pos == TokenLexer.MantissaEnd(input, old(pos))
    {
      AcceptRun(TokenLexer.Digits);
      var dot := Accept(".");
      if dot {
        AcceptRun(TokenLexer.Digits);
      }
    }

    /** The exponent of `scanNumber`. */
    method ScanExponent()
      requires Valid()
      modifies this
      ensures Valid() && CursorOnly() && pos == TokenLexer.ExponentEnd(input, old(pos))
    {
      var exp := Accept("eE");
      if exp {
        var _ := Accept("+-");
        var _ := Accept(TokenLexer.Digits);
      }
    }

    /** `atIdentifierTerminator`. */
    method AtIdentifierTerminator() returns (b: bool)
      requires Valid()
      modifies this
      ensures Valid() && CursorOnly() && pos == old(pos) && line == old(line)
      ensures b <==> TokenLexer.IsTerminator(At(input, pos))
    {
      var r := Peek();
      b := TokenLexer.IsTerminator(r);
    }

    // -------------------------------------------------------------------
    // The state functions

    /** `lexCode`. */
    method LexCode() returns (next: State)
      requires Valid()
      modifies this
      ensures Valid() && Took(next, CodeSpec(input, old(pos), old(start), old(stack), old(prevTokTyp), line))
    {
      var r := Next();
      if r.Eof? {
        return AtEof;
      }
      var c := r.c;
      if c in TokenLexer.Spaces {
        return Space;
      } else if c == '\n' {
        Backup();
        return Newline;
      } else if c == '\'' {
        Ignore(false);
        return Quoted;
      } else if c == '`' {
        Ignore(false);
        return Raw;
      }
      next := LexSymbol(c);
    }

    /** The cases of `lexCode` for numbers, operators, comments and words,
     * `c` just consumed. */
    method LexSymbol(c: char) returns (next: State)
      requires Valid() && start < pos && input[pos - 1] == c && width == 1 && c != '\n'
      modifies this
      ensures Valid() && Took(next, SymbolSpec(input, old(pos) - 1, old(start), old(stack), old(prevTokTyp), line))
    {
      if c == '.' && pos < |input| && !IsDecimalDigit(input[pos]) {
        Emit(TokDot);
        return Code;
      } else if c == '.' || IsDecimalDigit(c) {
        Backup();
        return Number;
      } else if c in "+-*%=!<>" {
        return Operator;
      } else if c == '/' {
        if pos < |input| && input[pos] == '/' {
          return LineComment;
        } else if pos < |input| && input[pos] == '*' {
          return BlockComment;
        }
        return Operator;
      } else if IsAlphaNumeric(c) {
        Backup();
        return Identifier;
      }
      next := LexPunct(c);
    }

    /** The cases of `lexCode` that send on the spot, `c` just consumed. */
    method LexPunct(c: char) returns (next: State)
      requires Valid() && start < pos && input[pos - 1] == c
      modifies this
      ensures Valid() && Took(next, PunctSpec(input, old(pos) - 1, old(start), old(stack), old(prevTokTyp), line))
    {
      if c == ':' {
        Emit(TokColon);
      } else if c == ',' {
        Emit(TokComma);
      } else if c == '|' || c == '&' {
        var r := Next();
        if r == Ch(c) {
          Emit(if c == '|' then TokOr else TokAnd);
        } else {
          Errorf(ExpectedToken(c));
        }
      } else if c == '(' || c == '{' || c == '[' {
        Emit(if c == '(' then TokLeftRound else if c == '{' then TokLeftCurly else TokLeftSquare);
        stack := stack + [c];
      } else if c in ")}]" {
        next := LexCloser(c);
        return;
      } else {
        Errorf(Unrecognised(c));
        return Stopped;
      }
      return Code;
    }

    /** The closing-bracket case of `lexCode`, `c` just consumed. */
    method LexCloser(c: char) returns (next: State)
      requires Valid() && start < pos && input[pos - 1] == c && c in ")}]"
      modifies this
      ensures Valid() && Took(next, CloserSpec(input, old(pos) - 1, old(start), old(stack), old(prevTokTyp), line))
    {
      if stack == [] {
        Errorf(UnexpectedParen(c));
        return Stopped;
      }
      var top := stack[|stack| - 1];
      stack := stack[..|stack| - 1];
      if top != TokenLexer.Opener(c) {
        Errorf(UnexpectedParen(c));
        return Stopped;
      }
      Emit(if c == ')' then TokRightRound else if c == '}' then TokRightCurly else TokRightSquare);
      return Code;
    }

    /** `lexEOF`. */
    method LexEof() returns (next: State)
      requires Valid() && pos == |input|
      modifies this
      ensures Valid() && Took(next, EofSpec(input, old(start), old(stack), old(prevTokTyp), line))
    {
      if stack != [] {
        var r := stack[|stack| - 1];
        stack := stack[..|stack| - 1];
        Errorf(UnclosedParen(r));
        return Stopped;
      }
      Emit(TokEOF);
      return Stopped;
    }

    /** `lexSpace`. */
    method LexSpace() returns (next: State)
      requires Valid()
      modifies this
      ensures Valid() && Took(next, SpaceSpec(input, old(pos), old(stack), old(prevTokTyp)))
    {
      var r := Peek();
      while RuneIn(r, TokenLexer.Spaces)
        invariant Valid() && CursorOnly() && old(pos) <= pos
        invariant RunEnd(input, old(pos), TokenLexer.Spaces) == RunEnd(input, pos, TokenLexer.Spaces) && r == At(input, pos)
        decreases |input| - pos
      {
        var _ := Next();
        r := Peek();
      }
      Ignore(false);
      return Code;
    }

    /** `lexNewline`; its loop is `acceptRun` of the line break. */
    method LexNewline() returns (next: State)
      requires Valid() && pos < |input| && input[pos] == '\n'
      modifies this
      ensures Valid() && Took(next, NewlineSpec(input, old(pos), old(start), old(stack), old(prevTokTyp), line))
    {
      AcceptRun("\n");
      if EndsStatement(prevTokTyp) {
        Emit(TokSemicolon);
      } else {
        Ignore(false);
      }
      return Code;
    }

    /** `lexQuotedString`. Where the source would spin forever, at the end
     * of input with no backslash before it, the state is `Stuck`. */
    method LexQuotedString() returns (next: State)
      requires Valid()
      modifies this
      ensures Valid() && Took(next, QuotedSpec(input, old(pos), old(start), old(stack), old(prevTokTyp), line))
    {
      while true
        invariant Valid() && CursorOnly() && old(pos) <= pos
        invariant TokenLexer.QuoteScan(input, old(pos)) == TokenLexer.QuoteScan(input, pos)
        decreases |input| - pos
      {
        var r := Next();
        if r == Ch('\\') {
          var r2 := Next();
          if r2 == Ch('\n') || r2.Eof? {
            Errorf(UnterminatedQuote);
            return Stopped;
          }
        } else if r == Ch('\'') {
          Backup();
          break;
        } else if r.Eof? {
          return Stuck;
        }
      }
      Emit(TokQuotedString);
      var _ := Next();
      Ignore(false);
      return Code;
    }

    /** `lexRawString`. An unterminated one is reported on the line of its
     * opening quote; a terminated one moves the line on twice per line
     * break in its text, once as it is read and once as it is sent. */
    method LexRawString() returns (next: State)
      requires Valid() && start == pos
      modifies this
      ensures Valid() && Took(next, RawSpec(input, old(pos), old(start), old(stack), old(prevTokTyp), line))
      ensures next == Stopped ==> line == old(line)
      ensures next == Code ==> line == old(line) + 2 * CountOf(out[|out| - 1].value, '\n')
    {
      var startLine := line;
      var closed := SeekBacktick();
      if !closed {
        assert ScanLexer.IndexFrom(input, old(pos), '`') == None;
        line := startLine;
        Errorf(UnterminatedRaw);
        return Stopped;
      }
      ghost var k := pos;
      assert ScanLexer.IndexFrom(input, old(pos), '`') == Some(k);
      CloseRaw();
      RawClosed(input, old(pos), old(start), old(stack), old(prevTokTyp), line, k);
      return Code;
    }

    /** The end of `lexRawString` at its closing '`': the text before it
     * is sent, its line breaks counted a second time, and the '`' is
     * dropped. */
    method CloseRaw()
      requires Valid() && pos < |input| && input[pos] == '`'
      modifies this
      ensures Valid() && pos == old(pos) + 1 && start == pos && stack == old(stack) && prevTokTyp == TokRawString
      ensures line == old(line) + CountOf(input[old(start)..old(pos)], '\n')
      ensures out == old(out) + [LangToken(TokRawString, old(start), input[old(start)..old(pos)], old(line))]
    {
      Emit(TokRawString);
      var _ := Next();
      Ignore(false);
    }

    /** The loop of `lexRawString`: on to the closing '`', backed up before
     * it, counting the line breaks read; or to the end of input. */
    method SeekBacktick() returns (closed: bool)
      requires Valid()
      modifies this
      ensures Valid() && CursorOnly()
      ensures closed <==> ScanLexer.IndexFrom(input, old(pos), '`').Some?
      ensures closed ==> pos == ScanLexer.IndexFrom(input, old(pos), '`').value && input[pos] == '`'
      ensures closed ==> line == old(line) + CountOf(input[old(pos)..pos], '\n')
      ensures !closed ==> pos == |input|
    {
      while true
        invariant Valid() && CursorOnly() && old(pos) <= pos
        invariant ScanLexer.IndexFrom(input, old(pos), '`') == ScanLexer.IndexFrom(input, pos, '`')
        invariant line == old(line) + CountOf(input[old(pos)..pos], '\n')
        decreases |input| - pos
      {
        var r := Next();
        if r.Eof? {
          return false;
        } else if r == Ch('`') {
          Backup();
          return true;
        }
        CountOfSliceSnoc(input, old(pos), pos, '\n');
      }
    }

    /** `lexOperator`. */
    method LexOperator() returns (next: State)
      requires Valid() && start < pos
      modifies this
      ensures Valid() && Took(next, OperatorSpec(input, old(pos), old(start), old(stack), old(prevTokTyp), line))
    {
      var r := input[start];
      var n := Next();
      if n != Ch('=') {
        Backup();
      }
      match OperatorType(r, n == Ch('=')) {
        case Some(t) => Emit(t);
        case None =>
      }
      return Code;
    }

    /** `lexNumber`. */
    method LexNumber() returns (next: State)
      requires Valid() && pos < |input| && (IsDecimalDigit(input[pos]) || input[pos] == '.')
      modifies this
      ensures Valid() && Took(next, NumberSpec(input, old(pos), old(start), old(stack), old(prevTokTyp), line))
    {
      var ok := ScanNumber();
      if !ok {
        Errorf(BadNumber(input[start..pos]));
        return Stopped;
      }
      Emit(TokNumber);
      return Code;
    }

    /** `lexIdentifier`. */
    method LexIdentifier() returns (next: State)
      requires Valid() && pos < |input| && IsAlphaNumeric(input[pos])
      modifies this
      ensures Valid() && Took(next, IdentifierSpec(input, old(pos), old(start), old(stack), old(prevTokTyp), line))
    {
      var r := Next();
      while TokenLexer.IsAlnumRune(r)
        invariant Valid() && CursorOnly() && old(pos) <= pos - width
        invariant TokenLexer.AlnumEnd(input, old(pos)) == TokenLexer.AlnumEnd(input, pos - width)
        invariant r == At(input, pos - width) && (r.Eof? <==> width == 0)
        decreases |input| - pos + width
      {
        r := Next();
      }
      Backup();
      var ok := AtIdentifierTerminator();
      if !ok {
        Errorf(BadCharacter(r.c));
        return Stopped;
      }
      Emit(WordType(input[start..pos]));
      return Code;
    }

    /** `lexSinglelineComment`: the cursor jumps to the next line break, or
     * to the end of input. */
    method LexLineComment() returns (next: State)
      requires Valid()
      modifies this
      ensures Valid() && Took(next, LineCommentSpec(input, old(pos), old(stack), old(prevTokTyp)))
      ensures line == old(line)
    {
      match ScanLexer.IndexFrom(input, pos, '\n') {
        case None => pos := |input|;
        case Some(i) => pos := i;
      }
      Ignore(false);
      return Code;
    }

    /** `lexMultilineComment`: the cursor jumps past the first star-slash
     * pair, and the line breaks of the pending text are counted. */
    method LexBlockComment() returns (next: State)
      requires Valid()
      modifies this
      ensures Valid() && Took(next, BlockCommentSpec(input, old(pos), old(start), old(stack), old(prevTokTyp), line))
      ensures next == Code ==> line == old(line) + CountOf(input[old(start)..pos], '\n')
    {
      match TokenLexer.StarSlashFrom(input, pos) {
        case None =>
          Errorf(UnclosedComment);
          return Stopped;
        case Some(k) =>
          pos := k + 2;
      }
      Ignore(true);
      return Code;
    }

    /** One turn of `run`'s loop: the state function `st` names. */
    method RunState(st: State) returns (next: State)
      requires Ready(st) && st != Stopped && st != Stuck
      modifies this
      ensures Valid() && Took(next, StepSpec(input, st, old(pos), old(start), old(stack), old(prevTokTyp), line))
    {
      match st
      case Code => next := LexCode();
      case AtEof => next := LexEof();
      case Space => next := LexSpace();
      case Newline => next := LexNewline();
      case Quoted => next := LexQuotedString();
      case Raw => next := LexRawString();
      case Operator => next := LexOperator();
      case Number => next := LexNumber();
      case Identifier => next := LexIdentifier();
      case LineComment => next := LexLineComment();
      case BlockComment => next := LexBlockComment();
    }

    /** `RunState`, seen from the trace. */
    method Turn(st: State) returns (next: State)
      requires Ready(st) && st != Stopped && st != Stuck
      modifies this
      ensures Valid() && (next == Stopped || next == Stuck || (Ready(next) && Measure(next) < old(Measure(st))))
      ensures ReadyAt(input, next, pos, start)
      ensures Strip(out) + Trace(input, next, pos, start, stack, prevTokTyp).items
           == Strip(old(out)) + Trace(input, st, old(pos), old(start), old(stack), old(prevTokTyp)).items
      ensures Trace(input, next, pos, start, stack, prevTokTyp).halts
           == Trace(input, st, old(pos), old(start), old(stack), old(prevTokTyp)).halts
    {
      ghost var (o, q, s0, k0, p0) := (out, pos, start, stack, prevTokTyp);
      next := RunState(st);
      TraceStep(input, st, q, s0, k0, p0, line);
      TraceTurn(input, st, q, s0, k0, p0, line, o, StepSpec(input, st, q, s0, k0, p0, line), out);
    }

    /** `run`: the state functions from `lexCode` until one names none, the
     * tokens it sends being those of `Trace`; or until the one that spins. */
    method Run() returns (last: State)
      requires Valid()
      modifies this
      ensures Valid() && (last == Stopped || last == Stuck)
      ensures Strip(out) == Strip(old(out)) + Trace(input, Code, old(pos), old(start), old(stack), old(prevTokTyp)).items
      ensures last == Stopped <==> Trace(input, Code, old(pos), old(start), old(stack), old(prevTokTyp)).halts
    {
      var st := Code;
      while st != Stopped && st != Stuck
        invariant Ready(st)
        invariant Strip(out) + Trace(input, st, pos, start, stack, prevTokTyp).items
               == Strip(old(out)) + Trace(input, Code, old(pos), old(start), old(stack), old(prevTokTyp)).items
        invariant Trace(input, st, pos, start, stack, prevTokTyp).halts
               == Trace(input, Code, old(pos), old(start), old(stack), old(prevTokTyp)).halts
        decreases if st == Stopped || st == Stuck then 0 else Measure(st) + 1
      {
        st := Turn(st);
      }
      return st;
    }
  }

  // ---------------------------------------------------------------------
  // Tokens as text

  /** `token.String`: EOF, an error in angle brackets, ";" for a
   * semicolon, a keyword's text in angle brackets, and any other token's
   * text quoted. */
  function TokenString(t: LangToken): (r: string)
    ensures t.typ == TokEOF ==> r == "EOF"
    ensures t.typ == TokError ==> r == "<err: " + t.value + ">"
    ensures t.typ == TokSemicolon ==> r == ";"
    ensures t.typ > TokKeyword ==> r == "<" + t.value + ">"
    ensures t.typ !in {TokEOF, TokError, TokSemicolon} && t.typ <= TokKeyword ==> r == Quote(t.value)
  {
    if t.typ == TokEOF then "EOF"
    else if t.typ == TokError then "<err: " + t.value + ">"
    else if t.typ == TokSemicolon then ";"
    else if t.typ > TokKeyword then "<" + t.value + ">"
    else Quote(t.value)
  }

  // ---------------------------------------------------------------------
  // Properties

  /** The words of `keyMap`, in the order of their types. */
  const Keywords: seq<string> :=
    ["func", "if", "else", "elif", "for", "null", "false", "true", "while", "return", "in", "break", "continue"]

  /** A word is a keyword's type exactly when it is one of the words of
   * `keyMap`, and each of them is its own type: the i-th word is the i-th
   * type after `tokenKeyword`. */
  lemma WordTypeKeyword(word: string)
    ensures WordType(word) != TokIdentifier <==> word in Keywords
    ensures WordType(word) != TokIdentifier ==> TokKeyword < WordType(word) <= TokCont && Keywords[WordType(word) - TokFunc] == word
  {
  }

  lemma KeywordTypes()
    ensures forall i :: 0 <= i < |Keywords| ==> WordType(Keywords[i]) == TokFunc + i
  {
  }

  /** A run of line breaks is dropped, or is one semicolon after a type
   * that ends a statement; a '}' does not end one. */
  lemma NewlineSemicolon(s: string, q: nat, stack: seq<char>, prev: TokenType, line: int)
    requires q < |s| && s[q] == '\n'
    ensures var r := NewlineSpec(s, q, q, stack, prev, line);
      r.next == Code && q < r.end && (r.end == |s| || s[r.end] != '\n')
      && (forall k :: q <= k < r.end ==> s[k] == '\n')
      && (EndsStatement(prev) <==> r.emitted != [])
      && (EndsStatement(prev) ==> r.emitted == [LangToken(TokSemicolon, q, s[q..r.end], line)] && r.prev == TokSemicolon)
      && (!EndsStatement(prev) ==> r.prev == prev)
    ensures !EndsStatement(TokRightCurly)
  {
  }

  /** A closing bracket with nothing open, or closing the wrong opener, is
   * one error and the end of the run; one that closes the innermost opener
   * is its own token, that opener popped. */
  lemma CloserMatches(s: string, q: nat, start: nat, stack: seq<char>, prev: TokenType, line: int)
    requires start <= q < |s| && s[q] in ")}]"
    ensures var r := CodeSpec(s, q, start, stack, prev, line);
      ((stack == [] || stack[|stack| - 1] != TokenLexer.Opener(s[q]))
        <==> (r.next == Stopped && r.emitted == [LangToken(TokError, start, UnexpectedParen(s[q]), line)]))
      && (stack != [] && stack[|stack| - 1] == TokenLexer.Opener(s[q]) ==>
            r.next == Code && r.stack == stack[..|stack| - 1] && |r.emitted| == 1
            && r.emitted[0].typ == (if s[q] == ')' then TokRightRound else if s[q] == '}' then TokRightCurly else TokRightSquare))
  {
    CodeAtCloser(s, q, start, stack, prev, line);
    CloserOutcome(s, q, start, stack, prev, line);
  }

  /** `lexCode` hands a closing bracket to the closer's case. */
  lemma CodeAtCloser(s: string, q: nat, start: nat, stack: seq<char>, prev: TokenType, line: int)
    requires start <= q < |s| && s[q] in ")}]"
    ensures CodeSpec(s, q, start, stack, prev, line) == CloserSpec(s, q, start, stack, prev, line)
  {
    var c := s[q];
    assert c != '\n' && c != '\'' && c != '`' && c !in TokenLexer.Spaces;
    assert CodeSpec(s, q, start, stack, prev, line) == SymbolSpec(s, q, start, stack, prev, line);
    assert c != '.' && !IsDecimalDigit(c) && c !in "+-*%=!<>" && c != '/' && !IsAlphaNumeric(c);
    assert SymbolSpec(s, q, start, stack, prev, line) == PunctSpec(s, q, start, stack, prev, line);
  }

  lemma CloserOutcome(s: string, q: nat, start: nat, stack: seq<char>, prev: TokenType, line: int)
    requires start <= q < |s| && s[q] in ")}]"
    ensures var r := CloserSpec(s, q, start, stack, prev, line);
      ((stack == [] || stack[|stack| - 1] != TokenLexer.Opener(s[q]))
        <==> (r.next == Stopped && r.emitted == [LangToken(TokError, start, UnexpectedParen(s[q]), line)]))
      && (stack != [] && stack[|stack| - 1] == TokenLexer.Opener(s[q]) ==>
            r.next == Code && r.stack == stack[..|stack| - 1] && |r.emitted| == 1
            && r.emitted[0].typ == (if s[q] == ')' then TokRightRound else if s[q] == '}' then TokRightCurly else TokRightSquare))
  {
  }

  /** At the end of input, the innermost open bracket is reported instead
   * of EOF. */
  lemma UnclosedAtEof(s: string, start: nat, stack: seq<char>, prev: TokenType, line: int)
    requires start <= |s|
    ensures var r := EofSpec(s, start, stack, prev, line);
      r.next == Stopped && |r.emitted| == 1
      && (stack == [] <==> r.emitted[0].typ == TokEOF)
      && (stack != [] ==> r.emitted[0].value == UnclosedParen(stack[|stack| - 1]) && r.stack == stack[..|stack| - 1])
  {
  }

  /** A lone '|' or '&' is reported and the run goes on in `lexCode`, the
   * rune after it consumed. */
  lemma LoneBarOrAmpersand(s: string, q: nat, start: nat, stack: seq<char>, prev: TokenType, line: int)
    requires start <= q < |s| && s[q] in "|&" && At(s, q + 1) != Ch(s[q])
    ensures var r := CodeSpec(s, q, start, stack, prev, line);
      r.next == Code && r.start == start && r.end == (if q + 1 < |s| then q + 2 else q + 1)
      && r.emitted == [LangToken(TokError, start, ExpectedToken(s[q]), line)]
  {
    var c := s[q];
    assert c != '\n' && c != '\'' && c != '`' && c !in TokenLexer.Spaces;
    assert CodeSpec(s, q, start, stack, prev, line) == SymbolSpec(s, q, start, stack, prev, line);
    assert c != '.' && !IsDecimalDigit(c) && c !in "+-*%=!<>" && c != '/' && !IsAlphaNumeric(c);
    assert SymbolSpec(s, q, start, stack, prev, line) == PunctSpec(s, q, start, stack, prev, line);
  }

  /** A raw string is sent on the line its closing '`' is on, and the line
   * after it has moved on by its line breaks once more. */
  lemma RawStringLines(s: string, q: nat, stack: seq<char>, prev: TokenType, line: int)
    requires q <= |s|
    ensures var r := RawSpec(s, q, q, stack, prev, line);
      r.next == Code ==>
        exists k :: q <= k < |s| && s[k] == '`' && r.end == k + 1
          && r.emitted == [LangToken(TokRawString, q, s[q..k], line - CountOf(s[q..k], '\n'))]
          && (forall i :: q <= i < k ==> s[i] != '`')
  {
  }

  /** A line comment is dropped up to, not including, its line break. */
  lemma LineCommentToBreak(s: string, q: nat, stack: seq<char>, prev: TokenType)
    requires q <= |s|
    ensures var r := LineCommentSpec(s, q, stack, prev);
      r.next == Code && r.emitted == [] && r.start == r.end && q <= r.end
      && (r.end < |s| ==> s[r.end] == '\n')
      && (forall k :: q <= k < r.end ==> s[k] != '\n')
  {
  }

  /** A block comment with no later star-slash pair is one error and the
   * end of the run; otherwise it is dropped through the first pair. */
  lemma BlockCommentCloses(s: string, q: nat, start: nat, stack: seq<char>, prev: TokenType, line: int)
    requires start <= q <= |s|
    ensures var r := BlockCommentSpec(s, q, start, stack, prev, line);
      (r.next == Stopped <==> forall k :: q <= k < |s| - 1 ==> !(s[k] == '*' && s[k + 1] == '/'))
      && (r.next == Stopped ==> r.emitted == [LangToken(TokError, start, UnclosedComment, line)])
      && (r.next == Code ==> r.emitted == [] && 2 <= r.end && s[r.end - 2] == '*' && s[r.end - 1] == '/'
                             && forall k :: q <= k < r.end - 2 ==> !(s[k] == '*' && s[k + 1] == '/'))
  {
  }

  /** A run that halts ends with EOF or an error, and EOF comes at most
   * once, as the last token. */
  predicate EndsWell(o: Outcome)
  {
    (o.halts ==> o.items != [] && o.items[|o.items| - 1].typ in {TokEOF, TokError})
    && (forall i :: 0 <= i < |o.items| - 1 ==> o.items[i].typ != TokEOF)
  }

  /** A halting run ends with EOF or an error, and sends EOF at most once,
   * as its last token. */
  lemma {:induction false} TraceEnds(s: string, cur: State, q: nat, start: nat, stack: seq<char>, prev: TokenType)
    requires ReadyAt(s, cur, q, start) && cur != Stopped && cur != Stuck
    ensures EndsWell(Trace(s, cur, q, start, stack, prev))
    decreases 2 * (|s| - q) + Rank(cur), 1
  {
    ContinueEnds(s, cur, q, StepSpec(s, cur, q, start, stack, prev, 0));
  }

  lemma {:induction false} ContinueEnds(s: string, cur: State, q: nat, r: Step)
    requires q <= |s| && cur != Stopped && cur != Stuck && Progress(s, cur, q, r)
    ensures EndsWell(Continue(s, cur, q, r))
    decreases 2 * (|s| - q) + Rank(cur), 0
  {
    if r.next == Stopped || r.next == Stuck {
      EndsStop(r.emitted, r.next == Stopped);
    } else {
      TraceEnds(s, r.next, r.end, r.start, r.stack, r.prev);
      EndsJoin(r.emitted, Trace(s, r.next, r.end, r.start, r.stack, r.prev));
    }
  }

  /** The tokens of the last step: EOF only last, and EOF or an error
   * last when the run ends. */
  lemma EndsStop(e: seq<LangToken>, halts: bool)
    requires halts ==> e != [] && e[|e| - 1].typ in {TokEOF, TokError}
    requires forall i :: 0 <= i < |e| && e[i].typ == TokEOF ==> i == |e| - 1
    ensures EndsWell(Outcome(Strip(e), halts))
  {
  }

  /** Tokens with no EOF among them, before a run that ends well. */
  lemma EndsJoin(e: seq<LangToken>, rest: Outcome)
    requires forall i :: 0 <= i < |e| ==> e[i].typ != TokEOF
    requires EndsWell(rest)
    ensures EndsWell(Outcome(Strip(e) + rest.items, rest.halts))
  {
    var o := Strip(e) + rest.items;
    assert forall i :: 0 <= i < |o| - 1 ==> o[i] == if i < |e| then Strip(e)[i] else rest.items[i - |e|];
  }
}
