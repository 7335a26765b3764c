/**
 * Properties of the state functions of utils/lexer.go, as `UtilsLexer`
 * states them, and of a whole run.
 */
module UtilsProps {
  import opened Runes
  import opened TokenErrors
  import opened UtilsLexer
  import TokenLexer
  import ScanLexer

  /** The words of `keyMap`, in the order of their types. */
  const Keywords: seq<string> := ["func", "var", "if", "else", "elif", "for", "null", "while", "return", "in"]

  /** `true` and `false` are booleans, the words of `keyMap` their own
   * keyword types, and every other word an identifier. */
  lemma WordTypes(word: string)
    ensures WordType(word) == TokBool <==> word == "true" || word == "false"
    ensures WordType(word) > TokKeyword <==> word in Keywords
    ensures WordType(word) > TokKeyword ==> WordType(word) <= TokIn && Keywords[WordType(word) - TokFunc] == word
    ensures WordType(word) in {TokBool, TokIdentifier} || WordType(word) > TokKeyword
  {
  }

  lemma KeywordTypes()
    ensures forall i :: 0 <= i < |Keywords| ==> WordType(Keywords[i]) == TokFunc + i
  {
  }

  /** A run of blanks is one space token covering the whole run. */
  lemma SpaceRun(s: string, q: nat, d: Depths, line: int)
    requires q < |s| && s[q] in Blanks && NonNegative(d)
    ensures var a := CodeSpec(s, q, q, d, line);
      a == Step(Space, q + 1, q, d, [])
      && var r := SpaceSpec(s, a.end, a.start, d, line);
      r.next == Code && q < r.end && r.emitted == [UtilsToken(TokSpace, q, s[q..r.end], line)]
      && (forall k :: q <= k < r.end ==> s[k] in Blanks)
      && (r.end == |s| || s[r.end] !in Blanks)
  {
  }

  /** The end of a run of line breaks: each '\r' in it comes right before
   * a '\n'. */
  lemma {:induction false} NewlineRunShape(s: string, p: nat)
    requires p <= |s|
    ensures forall k :: p <= k < NewlineRunEnd(s, p) ==> s[k] in LineEnds
    ensures forall k :: p <= k < NewlineRunEnd(s, p) && s[k] == '\r' ==> k + 1 < NewlineRunEnd(s, p) && s[k + 1] == '\n'
    decreases |s| - p
  {
    if p < |s| && s[p] == '\n' {
      NewlineRunShape(s, p + 1);
    } else if p + 1 < |s| && s[p] == '\r' && s[p + 1] == '\n' {
      NewlineRunShape(s, p + 2);
    }
  }

  /** A run of "\n" and "\r\n" is one newline token, whatever came before
   * it; at a '\r' that no '\n' follows the token is empty and the lexer
   * goes round for ever. */
  lemma NewlineRun(s: string, q: nat, d: Depths, line: int)
    requires q < |s| && s[q] in LineEnds && NonNegative(d)
    ensures CodeSpec(s, q, q, d, line) == Step(Newline, q, q, d, [])
    ensures var r := NewlineSpec(s, q, q, d, line);
      (r.next == Stuck <==> s[q] == '\r' && !(q + 1 < |s| && s[q + 1] == '\n'))
      && (r.next == Stuck ==> r.end == q && r.emitted == [UtilsToken(TokNewline, q, "", line)])
      && (r.next != Stuck ==>
            r.next == Code && q < r.end && r.emitted == [UtilsToken(TokNewline, q, s[q..r.end], line)]
            && (forall k :: q <= k < r.end ==> s[k] in LineEnds)
            && (forall k :: q <= k < r.end && s[k] == '\r' ==> k + 1 < r.end && s[k + 1] == '\n'))
  {
    NewlineRunShape(s, q);
    assert s[q..q] == "";
  }

  /** A '+' or '-' right before a digit starts a number. */
  lemma SignedNumber(s: string, q: nat, start: nat, d: Depths, line: int)
    requires start <= q && q + 1 < |s| && s[q] in "+-" && IsDecimalDigit(s[q + 1]) && NonNegative(d)
    ensures CodeSpec(s, q, start, d, line) == Step(Number, q, start, d, [])
    ensures var r := NumberSpec(s, q, q, d, line);
      q + 1 < r.end
      && (r.next == Code ==> r.emitted == [UtilsToken(TokNumber, q, s[q..r.end], line)])
      && (r.next == Stopped ==> r.emitted[0].typ == TokError)
  {
    var c := s[q];
    assert c !in Blanks && c !in LineEnds && c != ':' && c != '|' && c != '&' && c != '"' && c != '`';
    assert CodeSpec(s, q, start, d, line) == SymbolSpec(s, q, start, d, line);
    assert TokenLexer.NumberSyntax(s, q + 1).0 > q + 1;
  }

  /** "1-2" is the number 1, sent on its own, then the number -2: in
   * `lexCode` the '-' before the '2' starts a number, not an operator. */
  lemma OneMinusTwo()
    ensures CodeSpec("1-2", 0, 0, Depths(0, 0, 0), 0) == Step(Number, 0, 0, Depths(0, 0, 0), [])
    ensures NumberSpec("1-2", 0, 0, Depths(0, 0, 0), 0) == Step(Code, 1, 1, Depths(0, 0, 0), [UtilsToken(TokNumber, 0, "1", 0)])
    ensures CodeSpec("1-2", 1, 1, Depths(0, 0, 0), 0) == Step(Number, 1, 1, Depths(0, 0, 0), [])
    ensures NumberSpec("1-2", 1, 1, Depths(0, 0, 0), 0) == Step(Code, 3, 3, Depths(0, 0, 0), [UtilsToken(TokNumber, 1, "-2", 0)])
  {
    var s, d := "1-2", Depths(0, 0, 0);
    assert |s| == 3 && s[0] == '1' && s[1] == '-' && s[2] == '2';
    assert CodeSpec(s, 0, 0, d, 0) == SymbolSpec(s, 0, 0, d, 0);
    SignedNumber(s, 1, 1, d, 0);
    OneMinusTwoNumbers(s);
  }

  /** The two number steps of "1-2". */
  lemma OneMinusTwoNumbers(s: string)
    requires s == "1-2"
    ensures NumberSyntax(s, 0) == (1, true) && s[0..1] == "1"
    ensures NumberSyntax(s, 1) == (3, true) && s[1..3] == "-2"
  {
    assert |s| == 3 && s[0] == '1' && s[1] == '-' && s[2] == '2';
    assert At(s, 1) == Ch('-') && At(s, 3) == Eof;
    assert RunEnd(s, 0, TokenLexer.Digits) == 1 by {
      assert RunEnd(s, 1, TokenLexer.Digits) == 1;
    }
    assert TokenLexer.ExponentEnd(s, TokenLexer.MantissaEnd(s, 0)) == 1;
    assert RunEnd(s, 2, TokenLexer.Digits) == 3 by {
      assert RunEnd(s, 3, TokenLexer.Digits) == 3;
    }
    assert TokenLexer.ExponentEnd(s, TokenLexer.MantissaEnd(s, 2)) == 3;
  }

  /** A closing bracket in `lexCode` is a closer step. */
  lemma CodeCloser(s: string, q: nat, start: nat, d: Depths, line: int)
    requires start <= q < |s| && s[q] in ")}]" && NonNegative(d)
    ensures CodeSpec(s, q, start, d, line) == CloserSpec(s, q, start, d, line)
  {
    var c := s[q];
    assert c !in Blanks && c !in LineEnds && c != ':' && c != '|' && c != '&' && c != '"' && c != '`';
    assert CodeSpec(s, q, start, d, line) == SymbolSpec(s, q, start, d, line);
    assert c != '.' && !IsDecimalDigit(c) && c !in "+-*%=!<>/" && !IsAlphaNumeric(c);
    assert SymbolSpec(s, q, start, d, line) == BracketSpec(s, q, start, d, line);
  }

  /** A closer is sent first, with its depth one down after it; an error
   * follows, ending the run, exactly when that depth was zero. */
  lemma CloserDepth(s: string, q: nat, start: nat, d: Depths, line: int)
    requires start <= q < |s| && s[q] in ")}]" && NonNegative(d)
    ensures var r := CodeSpec(s, q, start, d, line);
      var c := s[q];
      var depth := if c == ')' then d.paren else if c == '}' then d.brace else d.square;
      r.emitted[0] == UtilsToken(if c == ')' then TokRightParen else if c == '}' then TokRightBrace else TokRightSquare,
                                 start, s[start..q + 1], line)
      && r.end == q + 1
      && (c == ')' ==> r.depths == d.(paren := d.paren - 1))
      && (c == '}' ==> r.depths == d.(brace := d.brace - 1))
      && (c == ']' ==> r.depths == d.(square := d.square - 1))
      && (depth == 0 <==> r.next == Stopped)
      && (depth == 0 ==> r.emitted == [r.emitted[0], UtilsToken(TokError, q + 1, UnexpectedCloser(c), line)])
      && (depth != 0 ==> r.next == Code && |r.emitted| == 1)
  {
    CodeCloser(s, q, start, d, line);
  }

  /** At the end of input, EOF only when no bracket is open; otherwise the
   * first open kind, in the order paren, brace, square, is reported. */
  lemma EofOrder(s: string, start: nat, d: Depths, line: int)
    requires start <= |s|
    ensures var r := EofSpec(s, start, d, line);
      r.next == Stopped && |r.emitted| == 1
      && (r.emitted[0].typ == TokEOF <==> d.paren == 0 && d.brace == 0 && d.square == 0)
      && (d.paren != 0 ==> r.emitted[0].value == UnclosedParen)
      && (d.paren == 0 && d.brace != 0 ==> r.emitted[0].value == UnclosedBrace)
      && (d.paren == 0 && d.brace == 0 && d.square != 0 ==> r.emitted[0].value == UnclosedSquare)
      && (r.emitted[0].typ != TokEOF ==> r.emitted[0].typ == TokError)
  {
  }

  /** A '.' before a non-digit starts a property: the '.' and the word
   * after it are one token when a terminator follows the word; a
   * terminator right after the '.', or a word not followed by one, is a
   * bad character. */
  lemma PropertyDot(s: string, q: nat, d: Depths, line: int)
    requires q + 1 < |s| && s[q] == '.' && !IsDecimalDigit(s[q + 1]) && NonNegative(d)
    ensures CodeSpec(s, q, q, d, line) == Step(Property, q + 1, q, d, [])
    ensures var r := PropertySpec(s, q + 1, q, d, line);
      (IsTerminator(Ch(s[q + 1])) ==> r == Failing(Stopped, q + 1, q, d, BadCharacter(s[q + 1]), line))
      && (r.next == Code ==>
            q + 1 < r.end && r.emitted == [UtilsToken(TokProperty, q, s[q..r.end], line)]
            && (forall k :: q + 1 <= k < r.end ==> IsAlphaNumeric(s[k]))
            && IsTerminator(At(s, r.end)))
      && (r.next != Code ==> r.next == Stopped && r.emitted[0].typ == TokError)
  {
    var c := s[q];
    assert c !in Blanks && c !in LineEnds && c != ':' && c != '|' && c != '&' && c != '"' && c != '`';
    assert CodeSpec(s, q, q, d, line) == SymbolSpec(s, q, q, d, line);
  }

  /** A '"' or a '`' in `lexCode` opens a string, nothing sent yet. */
  lemma CodeOpensString(s: string, q: nat, start: nat, d: Depths, line: int)
    requires start <= q < |s| && s[q] in "\"`" && NonNegative(d)
    ensures CodeSpec(s, q, start, d, line) == Step(if s[q] == '"' then Quoted else Raw, q + 1, start, d, [])
  {
  }

  /** A closed quoted string is one token that keeps both its quotes. */
  lemma QuotedKeepsQuotes(s: string, q: nat, d: Depths, line: int)
    requires q < |s| && s[q] == '"' && NonNegative(d)
    ensures var r := QuotedSpec(s, q + 1, q, d, line);
      r.next == Code ==>
        |r.emitted| == 1 && r.emitted[0].typ == TokQuotedString && r.emitted[0].pos == q
        && var v := r.emitted[0].value;
        v == s[q..r.end] && |v| >= 2 && v[0] == '"' && v[|v| - 1] == '"'
  {
    var r := QuotedSpec(s, q + 1, q, d, line);
    match QuoteScan(s, q + 1)
    case Closed(k) =>
      ClosedQuote(s, q + 1, q, d, line, k);
      QuotedText(s, q, k, d, line);
    case Broken(_) =>
      assert r.next == Stopped;
    case Forever =>
      assert r.next == Stuck;
  }

  lemma ClosedQuote(s: string, p: nat, start: nat, d: Depths, line: int, k: nat)
    requires start <= p <= |s| && NonNegative(d) && QuoteScan(s, p) == TokenLexer.Closed(k)
    ensures QuotedSpec(s, p, start, d, line) == StringStep(s, start, k + 1, d, TokQuotedString, line)
  {
  }

  lemma QuotedText(s: string, q: nat, k: nat, d: Depths, line: int)
    requires q < k < |s| && s[q] == '"' && s[k] == '"'
    ensures var r := StringStep(s, q, k + 1, d, TokQuotedString, line);
      |r.emitted| == 1 && r.emitted[0].typ == TokQuotedString && r.emitted[0].pos == q
      && var v := r.emitted[0].value;
      v == s[q..r.end] && |v| >= 2 && v[0] == '"' && v[|v| - 1] == '"'
  {
  }

  /** A backslash as the last rune is reported on the opening quote's
   * line; a string still open at the end of input spins. */
  lemma QuotedUnterminated(s: string, q: nat, d: Depths, line: int)
    requires q < |s| && s[q] == '"' && NonNegative(d)
    ensures var r := QuotedSpec(s, q + 1, q, d, line);
      (r.next == Stopped ==> s[|s| - 1] == '\\' && r.emitted == [UtilsToken(TokError, q, UnterminatedQuote, line)])
      && (r.next == Stuck ==> r.emitted == [])
  {
    QuotedOutcome(s, q + 1, q, d, line);
  }

  /** A closed raw string is one token that keeps both its '`'s and
   * holds none between them. */
  lemma RawKeepsTicks(s: string, q: nat, d: Depths, line: int)
    requires q < |s| && s[q] == '`' && NonNegative(d)
    ensures var r := RawSpec(s, q + 1, q, d, line);
      r.next == Code ==>
        |r.emitted| == 1 && r.emitted[0].typ == TokRawString && r.emitted[0].pos == q
        && var v := r.emitted[0].value;
        v == s[q..r.end] && |v| >= 2 && v[0] == '`' && v[|v| - 1] == '`'
        && forall i :: 0 < i < |v| - 1 ==> v[i] != '`'
  {
    match ScanLexer.IndexFrom(s, q + 1, '`')
    case None =>
    case Some(k) =>
      assert RawSpec(s, q + 1, q, d, line) == StringStep(s, q, k + 1, d, TokRawString, line);
      TickedText(s, q, k);
  }

  lemma TickedText(s: string, q: nat, k: nat)
    requires q < k < |s| && s[q] == '`' && s[k] == '`'
    requires forall j :: q + 1 <= j < k ==> s[j] != '`'
    ensures var v := s[q..k + 1];
      |v| >= 2 && v[0] == '`' && v[|v| - 1] == '`' && forall i :: 0 < i < |v| - 1 ==> v[i] != '`'
  {
    var v := s[q..k + 1];
    assert forall i :: 0 < i < |v| - 1 ==> v[i] == s[q + i];
  }

  /** With no closing '`' a raw string is one error. */
  lemma RawUnterminated(s: string, q: nat, d: Depths, line: int)
    requires q < |s| && s[q] == '`' && NonNegative(d)
    ensures var r := RawSpec(s, q + 1, q, d, line);
      (r.next == Stopped <==> forall k :: q + 1 <= k < |s| ==> s[k] != '`')
      && (r.next == Stopped ==> r.emitted == [UtilsToken(TokError, q, UnterminatedRaw, line)])
  {
  }

  /** A run that halts ends with EOF or an error, and EOF comes at most
   * once, as the last token. */
  predicate EndsWell(o: Outcome)
  {
    (o.halts ==> o.items != [] && o.items[|o.items| - 1].typ in {TokEOF, TokError})
    && (forall i :: 0 <= i < |o.items| - 1 ==> o.items[i].typ != TokEOF)
  }

  /** A halting run ends with EOF or an error, and sends EOF at most once,
   * as its last token. */
  lemma {:induction false} TraceEnds(s: string, cur: State, q: nat, start: nat, d: Depths)
    requires ReadyAt(s, cur, q, start, d) && cur != Stopped && cur != Stuck
    ensures EndsWell(Trace(s, cur, q, start, d))
    decreases 2 * (|s| - q) + Rank(cur), 1
  {
    ContinueEnds(s, cur, q, StepSpec(s, cur, q, start, d, 0));
  }

  lemma {:induction false} ContinueEnds(s: string, cur: State, q: nat, r: Step)
    requires q <= |s| && cur != Stopped && cur != Stuck && Progress(s, cur, q, r)
    ensures EndsWell(Continue(s, cur, q, r))
    decreases 2 * (|s| - q) + Rank(cur), 0
  {
    if r.next == Stopped || r.next == Stuck {
      EndsStop(r.emitted, r.next == Stopped);
    } else {
      TraceEnds(s, r.next, r.end, r.start, r.depths);
      EndsJoin(r.emitted, Trace(s, r.next, r.end, r.start, r.depths));
    }
  }

  /** The tokens of the last step: EOF only last, and EOF or an error
   * last when the run ends. */
  lemma EndsStop(e: seq<UtilsToken>, halts: bool)
    requires halts ==> e != [] && e[|e| - 1].typ in {TokEOF, TokError}
    requires forall i :: 0 <= i < |e| && e[i].typ == TokEOF ==> i == |e| - 1
    ensures EndsWell(Outcome(Strip(e), halts))
  {
  }

  /** Tokens with no EOF among them, before a run that ends well. */
  lemma EndsJoin(e: seq<UtilsToken>, rest: Outcome)
    requires forall i :: 0 <= i < |e| ==> e[i].typ != TokEOF
    requires EndsWell(rest)
    ensures EndsWell(Outcome(Strip(e) + rest.items, rest.halts))
  {
    var o := Strip(e) + rest.items;
    assert forall i :: 0 <= i < |o| - 1 ==> o[i] == if i < |e| then Strip(e)[i] else rest.items[i - |e|];
  }
}
