/**
 * Properties of `ScanSpec`, the function that says what one `Scan` of
 * lang/lexer/lexer.go produces, and of a run of successive scans.
 */
module ScanProps {
  import opened Runes
  import opened ScanLexer
  import opened TokenErrors

  /** Up to `n` successive scans from cursor `p`, each starting where the
   * previous one ended, with the bracket stack and previous token type it
   * left; a scan that never returns ends the run. */
  function ScanRun(s: string, p: nat, stack: seq<char>, prev: Kind, lox: bool, n: nat): (rs: seq<Scanned>)
    requires p <= |s|
    decreases n
    ensures |rs| <= n
  {
    if n == 0 then []
    else
      var r := ScanSpec(s, p, stack, prev, lox);
      if r.Diverges? then [r] else [r] + ScanRun(s, r.end, r.stack, r.kind, lox, n - 1)
  }

  /** Once the input is exhausted, every scan returns an EOF token with
   * empty text; each of the first |stack| of them pops one opener, innermost
   * first, and reports it as unclosed, and later ones report nothing. */
  lemma {:induction false} ExhaustedInput(s: string, stack: seq<char>, prev: Kind, lox: bool, n: nat)
    ensures var rs := ScanRun(s, |s|, stack, prev, lox, n);
      |rs| == n
      && (forall i :: 0 <= i < n ==> rs[i].Scanned? && rs[i].kind == EOF && rs[i].value == "" && rs[i].end == |s|)
      && (forall i :: 0 <= i < n && i < |stack| ==> rs[i].errors == [UnclosedLeft(stack[|stack| - 1 - i])])
      && (forall i :: |stack| <= i < n ==> rs[i].errors == [])
    decreases n
  {
    if n > 0 {
      var r := ScanSpec(s, |s|, stack, prev, lox);
      assert RunEnd(s, |s|, Blanks) == |s|;
      assert r == AfterBlanks(s, |s|, stack, prev, lox);
      var rest := if stack == [] then stack else Pop(stack);
      assert r == Scanned(EOF, "", |s|, rest, if stack == [] then [] else [UnclosedLeft(Top(stack))]);
      ExhaustedInput(s, rest, EOF, lox, n - 1);
      var rs := ScanRun(s, |s|, stack, prev, lox, n);
      assert rs == [r] + ScanRun(s, |s|, rest, EOF, lox, n - 1);
      forall i | 1 <= i < n && i < |stack|
        ensures rs[i].errors == [UnclosedLeft(stack[|stack| - 1 - i])]
      {
        assert rest[|rest| - 1 - (i - 1)] == stack[|stack| - 1 - i];
      }
    }
  }

  /** With a previous token type that does not end a statement, no scan
   * yields the SEMICOLON a line break would insert. */
  lemma {:induction false} NoInsertedSemicolon(s: string, p: nat, stack: seq<char>, prev: Kind, lox: bool)
    requires p <= |s| && !AsiAfter(prev, lox)
    ensures var r := ScanSpec(s, p, stack, prev, lox);
      r.Scanned? ==> !(r.kind == SEMICOLON && r.value == "\n")
    decreases |s| - p
  {
    var q := RunEnd(s, p, Blanks);
    if q < |s| {
      var c := s[q];
      assert ScanSpec(s, p, stack, prev, lox) == TokenAt(s, q, stack, prev, lox);
      if IsWordStart(c) || IsDecimalDigit(c) {
      } else if c == '\n' {
        NoInsertedSemicolon(s, RunEnd(s, q + 1, "\n"), stack, prev, lox);
      } else if c == '/' && At(s, q + 1) == Ch('/') {
        NoInsertedSemicolon(s, LineCommentEnd(s, q + 1), stack, prev, lox);
      } else if c == '/' && At(s, q + 1) == Ch('*') {
        NoInsertedSemicolon(s, BlockCommentEnd(s, q + 1), stack, prev, lox);
      } else {
        assert TokenAt(s, q, stack, prev, lox) == PunctSpec(s, q, stack, prev, lox);
        PunctSemicolon(s, q, stack, prev, lox);
      }
    }
  }

  /** A SEMICOLON that `lexCode`'s punctuation cases give is spelled with
   * the one rune it was read from, ';' or '}'. */
  lemma PunctSemicolon(s: string, q: nat, stack: seq<char>, prev: Kind, lox: bool)
    requires q < |s|
    ensures var r := PunctSpec(s, q, stack, prev, lox);
      r.Scanned? && r.kind == SEMICOLON ==> r.value == s[q..q + 1] && s[q] in ";}"
  {
  }

  /** Automatic semicolon insertion: when the first rune after the blanks is
   * a line break, the scan yields a SEMICOLON spelled "\n" that covers the
   * whole run of line breaks exactly when the previous token type ends a
   * statement; otherwise the run yields no token and scanning resumes after
   * it. */
  lemma NewlineRun(s: string, p: nat, q: nat, stack: seq<char>, prev: Kind, lox: bool)
    requires p <= |s| && q == RunEnd(s, p, Blanks) && q < |s| && s[q] == '\n'
    ensures var r := ScanSpec(s, p, stack, prev, lox);
      (AsiAfter(prev, lox) ==> r == Scanned(SEMICOLON, "\n", RunEnd(s, q + 1, "\n"), stack, []))
      && (!AsiAfter(prev, lox) ==>
            r == ScanSpec(s, RunEnd(s, q + 1, "\n"), stack, prev, lox)
            && !(r.Scanned? && r.kind == SEMICOLON && r.value == "\n"))
  {
    assert ScanSpec(s, p, stack, prev, lox) == TokenAt(s, q, stack, prev, lox);
    if !AsiAfter(prev, lox) {
      NoInsertedSemicolon(s, RunEnd(s, q + 1, "\n"), stack, prev, lox);
    }
  }

  /** `)` and `]` always yield their own type and consume one rune; a
   * non-empty stack is popped, and exactly one error is recorded when the
   * stack was empty or the popped opener does not match. */
  lemma RoundOrSquareCloser(s: string, p: nat, q: nat, stack: seq<char>, prev: Kind, lox: bool)
    requires p <= |s| && q == RunEnd(s, p, Blanks) && q < |s| && (s[q] == ')' || s[q] == ']')
    ensures var r := ScanSpec(s, p, stack, prev, lox);
      var opener := if s[q] == ')' then '(' else '[';
      r.Scanned? && r.kind == (if s[q] == ')' then RROUND else RSQUARE)
      && r.value == s[q..q + 1] && r.end == q + 1
      && r.stack == (if stack == [] then [] else Pop(stack))
      && (r.errors == [UnexpectedRight(s[q])] <==> stack == [] || Top(stack) != opener)
      && (r.errors == [] <==> stack != [] && Top(stack) == opener)
  {
    assert ScanSpec(s, p, stack, prev, lox) == TokenAt(s, q, stack, prev, lox);
    assert TokenAt(s, q, stack, prev, lox) == PunctSpec(s, q, stack, prev, lox);
  }

  /** `}` closing a '{' right after a token other than SEMICOLON yields a
   * SEMICOLON spelled "}" that consumes the brace and pops its opener, so
   * no RCURLY is ever produced for that brace. Otherwise `}` yields RCURLY,
   * with one error when the stack was empty or the popped opener is not
   * '{'. */
  lemma CurlyCloser(s: string, p: nat, q: nat, stack: seq<char>, prev: Kind, lox: bool)
    requires p <= |s| && q == RunEnd(s, p, Blanks) && q < |s| && s[q] == '}'
    ensures var r := ScanSpec(s, p, stack, prev, lox);
      r.Scanned? && r.value == "}" && r.end == q + 1
      && r.stack == (if stack == [] then [] else Pop(stack))
      && (r.kind == SEMICOLON <==> stack != [] && Top(stack) == '{' && prev != SEMICOLON)
      && (r.kind != SEMICOLON ==> r.kind == RCURLY)
      && (r.errors == [UnexpectedRight('}')] <==> stack == [] || Top(stack) != '{')
      && (r.errors == [] <==> stack != [] && Top(stack) == '{')
  {
    assert ScanSpec(s, p, stack, prev, lox) == TokenAt(s, q, stack, prev, lox);
    assert TokenAt(s, q, stack, prev, lox) == PunctSpec(s, q, stack, prev, lox);
    assert s[q..q + 1] == "}";
  }

  /** The finding at the '}' case, as written: over "{x}" the scans give
   * LCURLY, NAME, a SEMICOLON spelled "}" that swallows the brace, then
   * EOF, so the block is never closed by an RCURLY token. */
  lemma BraceBlockAsWritten(prev: Kind, lox: bool)
    ensures ScanSpec("{x}", 0, [], prev, lox) == Scanned(LCURLY, "{", 1, ['{'], [])
    ensures ScanSpec("{x}", 1, ['{'], LCURLY, lox) == Scanned(NAME, "x", 2, ['{'], [])
    ensures ScanSpec("{x}", 2, ['{'], NAME, lox) == Scanned(SEMICOLON, "}", 3, [], [])
    ensures ScanSpec("{x}", 3, [], SEMICOLON, lox) == Scanned(EOF, "", 3, [], [])
  {
    var s := "{x}";
    assert s[0..1] == "{" && s[1..2] == "x" && s[2..3] == "}";
    assert RunEnd(s, 0, Blanks) == 0 && RunEnd(s, 1, Blanks) == 1;
    assert RunEnd(s, 2, Blanks) == 2 && RunEnd(s, 3, Blanks) == 3;
    assert WordEnd(s, 1) == 2;
    assert KeywordKind("x") == None;
    CurlyCloser(s, 2, 2, ['{'], NAME, lox);
  }

  /** The evident intent at a '}': where a statement needs ending, a
   * SEMICOLON ";" is inserted without consuming the brace or popping its
   * opener; the brace is then read as written, after that semicolon. */
  function CurlyIntended(s: string, q: nat, stack: seq<char>, prev: Kind): (rs: seq<Scanned>)
    requires q < |s|
  {
    if stack != [] && Top(stack) == '{' && prev != SEMICOLON then
      [Scanned(SEMICOLON, ";", q, stack, []), CurlySpec(s, q, stack, SEMICOLON)]
    else [CurlySpec(s, q, stack, prev)]
  }

  /** Under the corrected rule every '}' gives exactly one RCURLY, its own
   * text, as the last token, with the stack and errors the source leaves;
   * a ";" comes first exactly where the source sends its SEMICOLON. */
  lemma CurlyIntendedSpec(s: string, q: nat, stack: seq<char>, prev: Kind)
    requires q < |s| && s[q] == '}'
    ensures var rs := CurlyIntended(s, q, stack, prev);
      var last := rs[|rs| - 1];
      var w := CurlySpec(s, q, stack, prev);
      last == Scanned(RCURLY, "}", q + 1, w.stack, w.errors) &&
      (|rs| == 2 <==> w.kind == SEMICOLON) &&
      (|rs| == 2 ==> rs[0] == Scanned(SEMICOLON, ";", q, stack, [])) &&
      forall k :: 0 <= k < |rs| - 1 ==> rs[k].kind != RCURLY
  {
    assert s[q..q + 1] == "}";
  }

  /** On "{x}" the corrected rule gives the SEMICOLON ";" then RCURLY "}"
   * that the (commented-out) brace case of lang/lexer/lexer_test.go lists
   * after `y`. */
  lemma BraceBlockIntended()
    ensures CurlyIntended("{x}", 2, ['{'], NAME) ==
      [Scanned(SEMICOLON, ";", 2, ['{'], []), Scanned(RCURLY, "}", 3, [], [])]
  {
    assert "{x}"[2..3] == "}";
  }

  /** The operator runes handled by `scan2`, with their one- and two-rune
   * types. */
  predicate Scan2Rune(c: char, typ0: Kind, typ1: Kind)
  {
    (c == '+' && typ0 == PLUS && typ1 == PLUSASSIGN)
    || (c == '-' && typ0 == MINUS && typ1 == MINUSASSIGN)
    || (c == '*' && typ0 == MULT && typ1 == MULTASSIGN)
    || (c == '%' && typ0 == MOD && typ1 == MODASSIGN)
    || (c == '=' && typ0 == ASSIGN && typ1 == EQ)
    || (c == '!' && typ0 == LOGICALNOT && typ1 == NEQ)
    || (c == '<' && typ0 == SM && typ1 == SMEQ)
    || (c == '>' && typ0 == GR && typ1 == GREQ)
    || (c == '/' && typ0 == DIV && typ1 == DIVASSIGN)
  }

  /** `scan2`: an '=' after the operator rune is consumed and the two-rune
   * type returned; otherwise the one-rune type, consuming nothing more. A
   * '/' starting a comment is not an operator. */
  lemma Scan2Operator(s: string, p: nat, q: nat, stack: seq<char>, prev: Kind, lox: bool, typ0: Kind, typ1: Kind)
    requires p <= |s| && q == RunEnd(s, p, Blanks) && q < |s| && Scan2Rune(s[q], typ0, typ1)
    requires s[q] == '/' ==> At(s, q + 1) != Ch('/') && At(s, q + 1) != Ch('*')
    ensures var r := ScanSpec(s, p, stack, prev, lox);
      (At(s, q + 1) == Ch('=') ==> r == Scanned(typ1, s[q..q + 2], q + 2, stack, []))
      && (At(s, q + 1) != Ch('=') ==> r == Scanned(typ0, s[q..q + 1], q + 1, stack, []))
  {
    OperatorAt(s, p, q, stack, prev, lox);
    assert OperatorSpec(s, q, stack) == Scan2Spec(s, q, stack, typ0, typ1);
  }

  /** A scan that meets an operator rune after the blanks is `lexOperator`'s. */
  lemma OperatorAt(s: string, p: nat, q: nat, stack: seq<char>, prev: Kind, lox: bool)
    requires p <= |s| && q == RunEnd(s, p, Blanks) && q < |s| && s[q] in "|&+-*%=!<>/"
    requires s[q] == '/' ==> At(s, q + 1) != Ch('/') && At(s, q + 1) != Ch('*')
    ensures ScanSpec(s, p, stack, prev, lox) == OperatorSpec(s, q, stack)
  {
    assert ScanSpec(s, p, stack, prev, lox) == TokenAt(s, q, stack, prev, lox);
    assert TokenAt(s, q, stack, prev, lox) == PunctSpec(s, q, stack, prev, lox);
  }

  /** A lone `|` or `&` still yields LOGICALOR or LOGICALAND, records exactly
   * one error, and consumes the rune after it; a doubled one records none. */
  lemma LogicalOperator(s: string, p: nat, q: nat, stack: seq<char>, prev: Kind, lox: bool)
    requires p <= |s| && q == RunEnd(s, p, Blanks) && q < |s| && (s[q] == '|' || s[q] == '&')
    ensures var r := ScanSpec(s, p, stack, prev, lox);
      r.Scanned? && r.kind == (if s[q] == '|' then LOGICALOR else LOGICALAND)
      && r.end == (if q + 1 < |s| then q + 2 else q + 1) && r.stack == stack
      && (At(s, q + 1) == Ch(s[q]) ==> r.errors == [])
      && (At(s, q + 1) != Ch(s[q]) ==> r.errors == [UnexpectedToken(s[q])])
  {
    OperatorAt(s, p, q, stack, prev, lox);
  }

  /** A line comment is skipped through its line break, so that line break
   * inserts no semicolon: the scan is the one from just past it. */
  lemma LineComment(s: string, p: nat, q: nat, i: nat, stack: seq<char>, prev: Kind, lox: bool)
    requires p <= |s| && q == RunEnd(s, p, Blanks) && q + 1 < |s| && s[q] == '/' && s[q + 1] == '/'
    requires IndexFrom(s, q + 2, '\n') == Some(i)
    ensures ScanSpec(s, p, stack, prev, lox) == ScanSpec(s, i + 1, stack, prev, lox)
  {
    assert ScanSpec(s, p, stack, prev, lox) == TokenAt(s, q, stack, prev, lox);
    assert IndexFrom(s, q + 1, '\n') == IndexFrom(s, q + 2, '\n');
  }

  /** Where no star-slash pair starts at or after `p`, a block comment runs
   * to the end of input. */
  lemma {:induction false} BlockCommentToEnd(s: string, p: nat)
    requires p < |s|
    requires forall k :: p <= k < |s| - 1 ==> !(s[k] == '*' && s[k + 1] == '/')
    ensures BlockCommentEnd(s, p) == |s|
    decreases |s| - p
  {
    if p + 1 < |s| {
      BlockCommentToEnd(s, p + 1);
    }
  }

  /** A block comment ends just past the first star-slash pair after its
   * opener; one that is never closed runs silently to the end of input,
   * where the scan yields EOF with no error beyond an unclosed bracket. */
  lemma BlockComment(s: string, p: nat, q: nat, stack: seq<char>, prev: Kind, lox: bool)
    requires p <= |s| && q == RunEnd(s, p, Blanks) && q + 1 < |s| && s[q] == '/' && s[q + 1] == '*'
    ensures ScanSpec(s, p, stack, prev, lox) == ScanSpec(s, BlockCommentEnd(s, q + 1), stack, prev, lox)
    ensures (forall k :: q + 1 <= k < |s| - 1 ==> !(s[k] == '*' && s[k + 1] == '/')) ==>
      var r := ScanSpec(s, p, stack, prev, lox);
      r.Scanned? && r.kind == EOF && r.end == |s|
      && r.errors == (if stack == [] then [] else [UnclosedLeft(Top(stack))])
  {
    assert ScanSpec(s, p, stack, prev, lox) == TokenAt(s, q, stack, prev, lox);
    if forall k :: q + 1 <= k < |s| - 1 ==> !(s[k] == '*' && s[k + 1] == '/') {
      BlockCommentToEnd(s, q + 1);
      assert RunEnd(s, |s|, Blanks) == |s|;
      assert ScanSpec(s, |s|, stack, prev, lox) == AfterBlanks(s, |s|, stack, prev, lox);
    }
  }

  /** A decimal literal is INT unless it has a fraction. */
  lemma DecimalLiterals()
    ensures NumberScan("123 ", 0) == NumberScanned(3, INT, [])
    ensures NumberScan(".345 ", 0) == NumberScanned(4, FLOAT, [])
    ensures NumberScan("1.234 ", 0) == NumberScanned(5, FLOAT, [])
  {
  }

  /** Hexadecimal and octal literals are INT. */
  lemma HexLiteral()
    ensures NumberScan("0x1237A ", 0) == NumberScanned(7, INT, [])
  {
  }

  lemma OctalLiteral()
    ensures NumberScan("012374", 0) == NumberScanned(6, INT, [])
  {
  }
}
