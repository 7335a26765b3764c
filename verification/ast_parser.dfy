/**
 * lang/parser/parser.go: the expression parser over the `token.Lexer`
 * stream. The lexer is the token sequence `ts`; reading past its end
 * yields its final EOF again and again.
 *
 * The grammar is given by pure functions over (ts, index) — one per
 * precedence level, a `LevelTail` for each level's `for p.match(...)` loop,
 * `Unary` and `Primary` — and the `Parser` class's methods are proved to
 * follow them. A panic is the `Failed` result, carrying the one error
 * recorded before it.
 */
module AstParser {
  import opened Tok
  import opened TokenErrors
  import opened SyntaxErrors
  import Runes

  /** A lexer stream: non-empty and ending in EOF. */
  predicate Terminated(ts: seq<Token>)
  {
    |ts| > 0 && ts[|ts| - 1].typ == EOF
  }

  /** The `i`-th token the lexer hands out; past the end, its final EOF. */
  function At(ts: seq<Token>, i: nat): (t: Token)
    requires Terminated(ts)
  {
    if i < |ts| then ts[i] else ts[|ts| - 1]
  }

  // ---------------------------------------------------------------------
  // Trees

  /** The value of a `BasicLit`: false, true, nil, or the token's text, as
   * this parser builds them; `LitNum` is a float64 value, which a `BasicLit`
   * may hold although this parser never stores one. */
  datatype Lit = LitFalse | LitTrue | LitNull | LitText(text: string) | LitNum(n: real)

  datatype Expr =
    | BinExpr(left: Expr, op: Token, right: Expr)
    | UnExpr(op: Token, operand: Expr)
    | GrpExpr(lround: Token, expression: Expr, rround: Token)
    | BasicLit(value: Lit, token: Token)

  /** The tokens a tree was built from, left to right. */
  function Tokens(e: Expr): seq<Token>
  {
    match e
    case BinExpr(l, op, r) => Tokens(l) + [op] + Tokens(r)
    case UnExpr(op, x) => [op] + Tokens(x)
    case GrpExpr(lr, x, rr) => [lr] + Tokens(x) + [rr]
    case BasicLit(_, t) => [t]
  }

  /** The precedence level of a binary operator: equality 0, comparison 1,
   * additive 2, multiplicative 3; 4 for anything else. */
  function BinLevel(t: Type): (lvl: nat)
    ensures lvl <= 4
  {
    if t in [EQ, NEQ] then 0
    else if t in [SM, SMEQ, GR, GREQ] then 1
    else if t in [PLUS, MINUS] then 2
    else if t in [MULT, DIV, MOD] then 3
    else 4
  }

  /** A tree as the precedence levels shape it: a binary node at level
   * `lvl` or above has an operator of that level or a tighter one, its left
   * operand shaped at the operator's level and its right operand at the next
   * one (so equal operators nest to the left); unary and grouped nodes start
   * afresh. A literal holds what this parser stores, never a float64. */
  predicate Shaped(e: Expr, lvl: nat)
  {
    match e
    case BinExpr(l, op, r) =>
      lvl <= BinLevel(op.typ) < 4 && Shaped(l, BinLevel(op.typ)) && Shaped(r, BinLevel(op.typ) + 1)
    case UnExpr(_, x) => Shaped(x, 4)
    case GrpExpr(_, x, _) => Shaped(x, 0)
    case BasicLit(v, _) => !v.LitNum?
  }

  // ---------------------------------------------------------------------
  // The grammar

  datatype Parsed = Parsed(expr: Expr, next: nat) | Failed(err: WentError)

  /** The operators each level's loop matches, in the order it tries them. */
  function Ops(lvl: nat): seq<Type>
  {
    if lvl == 0 then [EQ, NEQ]
    else if lvl == 1 then [SM, SMEQ, GR, GREQ]
    else if lvl == 2 then [PLUS, MINUS]
    else [MULT, DIV, MOD]
  }

  /** What `match(types...)` accepts: never EOF, else one of the types. */
  predicate Matches(t: Token, types: seq<Type>)
  {
    t.typ != EOF && t.typ in types
  }

  /** What `errorExpected` appends after "expected <msg>" when the error is
   * at the lookahead. */
  function Found(la: Token): (s: string)
    ensures |s| > 8 && s[..8] == ", found "
  {
    if la.typ == SEMICOLON && la.value == "\n" then ", found newline"
    else ", found '" + TypeString(la.typ) + "'"
  }

  // ---------------------------------------------------------------------
  // fmt.Sprintf with no arguments

  /** Where the verb of a directive lies, its '%' being just before `i`:
   * past the flags, the width's digits and a precision (a '.' and its
   * digits); `|f|` when no verb follows. */
  function VerbIndex(f: string, i: nat): (v: nat)
    requires i <= |f|
    ensures i <= v <= |f|
  {
    var w := Runes.RunEnd(f, Runes.RunEnd(f, i, "#0+- "), "0123456789");
    if w < |f| && f[w] == '.' then Runes.RunEnd(f, w + 1, "0123456789") else w
  }

  /** `fmt.Sprintf(format)` with no arguments: text outside directives is
   * kept, a `%` verb gives "%", any other verb `c` gives "%!c(MISSING)",
   * and a directive the end cuts off gives "%!(NOVERB)" and ends the text. */
  function Sprintf0(f: string): (s: string)
    decreases |f|
  {
    if f == [] then ""
    else if f[0] != '%' then [f[0]] + Sprintf0(f[1..])
    else
      var v := VerbIndex(f, 1);
      if v == |f| then "%!(NOVERB)"
      else (if f[v] == '%' then "%" else "%!" + [f[v]] + "(MISSING)") + Sprintf0(f[v + 1..])
  }

  /** Text without a '%' comes through unchanged, in front of whatever
   * follows it. */
  lemma {:induction false} Sprintf0Plain(a: string, b: string)
    requires '%' !in a
    ensures Sprintf0(a + b) == a + Sprintf0(b)
    decreases |a|
  {
    if a != [] {
      var ab := a + b;
      assert ab[0] == a[0] && ab[1..] == a[1..] + b;
      assert Sprintf0(ab) == [a[0]] + Sprintf0(a[1..] + b);
      Sprintf0Plain(a[1..], b);
      assert a == [a[0]] + a[1..];
      assert Sprintf0(ab) == [a[0]] + (a[1..] + Sprintf0(b));
    } else {
      assert a + b == b;
    }
  }

  /** The spellings of `%` and `%=`. */
  lemma PercentSpellings()
    ensures TypeString(MOD) == "%" && TypeString(MODASSIGN) == "%="
  {
    assert TokenTypes[MOD] == "%" && TokenTypes[MODASSIGN] == "%=";
  }

  /** `errorf` reads the rune after a '%' as a verb with no argument: the
   * quote of "%'" ... */
  lemma QuoteVerb()
    ensures Sprintf0("%'") == "%!'(MISSING)"
  {
    assert VerbIndex("%'", 1) == 1;
    assert Sprintf0("%'") == "%!" + "'" + "(MISSING)" + Sprintf0("");
  }

  /** ... and the '=' of "%='", the quote after it kept. */
  lemma EqualsVerb()
    ensures Sprintf0("%='") == "%!=(MISSING)" + "'"
  {
    assert VerbIndex("%='", 1) == 1;
    assert Sprintf0("%='") == "%!" + "=" + "(MISSING)" + Sprintf0("'");
    Sprintf0Plain("'", "");
  }

  /** A lookahead spelled "%" or "%=" has its found part mangled. */
  lemma FoundMangled(la: Token)
    requires la.typ == MOD || la.typ == MODASSIGN
    ensures la.typ == MOD ==> Sprintf0(Found(la)) == ", found '" + "%!'(MISSING)"
    ensures la.typ == MODASSIGN ==> Sprintf0(Found(la)) == ", found '" + "%!=(MISSING)" + "'"
  {
    var head := ", found '";
    PercentSpellings();
    if la.typ == MOD {
      assert Found(la) == head + "%" + "'";
      assert head + "%" + "'" == head + "%'";
      Sprintf0Plain(head, "%'");
      QuoteVerb();
    } else {
      assert Found(la) == head + "%=" + "'";
      assert head + "%=" + "'" == head + "%='";
      Sprintf0Plain(head, "%='");
      EqualsVerb();
    }
  }

  /** A found part holds a '%' only where the lookahead's spelling does. */
  lemma FoundPlain(la: Token)
    requires '%' !in TypeString(la.typ)
    ensures '%' !in Found(la)
  {
    if !(la.typ == SEMICOLON && la.value == "\n") {
      var head, tail := ", found '", "'";
      assert '%' !in head && '%' !in tail;
      assert Found(la) == head + TypeString(la.typ) + tail;
    }
  }

  /** The error `errorExpected(pos, msg)` records with lookahead `la`: the
   * message it builds goes through `errorf`'s `fmt.Sprintf` with no
   * arguments, which leaves it alone unless the lookahead's spelling holds
   * a '%'. */
  function ExpectedError(name: string, pos: Pos, msg: string, la: Token): (e: WentError)
    ensures e.errorName == SyntaxErrorName && e.input == name && e.pos == pos
    ensures '%' !in msg ==> e.msg == "expected " + msg + (if pos == la.pos then Sprintf0(Found(la)) else "")
    ensures '%' !in msg && '%' !in TypeString(la.typ) ==>
      e.msg == "expected " + msg + (if pos == la.pos then Found(la) else "")
  {
    var found := if pos == la.pos then Found(la) else "";
    if '%' !in msg then
      Sprintf0Plain("expected " + msg, found);
      assert Sprintf0("") == "";
      if '%' !in TypeString(la.typ) then
        FoundPlain(la);
        Sprintf0Plain(found, "");
        assert found + "" == found;
        NewSyntaxError(name, pos, Sprintf0("expected " + msg + found))
      else NewSyntaxError(name, pos, Sprintf0("expected " + msg + found))
    else NewSyntaxError(name, pos, Sprintf0("expected " + msg + found))
  }

  /** `equalityExpr` (lvl 0), `comparisonExpr` (1), `addExpr` (2), `multExpr` (3). */
  function Level(ts: seq<Token>, name: string, lvl: nat, i: nat): (r: Parsed)
    requires Terminated(ts) && lvl <= 3 && i < |ts|
    ensures r.Parsed? ==> i < r.next < |ts|
    decreases |ts| - i, 2 * (4 - lvl) + 3
  {
    var first := Operand(ts, name, lvl, i);
    if first.Failed? then first
    else LevelTail(ts, name, lvl, first.expr, first.next)
  }

  /** An operand of a level: the next tighter level, or a unary expression
   * below the multiplicative one. */
  function Operand(ts: seq<Token>, name: string, lvl: nat, i: nat): (r: Parsed)
    requires Terminated(ts) && lvl <= 3 && i < |ts|
    ensures r.Parsed? ==> i < r.next < |ts|
    decreases |ts| - i, 2 * (4 - lvl) + 2
  {
    if lvl < 3 then Level(ts, name, lvl + 1, i) else Unary(ts, name, i)
  }

  /** The loop of a level: while the lookahead is one of its operators,
   * consume it and the next operand, and make them the right operand of a
   * new node whose left operand is the tree so far. */
  function LevelTail(ts: seq<Token>, name: string, lvl: nat, left: Expr, i: nat): (r: Parsed)
    requires Terminated(ts) && lvl <= 3 && i < |ts|
    ensures r.Parsed? ==> i <= r.next < |ts|
    decreases |ts| - i, 0
  {
    var op := At(ts, i);
    if !Matches(op, Ops(lvl)) then Parsed(left, i)
    else
      var right := Operand(ts, name, lvl, i + 1);
      if right.Failed? then right
      else LevelTail(ts, name, lvl, BinExpr(left, op, right.expr), right.next)
  }

  /** One turn of a level's loop: its operator and the operand after it are
   * folded into the tree so far, or the operand's failure ends the level. */
  lemma TailTurn(ts: seq<Token>, name: string, lvl: nat, left: Expr, i: nat)
    requires Terminated(ts) && lvl <= 3 && i < |ts| && Matches(At(ts, i), Ops(lvl))
    ensures var right := Operand(ts, name, lvl, i + 1);
      LevelTail(ts, name, lvl, left, i) ==
        if right.Failed? then right
        else LevelTail(ts, name, lvl, BinExpr(left, At(ts, i), right.expr), right.next)
  {
  }

  /** `arithUnExpr`: prefix `+`/`-` nest to the right. */
  function Unary(ts: seq<Token>, name: string, i: nat): (r: Parsed)
    requires Terminated(ts) && i < |ts|
    ensures r.Parsed? ==> i < r.next < |ts|
    decreases |ts| - i, 1
  {
    var op := At(ts, i);
    if Matches(op, [PLUS, MINUS]) then
      var operand := Unary(ts, name, i + 1);
      if operand.Failed? then operand
      else Parsed(UnExpr(op, operand.expr), operand.next)
    else Primary(ts, name, i)
  }

  /** `primaryExpr`. */
  function Primary(ts: seq<Token>, name: string, i: nat): (r: Parsed)
    requires Terminated(ts) && i < |ts|
    ensures r.Parsed? ==> i < r.next < |ts|
    decreases |ts| - i, 0
  {
    var t := At(ts, i);
    if Matches(t, [FALSE]) then Parsed(BasicLit(LitFalse, t), i + 1)
    else if Matches(t, [TRUE]) then Parsed(BasicLit(LitTrue, t), i + 1)
    else if Matches(t, [NULL]) then Parsed(BasicLit(LitNull, t), i + 1)
    else if Matches(t, [INT, FLOAT, STR]) then Parsed(BasicLit(LitText(t.value), t), i + 1)
    else if Matches(t, [LROUND]) then
      var inner := Level(ts, name, 0, i + 1);
      if inner.Failed? then inner
      else
        var close := At(ts, inner.next);
        if Matches(close, [RROUND]) then Parsed(GrpExpr(t, inner.expr, close), inner.next + 1)
        else Failed(ExpectedError(name, close.pos, "'" + TypeString(RROUND) + "'", close))
    else Failed(ExpectedError(name, t.pos, "expression", t))
  }

  /** Where `sync` leaves the stream, given the current token and position:
   * it stops on EOF or a statement keyword, and consumes one more token when
   * the current one is a semicolon. */
  function SyncFrom(ts: seq<Token>, cur: Token, i: nat): (j: nat)
    requires Terminated(ts)
    ensures j >= i
    decreases (if cur.typ == EOF then 0 else 1) + (if i < |ts| then |ts| - i else 0)
  {
    if cur.typ == EOF then i
    else if cur.typ == SEMICOLON then i + 1
    else if cur.typ in StatementStarts then i
    else SyncFrom(ts, At(ts, i), i + 1)
  }

  /** The statement keywords `sync` stops before (CLASS is named there but
   * not defined in lang/token/token.go). */
  const StatementStarts: seq<Type> := [FUNC, VAR, FOR, IF, WHILE, RETURN]

  // ---------------------------------------------------------------------
  // The parser

  datatype Outcome = Done(expr: Expr) | Panicked

  class Parser {
    const name: string
    /** What the lexer yields, call after call. */
    const ts: seq<Token>
    /** How many tokens the lexer has handed out. */
    var scanned: nat
    /** The lookahead `token.List`, bottom first. */
    var tokens: seq<Token>
    var current: Token
    var errors: seq<WentError>

    /** The lookahead holds at most the one token `peek` fetched, which is
     * the last one scanned. */
    predicate Valid()
      reads this
    {
      Terminated(ts) && |tokens| <= 1 && |tokens| <= scanned &&
      (|tokens| == 1 ==> tokens[0] == At(ts, scanned - 1))
    }

    /** How many tokens the parser has consumed. */
    function Pos(): nat
      reads this
      requires |tokens| <= scanned
    {
      scanned - |tokens|
    }

    /** The outcome of a rule agrees with the grammar function `p`. */
    ghost predicate Reached(r: Outcome, p: Parsed, errs0: seq<WentError>)
      reads this
    {
      match p
      case Parsed(e, j) => r == Done(e) && |tokens| <= scanned && Pos() == j && errors == errs0
      case Failed(err) => r == Panicked && errors == errs0 + [err]
    }

    /** `New`: a parser at the start of the stream. */
    constructor (name: string, ts: seq<Token>)
      requires Terminated(ts)
      ensures this.name == name && this.ts == ts
      ensures Valid() && Pos() == 0 && tokens == [] && errors == []
    {
      this.name := name;
      this.ts := ts;
      scanned := 0;
      tokens := [];
      current := Token(ERROR, "", 0);
      errors := [];
    }

    /** The lexer's `Scan`. */
    method Scan() returns (t: Token)
      requires Terminated(ts)
      modifies this
      ensures t == At(ts, old(scanned)) && scanned == old(scanned) + 1
      ensures tokens == old(tokens) && current == old(current) && errors == old(errors)
    {
      t := At(ts, scanned);
      scanned := scanned + 1;
    }

    /** `errorf`, as every call makes it, with no arguments: the message
     * is the format, passed through `fmt.Sprintf` alone. */
    method Errorf(pos: Pos, message: string)
      modifies this
      ensures errors == old(errors) + [NewSyntaxError(name, pos, Sprintf0(message))]
      ensures scanned == old(scanned) && tokens == old(tokens) && current == old(current)
    {
      errors := errors + [NewSyntaxError(name, pos, Sprintf0(message))];
    }

    /** `next`: the bottom of the lookahead if there is one, else a fresh
     * token from the lexer; it becomes the current token. */
    method Next() returns (t: Token)
      requires Terminated(ts)
      modifies this
      ensures current == t && errors == old(errors)
      ensures old(tokens) != [] ==> t == old(tokens)[0] && tokens == old(tokens)[1..] && scanned == old(scanned)
      ensures old(tokens) == [] ==> t == At(ts, old(scanned)) && tokens == [] && scanned == old(scanned) + 1
      ensures old(Valid()) ==> Valid() && t == At(ts, old(Pos())) && Pos() == old(Pos()) + 1
    {
      if tokens != [] {
        t, tokens := tokens[0], tokens[1..];
      } else {
        t := Scan();
      }
      current := t;
    }

    /** `backup`: the tokens go back to the bottom of the lookahead, in order. */
    method Backup(tkns: seq<Token>)
      modifies this
      ensures tokens == tkns + old(tokens)
      ensures scanned == old(scanned) && current == old(current) && errors == old(errors)
    {
      tokens := tkns + tokens;
    }

    /** `peek`: the token `next` would return, fetched from the lexer into
     * the lookahead only when the lookahead is empty. */
    method Peek() returns (t: Token)
      requires Terminated(ts)
      modifies this
      ensures current == old(current) && errors == old(errors)
      ensures old(tokens) != [] ==> t == old(tokens)[0] && tokens == old(tokens) && scanned == old(scanned)
      ensures old(tokens) == [] ==> t == At(ts, old(scanned)) && tokens == [t] && scanned == old(scanned) + 1
      ensures old(Valid()) ==> Valid() && t == At(ts, Pos()) && Pos() == old(Pos())
    {
      if tokens != [] {
        t := tokens[0];
      } else {
        var s := Scan();
        tokens := tokens + [s];
        t := tokens[0];
      }
    }

    /** `check`: false at EOF whatever `typ` is, else whether the lookahead
     * has type `typ`. */
    method Check(typ: Type) returns (b: bool)
      requires Valid()
      modifies this
      ensures Valid() && Pos() == old(Pos()) && current == old(current) && errors == old(errors)
      ensures b <==> At(ts, Pos()).typ != EOF && At(ts, Pos()).typ == typ
    {
      var t := Peek();
      if t.typ == EOF {
        return false;
      }
      b := t.typ == typ;
    }

    /** `match`: consumes the lookahead, and says so, iff it has one of the
     * types; otherwise nothing is consumed. */
    method Match(types: seq<Type>) returns (b: bool)
      requires Valid()
      modifies this
      ensures Valid() && errors == old(errors)
      ensures b <==> Matches(At(ts, old(Pos())), types)
      ensures b ==> Pos() == old(Pos()) + 1 && current == At(ts, old(Pos()))
      ensures !b ==> Pos() == old(Pos()) && current == old(current)
    {
      var k := 0;
      while k < |types|
        invariant 0 <= k <= |types|
        invariant Valid() && Pos() == old(Pos()) && current == old(current) && errors == old(errors)
        invariant forall m :: 0 <= m < k ==> !Matches(At(ts, Pos()), [types[m]])
      {
        var c := Check(types[k]);
        if c {
          var _ := Next();
          return true;
        }
        k := k + 1;
      }
      return false;
    }

    /** `errorExpected`: "expected <msg>", made specific about the lookahead
     * when the error is at its position. */
    method ErrorExpected(pos: Pos, msg: string)
      requires Valid()
      modifies this
      ensures Valid() && Pos() == old(Pos()) && current == old(current)
      ensures errors == old(errors) + [ExpectedError(name, pos, msg, At(ts, Pos()))]
    {
      var message := "expected " + msg;
      var la := Peek();
      assert la == At(ts, Pos());
      if pos == la.pos {
        if la.typ == SEMICOLON && la.value == "\n" {
          message := message + ", found newline";
        } else {
          message := message + ", found '" + TypeString(la.typ) + "'";
        }
      }
      assert message == "expected " + msg + (if pos == la.pos then Found(la) else "");
      Errorf(pos, message);
    }

    /** `expect`: always consumes one token; reports "expected '<typ>'" when
     * the lookahead is not of type `typ`. */
    method Expect(typ: Type) returns (t: Token, ok: bool)
      requires Valid()
      modifies this
      ensures Valid() && Pos() == old(Pos()) + 1 && current == t
      ensures t == At(ts, old(Pos()))
      ensures ok <==> t.typ != EOF && t.typ == typ
      ensures ok ==> errors == old(errors)
      ensures !ok ==> errors == old(errors) + [ExpectedError(name, t.pos, "'" + TypeString(typ) + "'", t)]
    {
      ok := Check(typ);
      if !ok {
        var la := Peek();
        ErrorExpected(la.pos, "'" + TypeString(typ) + "'");
      }
      t := Next();
    }

    /** `sync`: skips to the end of the statement. */
    method Sync()
      requires Valid()
      modifies this
      ensures Valid() && errors == old(errors)
      ensures Pos() == SyncFrom(ts, old(current), old(Pos()))
    {
      while current.typ != EOF
        invariant Valid() && errors == old(errors)
        invariant SyncFrom(ts, current, Pos()) == SyncFrom(ts, old(current), old(Pos()))
        decreases (if current.typ == EOF then 0 else 1) + (if Pos() < |ts| then |ts| - Pos() else 0)
      {
        if current.typ == SEMICOLON {
          var _ := Next();
          return;
        }
        if current.typ in StatementStarts {
          return;
        }
        var _ := Next();
      }
    }

    /** `Run`: the expression, or — after a panic — no expression and every
     * error recorded so far. */
    method Run() returns (expr: Option<Expr>, err: Option<seq<WentError>>)
      requires Valid() && Pos() < |ts|
      modifies this
      ensures var p := Level(ts, name, 0, old(Pos()));
        (p.Parsed? ==> expr == Some(p.expr) && err == None && errors == old(errors)) &&
        (p.Failed? ==> expr == None && err == Some(old(errors) + [p.err]))
    {
      var r := Expression();
      if r.Done? {
        return Some(r.expr), None;
      }
      return None, Some(errors);
    }

    /** `expression`. */
    method Expression() returns (r: Outcome)
      requires Valid() && Pos() < |ts|
      modifies this
      decreases |ts| - Pos(), 6
      ensures Valid()
      ensures Reached(r, Level(ts, name, 0, old(Pos())), old(errors))
    {
      r := EqualityExpr();
    }

    /** `equalityExpr`. */
    method EqualityExpr() returns (r: Outcome)
      requires Valid() && Pos() < |ts|
      modifies this
      decreases |ts| - Pos(), 5
      ensures Valid()
      ensures Reached(r, Level(ts, name, 0, old(Pos())), old(errors))
    {
      ghost var i0 := Pos();
      var first := ComparisonExpr();
      if first.Panicked? {
        return Panicked;
      }
      var expr := first.expr;
      while true
        invariant Valid() && Pos() < |ts| && errors == old(errors)
        invariant LevelTail(ts, name, 0, expr, Pos()) == Level(ts, name, 0, i0)
        decreases |ts| - Pos()
      {
        ghost var p := Pos();
        var m := Match([EQ, NEQ]);
        if !m {
          break;
        }
        TailTurn(ts, name, 0, expr, p);
        var op := current;
        var right := ComparisonExpr();
        if right.Panicked? {
          return Panicked;
        }
        expr := BinExpr(expr, op, right.expr);
      }
      return Done(expr);
    }

    /** `comparisonExpr`. */
    method ComparisonExpr() returns (r: Outcome)
      requires Valid() && Pos() < |ts|
      modifies this
      decreases |ts| - Pos(), 4
      ensures Valid()
      ensures Reached(r, Level(ts, name, 1, old(Pos())), old(errors))
    {
      ghost var i0 := Pos();
      var first := AddExpr();
      if first.Panicked? {
        return Panicked;
      }
      var expr := first.expr;
      while true
        invariant Valid() && Pos() < |ts| && errors == old(errors)
        invariant LevelTail(ts, name, 1, expr, Pos()) == Level(ts, name, 1, i0)
        decreases |ts| - Pos()
      {
        ghost var p := Pos();
        var m := Match([SM, SMEQ, GR, GREQ]);
        if !m {
          break;
        }
        TailTurn(ts, name, 1, expr, p);
        var op := current;
        var right := AddExpr();
        if right.Panicked? {
          return Panicked;
        }
        expr := BinExpr(expr, op, right.expr);
      }
      return Done(expr);
    }

    /** `addExpr`. */
    method AddExpr() returns (r: Outcome)
      requires Valid() && Pos() < |ts|
      modifies this
      decreases |ts| - Pos(), 3
      ensures Valid()
      ensures Reached(r, Level(ts, name, 2, old(Pos())), old(errors))
    {
      ghost var i0 := Pos();
      var first := MultExpr();
      if first.Panicked? {
        return Panicked;
      }
      var expr := first.expr;
      while true
        invariant Valid() && Pos() < |ts| && errors == old(errors)
        invariant LevelTail(ts, name, 2, expr, Pos()) == Level(ts, name, 2, i0)
        decreases |ts| - Pos()
      {
        ghost var p := Pos();
        var m := Match([PLUS, MINUS]);
        if !m {
          break;
        }
        TailTurn(ts, name, 2, expr, p);
        var op := current;
        var right := MultExpr();
        if right.Panicked? {
          return Panicked;
        }
        expr := BinExpr(expr, op, right.expr);
      }
      return Done(expr);
    }

    /** `multExpr`. */
    method MultExpr() returns (r: Outcome)
      requires Valid() && Pos() < |ts|
      modifies this
      decreases |ts| - Pos(), 2
      ensures Valid()
      ensures Reached(r, Level(ts, name, 3, old(Pos())), old(errors))
    {
      ghost var i0 := Pos();
      var first := ArithUnExpr();
      if first.Panicked? {
        return Panicked;
      }
      var expr := first.expr;
      while true
        invariant Valid() && Pos() < |ts| && errors == old(errors)
        invariant LevelTail(ts, name, 3, expr, Pos()) == Level(ts, name, 3, i0)
        decreases |ts| - Pos()
      {
        ghost var p := Pos();
        var m := Match([MULT, DIV, MOD]);
        if !m {
          break;
        }
        TailTurn(ts, name, 3, expr, p);
        var op := current;
        var right := ArithUnExpr();
        if right.Panicked? {
          return Panicked;
        }
        expr := BinExpr(expr, op, right.expr);
      }
      return Done(expr);
    }

    /** `arithUnExpr`. */
    method ArithUnExpr() returns (r: Outcome)
      requires Valid() && Pos() < |ts|
      modifies this
      decreases |ts| - Pos(), 1
      ensures Valid()
      ensures Reached(r, Unary(ts, name, old(Pos())), old(errors))
    {
      var m := Match([PLUS, MINUS]);
      if m {
        var op := current;
        var operand := ArithUnExpr();
        if operand.Panicked? {
          return Panicked;
        }
        return Done(UnExpr(op, operand.expr));
      }
      r := PrimaryExpr();
    }

    /** `primaryExpr`. */
    method PrimaryExpr() returns (r: Outcome)
      requires Valid() && Pos() < |ts|
      modifies this
      decreases |ts| - Pos(), 0
      ensures Valid()
      ensures Reached(r, Primary(ts, name, old(Pos())), old(errors))
    {
      ghost var t0 := At(ts, Pos());
      var m := Match([FALSE]);
      if m {
        return Done(BasicLit(LitFalse, current));
      }
      m := Match([TRUE]);
      if m {
        return Done(BasicLit(LitTrue, current));
      }
      m := Match([NULL]);
      if m {
        return Done(BasicLit(LitNull, current));
      }
      m := Match([INT, FLOAT, STR]);
      if m {
        return Done(BasicLit(LitText(current.value), current));
      }
      m := Match([LROUND]);
      if m {
        var lround := current;
        var e := Expression();
        if e.Panicked? {
          return Panicked;
        }
        var rround, ok := Expect(RROUND);
        if !ok {
          return Panicked;
        }
        return Done(GrpExpr(lround, e.expr, rround));
      }
      var la := Peek();
      ErrorExpected(la.pos, "expression");
      assert la == t0 && Primary(ts, name, old(Pos())) == Failed(ExpectedError(name, t0.pos, "expression", t0));
      return Panicked;
    }
  }
}
