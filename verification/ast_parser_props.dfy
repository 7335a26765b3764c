/** Properties of the lang/parser/parser.go grammar. */
module AstParserProps {
  import opened Tok
  import opened TokenErrors
  import opened AstParser

  /** A shape at one level is also a shape at every looser level. */
  lemma ShapedLoosens(e: Expr, k: nat, j: nat)
    requires Shaped(e, k) && j <= k
    ensures Shaped(e, j)
  {
  }

  // ---------------------------------------------------------------------
  // The tree is a bracketing of exactly the tokens consumed, and it has the
  // precedence shape of the level that built it.

  lemma {:induction false} LevelBuilt(ts: seq<Token>, name: string, lvl: nat, i: nat)
    requires Terminated(ts) && lvl <= 3 && i < |ts|
    ensures var r := Level(ts, name, lvl, i);
      r.Parsed? ==> Tokens(r.expr) == ts[i..r.next] && Shaped(r.expr, lvl)
    decreases |ts| - i, 2 * (4 - lvl) + 3
  {
    var first := Operand(ts, name, lvl, i);
    if first.Parsed? {
      OperandBuilt(ts, name, lvl, i);
      ShapedLoosens(first.expr, lvl + 1, lvl);
      TailBuilt(ts, name, lvl, first.expr, first.next);
      var r := Level(ts, name, lvl, i);
      if r.Parsed? {
        assert ts[i..r.next] == ts[i..first.next] + ts[first.next..r.next];
      }
    }
  }

  lemma {:induction false} OperandBuilt(ts: seq<Token>, name: string, lvl: nat, i: nat)
    requires Terminated(ts) && lvl <= 3 && i < |ts|
    ensures var r := Operand(ts, name, lvl, i);
      r.Parsed? ==> Tokens(r.expr) == ts[i..r.next] && Shaped(r.expr, lvl + 1)
    decreases |ts| - i, 2 * (4 - lvl) + 2
  {
    if lvl < 3 {
      LevelBuilt(ts, name, lvl + 1, i);
    } else {
      UnaryBuilt(ts, name, i);
    }
  }

  lemma {:induction false} TailBuilt(ts: seq<Token>, name: string, lvl: nat, left: Expr, i: nat)
    requires Terminated(ts) && lvl <= 3 && i < |ts|
    ensures var r := LevelTail(ts, name, lvl, left, i);
      r.Parsed? ==> Tokens(r.expr) == Tokens(left) + ts[i..r.next] && (Shaped(left, lvl) ==> Shaped(r.expr, lvl))
    decreases |ts| - i, 0
  {
    var op := At(ts, i);
    if Matches(op, Ops(lvl)) {
      var right := Operand(ts, name, lvl, i + 1);
      if right.Parsed? {
        OperandBuilt(ts, name, lvl, i + 1);
        var bin := BinExpr(left, op, right.expr);
        assert BinLevel(op.typ) == lvl;
        TailBuilt(ts, name, lvl, bin, right.next);
        var r := LevelTail(ts, name, lvl, left, i);
        assert r == LevelTail(ts, name, lvl, bin, right.next);
        if r.Parsed? {
          FoldTokens(ts, left, right.expr, i, right.next, r.next);
        }
      }
    }
  }

  /** The tokens of a node made by one turn of a level's loop. */
  lemma FoldTokens(ts: seq<Token>, left: Expr, right: Expr, i: nat, j: nat, k: nat)
    requires i < j <= k <= |ts| && Tokens(right) == ts[i + 1..j]
    ensures Tokens(BinExpr(left, ts[i], right)) + ts[j..k] == Tokens(left) + ts[i..k]
  {
    assert ts[i..k] == [ts[i]] + ts[i + 1..j] + ts[j..k];
  }

  /** The tokens of a group: its brackets around its expression's tokens. */
  lemma GroupTokens(ts: seq<Token>, inner: Expr, i: nat, j: nat)
    requires i < j < |ts| && Tokens(inner) == ts[i + 1..j]
    ensures Tokens(GrpExpr(ts[i], inner, ts[j])) == ts[i..j + 1]
  {
    assert ts[i..j + 1] == [ts[i]] + ts[i + 1..j] + [ts[j]];
  }

  lemma {:induction false} UnaryBuilt(ts: seq<Token>, name: string, i: nat)
    requires Terminated(ts) && i < |ts|
    ensures var r := Unary(ts, name, i);
      r.Parsed? ==> Tokens(r.expr) == ts[i..r.next] && Shaped(r.expr, 4)
    decreases |ts| - i, 1
  {
    var op := At(ts, i);
    if Matches(op, [PLUS, MINUS]) {
      UnaryBuilt(ts, name, i + 1);
      var operand := Unary(ts, name, i + 1);
      if operand.Parsed? {
        assert ts[i..operand.next] == [op] + ts[i + 1..operand.next];
      }
    } else {
      PrimaryBuilt(ts, name, i);
    }
  }

  lemma {:induction false} PrimaryBuilt(ts: seq<Token>, name: string, i: nat)
    requires Terminated(ts) && i < |ts|
    ensures var r := Primary(ts, name, i);
      r.Parsed? ==> Tokens(r.expr) == ts[i..r.next] && Shaped(r.expr, 4)
    decreases |ts| - i, 0
  {
    var t := At(ts, i);
    if t.typ == LROUND {
      LevelBuilt(ts, name, 0, i + 1);
      var inner := Level(ts, name, 0, i + 1);
      if inner.Parsed? {
        var close := At(ts, inner.next);
        if Matches(close, [RROUND]) {
          GroupTokens(ts, inner.expr, i, inner.next);
        }
      }
    } else if t.typ != EOF {
      assert ts[i..i + 1] == [t];
    }
  }

  // ---------------------------------------------------------------------
  // Operands without operators after them

  /** A unary expression followed by no operator of this level or a tighter
   * one is the whole level. */
  lemma {:induction false} UnaryIsLevel(ts: seq<Token>, name: string, lvl: nat, i: nat)
    requires Terminated(ts) && lvl <= 3 && i < |ts|
    requires Unary(ts, name, i).Parsed?
    requires forall k :: lvl <= k <= 3 ==> !Matches(At(ts, Unary(ts, name, i).next), Ops(k))
    ensures Level(ts, name, lvl, i) == Unary(ts, name, i)
    decreases 3 - lvl
  {
    if lvl < 3 {
      UnaryIsLevel(ts, name, lvl + 1, i);
    }
  }

  /** `8 - 3 - 2`: operators of one level nest to the left. */
  lemma LeftAssociative(name: string, a: Token, m1: Token, b: Token, m2: Token, c: Token, eof: Token)
    requires a.typ == INT && b.typ == INT && c.typ == INT
    requires m1.typ == MINUS && m2.typ == MINUS && eof.typ == EOF
    ensures var ts := [a, m1, b, m2, c, eof];
      Level(ts, name, 0, 0) ==
        Parsed(BinExpr(BinExpr(BasicLit(LitText(a.value), a), m1, BasicLit(LitText(b.value), b)), m2,
                       BasicLit(LitText(c.value), c)), 5)
  {
    var ts := [a, m1, b, m2, c, eof];
    var la, lb, lc := BasicLit(LitText(a.value), a), BasicLit(LitText(b.value), b), BasicLit(LitText(c.value), c);
    assert Unary(ts, name, 0) == Parsed(la, 1);
    assert Unary(ts, name, 2) == Parsed(lb, 3);
    assert Unary(ts, name, 4) == Parsed(lc, 5);
    UnaryIsLevel(ts, name, 3, 0);
    UnaryIsLevel(ts, name, 3, 2);
    UnaryIsLevel(ts, name, 3, 4);
    var ab := BinExpr(la, m1, lb);
    var abc := BinExpr(ab, m2, lc);
    TailTurn(ts, name, 2, la, 1);
    TailTurn(ts, name, 2, ab, 3);
    assert LevelTail(ts, name, 2, abc, 5) == Parsed(abc, 5);
    assert Level(ts, name, 2, 0) == Parsed(abc, 5);
    assert Level(ts, name, 1, 0) == Parsed(abc, 5);
  }

  // ---------------------------------------------------------------------
  // Prefix signs

  /** Nests `e` under the prefix operators `ops`, the first outermost. */
  function Prefixed(ops: seq<Token>, e: Expr): (r: Expr)
    ensures |Tokens(r)| == |ops| + |Tokens(e)|
  {
    if ops == [] then e else UnExpr(ops[0], Prefixed(ops[1..], e))
  }

  /** A run of `+`/`-` before an operand gives one unary node per sign, the
   * first sign outermost. */
  lemma {:induction false} SignsNestRight(ts: seq<Token>, name: string, i: nat, n: nat)
    requires Terminated(ts) && i + n < |ts|
    requires forall k :: i <= k < i + n ==> ts[k].typ in [PLUS, MINUS]
    requires !Matches(ts[i + n], [PLUS, MINUS]) && Primary(ts, name, i + n).Parsed?
    ensures var p := Primary(ts, name, i + n);
      Unary(ts, name, i) == Parsed(Prefixed(ts[i..i + n], p.expr), p.next)
    decreases n
  {
    if n > 0 {
      assert At(ts, i) == ts[i];
      SignsNestRight(ts, name, i + 1, n - 1);
      assert ts[i..i + n][1..] == ts[i + 1..i + n];
    }
  }

  // ---------------------------------------------------------------------
  // Failures

  /** The tokens that can start an expression. */
  const Starters: seq<Type> := [PLUS, MINUS, FALSE, TRUE, NULL, INT, FLOAT, STR, LROUND]

  /** A token that cannot start an expression makes every level fail with
   * "expected expression, found …" at that token. */
  lemma {:induction false} NoExpression(ts: seq<Token>, name: string, lvl: nat, i: nat)
    requires Terminated(ts) && lvl <= 3 && i < |ts|
    requires !Matches(At(ts, i), Starters)
    ensures Level(ts, name, lvl, i) == Failed(ExpectedError(name, At(ts, i).pos, "expression", At(ts, i)))
    ensures Level(ts, name, lvl, i).err.msg == "expected expression" + Sprintf0(Found(At(ts, i)))
    ensures '%' !in TypeString(At(ts, i).typ) ==> Level(ts, name, lvl, i).err.msg == "expected expression" + Found(At(ts, i))
    decreases 3 - lvl
  {
    if lvl < 3 {
      NoExpression(ts, name, lvl + 1, i);
    } else {
      var t := At(ts, i);
      assert !Matches(t, [PLUS, MINUS]);
      assert !Matches(t, [FALSE]) && !Matches(t, [TRUE]) && !Matches(t, [NULL]);
      assert !Matches(t, [INT, FLOAT, STR]) && !Matches(t, [LROUND]);
      assert Unary(ts, name, i) == Primary(ts, name, i);
    }
    ExpressionMessage(name, At(ts, i));
  }

  /** The text of the "expected expression" error at the token found. */
  lemma ExpressionMessage(name: string, t: Token)
    ensures ExpectedError(name, t.pos, "expression", t).msg == "expected expression" + Sprintf0(Found(t))
    ensures '%' !in TypeString(t.typ) ==> ExpectedError(name, t.pos, "expression", t).msg == "expected expression" + Found(t)
  {
    assert '%' !in "expression";
    assert "expected " + "expression" == "expected expression";
  }

  /** A group whose expression is not followed by `)` fails with
   * "expected ')', found …" at the token found instead. */
  lemma UnclosedGroup(ts: seq<Token>, name: string, i: nat)
    requires Terminated(ts) && i < |ts| && At(ts, i).typ == LROUND
    requires Level(ts, name, 0, i + 1).Parsed?
    requires At(ts, Level(ts, name, 0, i + 1).next).typ != RROUND
    ensures var close := At(ts, Level(ts, name, 0, i + 1).next);
      Unary(ts, name, i) == Failed(ExpectedError(name, close.pos, "')'", close)) &&
      Unary(ts, name, i).err.msg == "expected ')'" + Sprintf0(Found(close)) &&
      ('%' !in TypeString(close.typ) ==> Unary(ts, name, i).err.msg == "expected ')'" + Found(close))
  {
    var t := At(ts, i);
    var close := At(ts, Level(ts, name, 0, i + 1).next);
    assert !Matches(t, [PLUS, MINUS]) && !Matches(t, [FALSE]) && !Matches(t, [TRUE]);
    assert !Matches(t, [NULL]) && !Matches(t, [INT, FLOAT, STR]) && Matches(t, [LROUND]);
    assert !Matches(close, [RROUND]);
    CloseMessage(name, close);
    assert Unary(ts, name, i) == Primary(ts, name, i) == Failed(ExpectedError(name, close.pos, "')'", close));
  }

  /** The text of the "expected ')'" error at the token found. */
  lemma CloseMessage(name: string, t: Token)
    ensures "'" + TypeString(RROUND) + "'" == "')'"
    ensures ExpectedError(name, t.pos, "')'", t).msg == "expected ')'" + Sprintf0(Found(t))
    ensures '%' !in TypeString(t.typ) ==> ExpectedError(name, t.pos, "')'", t).msg == "expected ')'" + Found(t)
  {
    assert TokenTypes[RROUND] == ")";
    assert '%' !in "')'";
    assert "expected " + "')'" == "expected ')'";
  }

  /** A `%` where an expression should start is reported mangled, as
   * `errorf` reads the "%'" of the found part as a verb. */
  lemma PercentFound(ts: seq<Token>, name: string, lvl: nat, i: nat)
    requires Terminated(ts) && lvl <= 3 && i < |ts| && At(ts, i).typ == MOD
    ensures Level(ts, name, lvl, i).Failed?
    ensures Level(ts, name, lvl, i).err.msg == "expected expression" + ", found '" + "%!'(MISSING)"
  {
    NoExpression(ts, name, lvl, i);
    FoundMangled(At(ts, i));
  }

  /** A `%=` where `)` should close a group is reported mangled too. */
  lemma PercentAssignFound(ts: seq<Token>, name: string, i: nat)
    requires Terminated(ts) && i < |ts| && At(ts, i).typ == LROUND
    requires Level(ts, name, 0, i + 1).Parsed?
    requires At(ts, Level(ts, name, 0, i + 1).next).typ == MODASSIGN
    ensures Unary(ts, name, i).Failed?
    ensures Unary(ts, name, i).err.msg == "expected ')'" + ", found '" + "%!=(MISSING)" + "'"
  {
    UnclosedGroup(ts, name, i);
    FoundMangled(At(ts, Level(ts, name, 0, i + 1).next));
  }

  // ---------------------------------------------------------------------
  // sync

  predicate SyncStop(t: Token)
  {
    t.typ == EOF || t.typ == SEMICOLON || t.typ in StatementStarts
  }

  /** `sync` examines the current token and then each following one, and
   * stops at the first that is EOF, a semicolon or a statement keyword; a
   * semicolon is itself consumed together with the token after it. */
  lemma {:induction false} SyncFirstStop(ts: seq<Token>, cur: Token, i: nat, n: nat)
    requires Terminated(ts)
    requires !SyncStop(cur) || n == 0
    requires forall k :: i <= k < i + n - 1 ==> !SyncStop(At(ts, k))
    requires var last := if n == 0 then cur else At(ts, i + n - 1); SyncStop(last)
    ensures var last := if n == 0 then cur else At(ts, i + n - 1);
      SyncFrom(ts, cur, i) == i + n + (if last.typ == SEMICOLON then 1 else 0)
    decreases n
  {
    if n > 0 {
      SyncFirstStop(ts, At(ts, i), i + 1, n - 1);
    }
  }
}
