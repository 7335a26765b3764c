/** Properties of the lang/runtime/interpreter.go evaluator. */
module InterpreterProps {
  import opened Tok
  import opened TokenErrors
  import opened RuntimeErrors
  import opened AstParser
  import opened AstParserProps
  import opened Interpreter

  /** The three messages an evaluation can fail with. */
  predicate RuntimeMessage(msg: string)
  {
    msg in ["operands must be two numbers or two strings", "operands must be numbers ", "operandmust be a number"]
  }

  /** A failure is reported at an operator of the tree, with one of the
   * three operand messages. */
  lemma {:induction false} FailureAtOperator(name: string, e: Expr)
    ensures var r := Eval(name, e);
      r.Raised? ==> RuntimeMessage(r.err.msg) && exists t :: t in Tokens(e) && t.pos == r.err.pos
    decreases e
  {
    var r := Eval(name, e);
    match e
    case GrpExpr(lr, x, rr) =>
      FailureAtOperator(name, x);
      if r.Raised? {
        var t :| t in Tokens(x) && t.pos == r.err.pos;
        assert t in Tokens(e);
      }
    case BasicLit(_, _) =>
    case UnExpr(op, x) =>
      FailureAtOperator(name, x);
      if r.Raised? {
        if Eval(name, x).Raised? {
          var t :| t in Tokens(x) && t.pos == r.err.pos;
          assert t in Tokens(e);
        } else {
          assert op in Tokens(e);
        }
      }
    case BinExpr(l, op, x) =>
      FailureAtOperator(name, l);
      FailureAtOperator(name, x);
      if r.Raised? {
        if Eval(name, l).Raised? {
          var t :| t in Tokens(l) && t.pos == r.err.pos;
          assert t in Tokens(e);
        } else if Eval(name, x).Raised? {
          var t :| t in Tokens(x) && t.pos == r.err.pos;
          assert t in Tokens(e);
        } else {
          assert op in Tokens(e);
        }
      }
  }

  /** Both operands are evaluated, whatever the operator: a failing right
   * operand fails `&&` and `||` too, whatever the left one's value. */
  lemma NoShortCircuit(name: string, l: Expr, op: Token, r: Expr)
    requires Eval(name, l).Val? && Eval(name, r).Raised?
    ensures Eval(name, BinExpr(l, op, r)) == Eval(name, r)
  {
  }

  /** `!` never fails, and `!!x` is the truthiness of `x`. */
  lemma DoubleNegation(name: string, n1: Token, n2: Token, x: Expr)
    requires n1.typ == LOGICALNOT && n2.typ == LOGICALNOT && Eval(name, x).Val?
    ensures Eval(name, UnExpr(n1, UnExpr(n2, x))) == Val(RBool(IsTruthy(Eval(name, x).v)))
  {
  }

  /** `a > b` is `b < a` and `a >= b` is `b <= a`, errors included. */
  lemma ComparisonConverse(name: string, gr: Token, sm: Token, a: RValue, b: RValue)
    requires (gr.typ, sm.typ) in [(GR, SM), (GREQ, SMEQ)] && gr.pos == sm.pos
    ensures ApplyBinary(name, gr, a, b) == ApplyBinary(name, sm, b, a)
  {
  }

  /** Every value a parsed tree evaluates to is nil, a bool or a string: the
   * parser stores the text of a number, never a float64. So a parsed tree
   * never reaches a division, and `-`, `*`, `/` and the orderings fail on
   * the values a parsed literal gives. */
  lemma {:induction false} ParsedNeverNumber(name: string, e: Expr, lvl: nat)
    requires Shaped(e, lvl)
    ensures var r := Eval(name, e); !r.Unrepresented? && (r.Val? ==> !r.v.RNum?)
    decreases e
  {
    match e
    case GrpExpr(_, x, _) => ParsedNeverNumber(name, x, 0);
    case BasicLit(_, _) =>
    case UnExpr(_, x) => ParsedNeverNumber(name, x, 4);
    case BinExpr(l, op, x) =>
      ParsedNeverNumber(name, l, BinLevel(op.typ));
      ParsedNeverNumber(name, x, BinLevel(op.typ) + 1);
  }

  /** `1 + 2` parses to a sum of two text literals and evaluates to the
   * string "12". */
  lemma NumbersAddAsText(name: string, a: Token, p: Token, b: Token, eof: Token)
    requires a == Token(INT, "1", a.pos) && p.typ == PLUS && b == Token(INT, "2", b.pos) && eof.typ == EOF
    ensures var r := Level([a, p, b, eof], name, 0, 0);
      r.Parsed? && Eval(name, r.expr) == Val(RStr("12"))
  {
    var ts := [a, p, b, eof];
    var la, lb := BasicLit(LitText("1"), a), BasicLit(LitText("2"), b);
    assert Unary(ts, name, 0) == Parsed(la, 1);
    assert Unary(ts, name, 2) == Parsed(lb, 3);
    UnaryIsLevel(ts, name, 3, 0);
    UnaryIsLevel(ts, name, 3, 2);
    var sum := BinExpr(la, p, lb);
    TailTurn(ts, name, 2, la, 1);
    assert LevelTail(ts, name, 2, sum, 3) == Parsed(sum, 3);
    assert Level(ts, name, 2, 0) == Parsed(sum, 3);
    assert Level(ts, name, 1, 0) == Parsed(sum, 3);
    assert Level(ts, name, 0, 0) == Parsed(sum, 3);
    assert "1" + "2" == "12";
  }
}
