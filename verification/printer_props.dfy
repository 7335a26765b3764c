/** Properties of the lang/ast/printer.go output. */
module PrinterProps {
  import opened Runes
  import opened Tok
  import opened TokenErrors
  import opened Printer

  /** No bracket in a text or operator of the tree, and no name node. */
  predicate PlainText(e: Node)
  {
    match e
    case BinExpr(l, op, r) => '(' !in op.value && ')' !in op.value && PlainText(l) && PlainText(r)
    case UnExpr(op, x) => '(' !in op.value && ')' !in op.value && PlainText(x)
    case GrpExpr(x) => PlainText(x)
    case BasicLit(text) => '(' !in text && ')' !in text
    case NameExpr(_) => false
  }

  /** The nodes that print as a bracket: all but the literals. */
  function Brackets(e: Node): nat
  {
    match e
    case BinExpr(l, _, r) => 1 + Brackets(l) + Brackets(r)
    case UnExpr(_, x) => 1 + Brackets(x)
    case GrpExpr(x) => 1 + Brackets(x)
    case _ => 0
  }

  function BracketsOf(es: seq<Node>): nat
  {
    if es == [] then 0 else BracketsOf(es[..|es| - 1]) + Brackets(es[|es| - 1])
  }

  lemma {:induction false} CountOfConcat(s: string, t: string, c: char)
    ensures CountOf(s + t, c) == CountOf(s, c) + CountOf(t, c)
    decreases |s|
  {
    if s != [] {
      assert (s + t)[1..] == s[1..] + t;
      CountOfConcat(s[1..], t, c);
    } else {
      assert s + t == t;
    }
  }

  /** Each bracketing node gives exactly one "(" and one ")": with no
   * bracket in any text, the print of a tree holds as many of each as the
   * tree has non-literal nodes. */
  lemma {:induction false} BracketsBalance(e: Node, c: char)
    requires PlainText(e) && (c == '(' || c == ')')
    ensures Printed(e).Some? && CountOf(Printed(e).value, c) == Brackets(e)
    decreases Size(e), 0
  {
    match e
    case BinExpr(l, op, r) =>
      PairSize(l, r);
      assert [l, r][..1] == [l];
      BracketedCount(op.value, [l, r], c);
    case UnExpr(op, x) =>
      PairSize(x, x);
      assert [x][..0] == [];
      BracketedCount(op.value, [x], c);
    case GrpExpr(x) =>
      PairSize(x, x);
      assert [x][..0] == [];
      BracketedCount("group", [x], c);
    case BasicLit(text) =>
      CountOfAbsent(text, c);
  }

  lemma BracketedCount(name: string, exprs: seq<Node>, c: char)
    requires (forall i :: 0 <= i < |exprs| ==> PlainText(exprs[i])) && (c == '(' || c == ')')
    requires c !in name
    ensures Bracketed(name, exprs).Some? && CountOf(Bracketed(name, exprs).value, c) == 1 + BracketsOf(exprs)
    decreases SizeOf(exprs), 2
  {
    ItemsCount(exprs, c);
    var items := Items(exprs).value;
    CountOfConcat("(" + name, items, c);
    CountOfConcat("(", name, c);
    CountOfConcat("(" + name + items, ")", c);
    CountOfAbsent(name, c);
    if c == '(' { CountOfAbsent(")", c); } else { CountOfAbsent("(", c); }
  }

  lemma {:induction false} ItemsCount(exprs: seq<Node>, c: char)
    requires (forall i :: 0 <= i < |exprs| ==> PlainText(exprs[i])) && (c == '(' || c == ')')
    ensures Items(exprs).Some? && CountOf(Items(exprs).value, c) == BracketsOf(exprs)
    decreases SizeOf(exprs), 1
  {
    if exprs != [] {
      var init := exprs[..|exprs| - 1];
      var last := exprs[|exprs| - 1];
      ItemsCount(init, c);
      SizeOfBound(exprs, |exprs| - 1);
      BracketsBalance(last, c);
      var si, sl := Items(init).value, Printed(last).value;
      CountOfConcat(si + " ", sl, c);
      CountOfConcat(si, " ", c);
    }
  }
}
