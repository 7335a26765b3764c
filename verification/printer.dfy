/**
 * lang/ast/printer.go: the S-expression printer of the `ast` package.
 *
 * `Printed` and `Bracketed` give the text a tree prints as, or `None` where
 * `Print` panics with "NOT STRING VALUE" (a visit that returns nil). The
 * methods `Print` and `SurroundBracket` follow the source's visits and its
 * builder loop and are proved to produce that text.
 */
module Printer {
  import opened Tok
  import opened TokenErrors

  /** The expression nodes of the `ast` package this printer visits. */
  datatype Node =
    | BinExpr(left: Node, op: Token, right: Node)
    | UnExpr(op: Token, operand: Node)
    | GrpExpr(expression: Node)
    | BasicLit(text: string)
    | NameExpr(name: Token)

  function Size(e: Node): (n: nat)
    ensures n >= 1
  {
    match e
    case BinExpr(l, _, r) => 1 + Size(l) + Size(r)
    case UnExpr(_, x) => 1 + Size(x)
    case GrpExpr(x) => 1 + Size(x)
    case _ => 1
  }

  function SizeOf(es: seq<Node>): nat
  {
    if es == [] then 0 else SizeOf(es[..|es| - 1]) + Size(es[|es| - 1])
  }

  lemma {:induction false} SizeOfBound(es: seq<Node>, i: nat)
    requires i < |es|
    ensures Size(es[i]) <= SizeOf(es)
    decreases |es|
  {
    if i < |es| - 1 {
      SizeOfBound(es[..|es| - 1], i);
    }
  }

  lemma PairSize(a: Node, b: Node)
    ensures SizeOf([a]) == Size(a) && SizeOf([a, b]) == Size(a) + Size(b)
  {
    assert [a][..0] == [];
    assert [a, b][..1] == [a];
  }

  /** A name node anywhere in the tree. */
  predicate HasName(e: Node)
  {
    match e
    case BinExpr(l, _, r) => HasName(l) || HasName(r)
    case UnExpr(_, x) => HasName(x)
    case GrpExpr(x) => HasName(x)
    case BasicLit(_) => false
    case NameExpr(_) => true
  }

  /** What `Print` returns: `None` when it panics. It succeeds exactly on
   * the trees without a name node, since `VisitNameExpr` gives nil and the
   * children are printed by `Print` itself. */
  function Printed(e: Node): (r: Option<string>)
    ensures r.Some? <==> !HasName(e)
    ensures e.BasicLit? ==> r == Some(e.text)
    ensures r.Some? && !e.BasicLit? ==> |r.value| >= 2 && r.value[0] == '(' && r.value[|r.value| - 1] == ')'
    decreases Size(e), 0
  {
    match e
    case BinExpr(l, op, r) => PairSize(l, r); Bracketed(op.value, [l, r])
    case UnExpr(op, x) => PairSize(x, x); Bracketed(op.value, [x])
    case GrpExpr(x) => PairSize(x, x); Bracketed("group", [x])
    case BasicLit(text) => Some(text)
    case NameExpr(_) => None
  }

  /** `surroundBracket`: "(", the name, each child after a space, ")". */
  function Bracketed(name: string, exprs: seq<Node>): (r: Option<string>)
    ensures r.Some? <==> forall i :: 0 <= i < |exprs| ==> !HasName(exprs[i])
    ensures r.Some? ==> |r.value| >= 2 && r.value[0] == '(' && r.value[|r.value| - 1] == ')'
    decreases SizeOf(exprs), 2
  {
    var items := Items(exprs);
    if items.None? then None else Some("(" + name + items.value + ")")
  }

  /** The children of a bracket, each after a space, left to right. */
  function Items(exprs: seq<Node>): (r: Option<string>)
    ensures r.Some? <==> forall i :: 0 <= i < |exprs| ==> !HasName(exprs[i])
    decreases SizeOf(exprs), 1
  {
    if exprs == [] then Some("")
    else
      var init := Items(exprs[..|exprs| - 1]);
      var last := Printed(exprs[|exprs| - 1]);
      if init.None? || last.None? then None
      else Some(init.value + " " + last.value)
  }

  /** `Print`: the visit of the node's own kind. */
  method Print(e: Node) returns (r: Option<string>)
    ensures r == Printed(e)
    decreases Size(e), 0
  {
    match e
    case NameExpr(_) => r := None;
    case GrpExpr(x) =>
      PairSize(x, x);
      r := SurroundBracket("group", [x]);
    case BinExpr(left, op, right) =>
      PairSize(left, right);
      r := SurroundBracket(op.value, [left, right]);
    case UnExpr(op, x) =>
      PairSize(x, x);
      r := SurroundBracket(op.value, [x]);
    case BasicLit(text) => r := Some(text);
  }

  /** `surroundBracket`: writes "(" and the name, then a space and each
   * child's print in turn, then ")"; a child that panics ends it. */
  method SurroundBracket(name: string, exprs: seq<Node>) returns (r: Option<string>)
    ensures r == Bracketed(name, exprs)
    decreases SizeOf(exprs), 2
  {
    var sb := "(" + name;
    var i := 0;
    while i < |exprs|
      invariant 0 <= i <= |exprs|
      invariant Items(exprs[..i]).Some? && sb == "(" + name + Items(exprs[..i]).value
    {
      SizeOfBound(exprs, i);
      var s := Print(exprs[i]);
      assert exprs[..i + 1][..i] == exprs[..i];
      if s.None? {
        return None;
      }
      sb := sb + " " + s.value;
      i := i + 1;
    }
    assert exprs[..i] == exprs;
    r := Some(sb + ")");
  }
}
