/**
 * lang/ast/ast-printer.go: the printer of an earlier revision of the `ast`
 * package, whose visitor has no name node. Its visits and its builder loop
 * are those of lang/ast/printer.go, so its methods are proved to print each
 * tree exactly as `Printer` prints the same tree, and never to panic.
 */
module AstPrinter {
  import opened Tok
  import opened TokenErrors
  import P = Printer

  /** The expression nodes this printer's visitor knows. */
  datatype Node =
    | BinExpr(left: Node, op: Token, right: Node)
    | UnExpr(op: Token, operand: Node)
    | GrpExpr(expression: Node)
    | BasicLit(text: string)

  /** The same tree among the nodes of lang/ast/printer.go. */
  function Embed(e: Node): (p: P.Node)
    ensures !P.HasName(p)
  {
    match e
    case BinExpr(l, op, r) => P.BinExpr(Embed(l), op, Embed(r))
    case UnExpr(op, x) => P.UnExpr(op, Embed(x))
    case GrpExpr(x) => P.GrpExpr(Embed(x))
    case BasicLit(text) => P.BasicLit(text)
  }

  function Embeds(es: seq<Node>): (ps: seq<P.Node>)
    ensures |ps| == |es| && forall i :: 0 <= i < |es| ==> ps[i] == Embed(es[i])
  {
    seq(|es|, i requires 0 <= i < |es| => Embed(es[i]))
  }

  /** `Print`: the text `Printer` gives the same tree; it never panics. */
  method Print(e: Node) returns (s: string)
    ensures Some(s) == P.Printed(Embed(e))
    decreases P.Size(Embed(e)), 0
  {
    match e
    case GrpExpr(x) =>
      assert Embeds([x]) == [Embed(x)];
      P.PairSize(Embed(x), Embed(x));
      s := SurroundBracket("group", [x]);
    case BinExpr(left, op, right) =>
      assert Embeds([left, right]) == [Embed(left), Embed(right)];
      P.PairSize(Embed(left), Embed(right));
      s := SurroundBracket(op.value, [left, right]);
    case UnExpr(op, x) =>
      assert Embeds([x]) == [Embed(x)];
      P.PairSize(Embed(x), Embed(x));
      s := SurroundBracket(op.value, [x]);
    case BasicLit(text) => s := text;
  }

  /** `surroundBracket`: "(", the name, a space and each child's print in
   * turn, ")". */
  method SurroundBracket(name: string, exprs: seq<Node>) returns (s: string)
    ensures Some(s) == P.Bracketed(name, Embeds(exprs))
    decreases P.SizeOf(Embeds(exprs)), 2
  {
    var sb := "(" + name;
    var i := 0;
    while i < |exprs|
      invariant 0 <= i <= |exprs|
      invariant P.Items(Embeds(exprs[..i])).Some? && sb == "(" + name + P.Items(Embeds(exprs[..i])).value
    {
      P.SizeOfBound(Embeds(exprs), i);
      var item := Print(exprs[i]);
      assert Embeds(exprs[..i + 1])[..i] == Embeds(exprs[..i]);
      sb := sb + " " + item;
      i := i + 1;
    }
    assert exprs[..i] == exprs;
    s := sb + ")";
  }
}
