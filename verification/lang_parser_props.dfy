/** Properties of the lang/parser.go grammar. */
module LangParserProps {
  import opened Tok
  import opened TokenErrors
  import AP = AstParser
  import opened LangParser

  /** The tokens the expression rules consume: operators and prefixes. */
  predicate ExprToken(t: Type)
  {
    t in {LOGICALOR, LOGICALAND, EQ, NEQ, SM, SMEQ, GR, GREQ, IN, PLUS, MINUS, MULT, DIV, MOD, LOGICALNOT}
  }

  /** A tree of operators over nil operands only. */
  predicate NilLeaves(e: Node)
  {
    match e
    case Nil => true
    case BinExpr(l, _, r) => NilLeaves(l) && NilLeaves(r)
    case UnExpr(_, x) => NilLeaves(x)
    case _ => false
  }

  /** What an expression rule gives: a tree over nil operands, built from
   * operator and prefix tokens only. */
  predicate OnlyOperators(ts: seq<Token>, i: nat, r: Step)
    requires AP.Terminated(ts)
  {
    NilLeaves(r.expr) && forall k :: i <= k < r.next ==> ExprToken(AP.At(ts, k).typ)
  }

  /** As `parsePrimaryExpr` reads nothing, `parseExpr` never reads an
   * operand: it consumes operators and prefixes only and every operand in
   * the tree it builds is nil. */
  lemma {:induction false} LevelOnlyOperators(ts: seq<Token>, lvl: nat, i: nat)
    requires AP.Terminated(ts) && lvl <= 3 && i < |ts|
    ensures OnlyOperators(ts, i, Level(ts, lvl, i))
    decreases |ts| - i, 3 * (4 - lvl) + 2
  {
    var first := Sub(ts, lvl, i);
    SubOnlyOperators(ts, lvl, i);
    TailOnlyOperators(ts, lvl, first.expr, first.next);
  }

  lemma {:induction false} SubOnlyOperators(ts: seq<Token>, lvl: nat, i: nat)
    requires AP.Terminated(ts) && lvl <= 3 && i < |ts|
    ensures OnlyOperators(ts, i, Sub(ts, lvl, i))
    decreases |ts| - i, 3 * (4 - lvl) + 1
  {
    if lvl == 0 {
      NotOnlyOperators(ts, i);
    } else if lvl < 3 {
      LevelOnlyOperators(ts, lvl + 1, i);
    } else {
      UnaryOnlyOperators(ts, i);
    }
  }

  lemma {:induction false} TailOnlyOperators(ts: seq<Token>, lvl: nat, left: Node, i: nat)
    requires AP.Terminated(ts) && lvl <= 3 && i < |ts| && NilLeaves(left)
    ensures var r := LevelTail(ts, lvl, left, i);
      NilLeaves(r.expr) && forall k :: i <= k < r.next ==> ExprToken(AP.At(ts, k).typ)
    decreases |ts| - i, 0
  {
    var t := AP.At(ts, i);
    if t.typ in Ops(lvl) {
      var right := Sub(ts, lvl, i + 1);
      SubOnlyOperators(ts, lvl, i + 1);
      TailTurn(ts, lvl, left, i);
      var r := LevelTail(ts, lvl, BinExpr(left, t, right.expr), right.next);
      TailOnlyOperators(ts, lvl, BinExpr(left, t, right.expr), right.next);
      assert ExprToken(t.typ);
      forall k | i <= k < r.next
        ensures ExprToken(AP.At(ts, k).typ)
      {
        if i < k < right.next {
          assert i + 1 <= k < right.next;
        }
      }
    }
  }

  lemma {:induction false} NotOnlyOperators(ts: seq<Token>, i: nat)
    requires AP.Terminated(ts) && i < |ts|
    ensures OnlyOperators(ts, i, Not(ts, i))
    decreases |ts| - i, 3 * 4
  {
    if AP.At(ts, i).typ == LOGICALNOT {
      NotOnlyOperators(ts, i + 1);
    } else {
      LevelOnlyOperators(ts, 1, i);
    }
  }

  lemma {:induction false} UnaryOnlyOperators(ts: seq<Token>, i: nat)
    requires AP.Terminated(ts) && i < |ts|
    ensures OnlyOperators(ts, i, Unary(ts, i))
    decreases |ts| - i, 1
  {
    if AP.At(ts, i).typ in [PLUS, MINUS] {
      UnaryOnlyOperators(ts, i + 1);
    }
  }

  /** A token that neither starts nor continues an expression at level
   * `lvl` or below. */
  predicate Inert(t: Type, lvl: nat)
  {
    t !in Ops(3) && t !in Ops(2) && (lvl <= 1 ==> t !in Ops(1)) &&
    (lvl == 0 ==> t !in Ops(0) && t != LOGICALNOT)
  }

  /** Before an inert token an expression rule reads nothing and gives nil. */
  lemma {:induction false} LevelAtInert(ts: seq<Token>, lvl: nat, i: nat)
    requires AP.Terminated(ts) && lvl <= 3 && i < |ts| && Inert(AP.At(ts, i).typ, lvl)
    ensures Level(ts, lvl, i) == Step(Nil, i)
    decreases 3 - lvl
  {
    if lvl == 0 {
      LevelAtInert(ts, 1, i);
      assert Not(ts, i) == Level(ts, 1, i);
      assert Sub(ts, 0, i) == Step(Nil, i);
    } else if lvl < 3 {
      LevelAtInert(ts, lvl + 1, i);
      assert Sub(ts, lvl, i) == Step(Nil, i);
    } else {
      assert Unary(ts, i) == Step(Nil, i);
      assert Sub(ts, lvl, i) == Step(Nil, i);
    }
    assert LevelTail(ts, lvl, Nil, i) == Step(Nil, i);
  }

  // ---------------------------------------------------------------------
  // Precedence and grouping, for every input

  /** The operators of a tree over nil operands, left to right. */
  function Tokens(e: Node): seq<Token>
    requires NilLeaves(e)
  {
    match e
    case Nil => []
    case BinExpr(l, op, r) => Tokens(l) + [op] + Tokens(r)
    case UnExpr(op, x) => [op] + Tokens(x)
  }

  /** The level whose loop consumes a binary operator: logical 0,
   * comparison 1, additive 2, multiplicative 3; 4 for anything else. */
  function OpLevel(t: Type): (lvl: nat)
    ensures lvl <= 4 && (lvl < 4 <==> t in Ops(0) + Ops(1) + Ops(2) + Ops(3))
  {
    if t in Ops(0) then 0 else if t in Ops(1) then 1 else if t in Ops(2) then 2
    else if t in Ops(3) then 3 else 4
  }

  /** The rules, loosest first: 0 `parseExpr`, 1 `parseNotExpr`,
   * 2 `parseComparisonExpr`, 3 `parseAddExpr`, 4 `parseMultExpr`,
   * 5 `parseUnExpr`. `LevelRank` is the rule of a level, `SubRank` the
   * rule of its operands. */
  function LevelRank(lvl: nat): nat { if lvl == 0 then 0 else lvl + 1 }

  function SubRank(lvl: nat): nat { if lvl == 0 then 1 else lvl + 2 }

  /** A tree as the rule of rank `k` or a tighter one can build it: a
   * binary node has a left operand of its operator's own rule and a right
   * operand of the next tighter rule (so equal operators group to the
   * left); `!` nests `parseNotExpr` and sits at that rule or looser, a sign
   * nests `parseUnExpr`. */
  predicate Shaped(e: Node, k: nat)
  {
    match e
    case Nil => true
    case BinExpr(l, op, r) =>
      var lvl := OpLevel(op.typ);
      lvl < 4 && k <= LevelRank(lvl) && Shaped(l, LevelRank(lvl)) && Shaped(r, SubRank(lvl))
    case UnExpr(op, x) =>
      if op.typ == LOGICALNOT then k <= 1 && Shaped(x, 1)
      else op.typ in [PLUS, MINUS] && Shaped(x, 5)
    case _ => false
  }

  /** A shape for one rule is a shape for every looser one, and holds only
   * trees over nil operands. */
  lemma {:induction false} ShapedLoosens(e: Node, k: nat, j: nat)
    requires Shaped(e, k) && j <= k
    ensures Shaped(e, j) && NilLeaves(e)
  {
    match e
    case Nil =>
    case BinExpr(l, op, r) =>
      ShapedLoosens(l, LevelRank(OpLevel(op.typ)), LevelRank(OpLevel(op.typ)));
      ShapedLoosens(r, SubRank(OpLevel(op.typ)), SubRank(OpLevel(op.typ)));
    case UnExpr(op, x) =>
      ShapedLoosens(x, if op.typ == LOGICALNOT then 1 else 5, if op.typ == LOGICALNOT then 1 else 5);
  }

  /** Each level gives a tree whose operators are exactly the tokens it
   * consumed, in order, shaped by the level's rule: precedence and left
   * grouping of the binary operators and right nesting of the prefixes,
   * for every input. */
  lemma {:induction false} LevelBuilt(ts: seq<Token>, lvl: nat, i: nat)
    requires AP.Terminated(ts) && lvl <= 3 && i < |ts|
    ensures var r := Level(ts, lvl, i);
      NilLeaves(r.expr) && Tokens(r.expr) == ts[i..r.next] && Shaped(r.expr, LevelRank(lvl))
    decreases |ts| - i, 3 * (4 - lvl) + 2
  {
    var first := Sub(ts, lvl, i);
    SubBuilt(ts, lvl, i);
    ShapedLoosens(first.expr, SubRank(lvl), LevelRank(lvl));
    TailBuilt(ts, lvl, first.expr, first.next);
    var r := Level(ts, lvl, i);
    assert ts[i..r.next] == ts[i..first.next] + ts[first.next..r.next];
  }

  lemma {:induction false} SubBuilt(ts: seq<Token>, lvl: nat, i: nat)
    requires AP.Terminated(ts) && lvl <= 3 && i < |ts|
    ensures var r := Sub(ts, lvl, i);
      NilLeaves(r.expr) && Tokens(r.expr) == ts[i..r.next] && Shaped(r.expr, SubRank(lvl))
    decreases |ts| - i, 3 * (4 - lvl) + 1
  {
    if lvl == 0 {
      NotBuilt(ts, i);
    } else if lvl < 3 {
      LevelBuilt(ts, lvl + 1, i);
    } else {
      UnaryBuilt(ts, i);
    }
  }

  /** A level's loop adds the operators it consumes after the left
   * operand's, and keeps the level's shape. */
  lemma {:induction false} TailBuilt(ts: seq<Token>, lvl: nat, left: Node, i: nat)
    requires AP.Terminated(ts) && lvl <= 3 && i < |ts| && NilLeaves(left)
    ensures var r := LevelTail(ts, lvl, left, i);
      NilLeaves(r.expr) && Tokens(r.expr) == Tokens(left) + ts[i..r.next] &&
      (Shaped(left, LevelRank(lvl)) ==> Shaped(r.expr, LevelRank(lvl)))
    decreases |ts| - i, 0
  {
    var t := AP.At(ts, i);
    if t.typ in Ops(lvl) {
      var right := Sub(ts, lvl, i + 1);
      SubBuilt(ts, lvl, i + 1);
      TailTurn(ts, lvl, left, i);
      var bin := BinExpr(left, t, right.expr);
      if Shaped(left, LevelRank(lvl)) {
        BinShaped(left, t, right.expr, lvl);
      }
      TailBuilt(ts, lvl, bin, right.next);
      var r := LevelTail(ts, lvl, bin, right.next);
      assert t == ts[i];
      FoldTokens(ts, left, right.expr, i, right.next, r.next);
    } else {
      assert ts[i..i] == [];
    }
  }

  /** One turn of a level's loop keeps the level's shape. */
  lemma BinShaped(left: Node, t: Token, right: Node, lvl: nat)
    requires lvl <= 3 && t.typ in Ops(lvl) && Shaped(left, LevelRank(lvl)) && Shaped(right, SubRank(lvl))
    ensures Shaped(BinExpr(left, t, right), LevelRank(lvl))
  {
    assert OpLevel(t.typ) == lvl;
  }

  /** The operators of a node made by one turn of a level's loop. */
  lemma FoldTokens(ts: seq<Token>, left: Node, right: Node, i: nat, j: nat, k: nat)
    requires i < j <= k <= |ts| && NilLeaves(left) && NilLeaves(right) && Tokens(right) == ts[i + 1..j]
    ensures Tokens(BinExpr(left, ts[i], right)) + ts[j..k] == Tokens(left) + ts[i..k]
  {
    assert ts[i..k] == [ts[i]] + ts[i + 1..j] + ts[j..k];
  }

  lemma {:induction false} NotBuilt(ts: seq<Token>, i: nat)
    requires AP.Terminated(ts) && i < |ts|
    ensures var r := Not(ts, i);
      NilLeaves(r.expr) && Tokens(r.expr) == ts[i..r.next] && Shaped(r.expr, 1)
    decreases |ts| - i, 3 * 4
  {
    var t := AP.At(ts, i);
    if t.typ == LOGICALNOT {
      NotBuilt(ts, i + 1);
      var x := Not(ts, i + 1);
      assert ts[i..x.next] == [ts[i]] + ts[i + 1..x.next];
    } else {
      LevelBuilt(ts, 1, i);
      ShapedLoosens(Level(ts, 1, i).expr, 2, 1);
    }
  }

  lemma {:induction false} UnaryBuilt(ts: seq<Token>, i: nat)
    requires AP.Terminated(ts) && i < |ts|
    ensures var r := Unary(ts, i);
      NilLeaves(r.expr) && Tokens(r.expr) == ts[i..r.next] && Shaped(r.expr, 5)
    decreases |ts| - i, 1
  {
    var t := AP.At(ts, i);
    if t.typ in [PLUS, MINUS] {
      UnaryBuilt(ts, i + 1);
      var x := Unary(ts, i + 1);
      assert ts[i..x.next] == [ts[i]] + ts[i + 1..x.next];
    } else {
      assert ts[i..i] == [];
    }
  }

  /** Nests `e` under the prefix operators `ops`, the first outermost. */
  function Prefixed(ops: seq<Token>, e: Node): (r: Node)
    ensures NilLeaves(e) ==> NilLeaves(r) && Tokens(r) == ops + Tokens(e)
  {
    if ops == [] then e else UnExpr(ops[0], Prefixed(ops[1..], e))
  }

  /** A run of `!` gives one `!` node per token, the first outermost, over
   * the comparison after the run. */
  lemma {:induction false} NotsNestRight(ts: seq<Token>, i: nat, n: nat)
    requires AP.Terminated(ts) && i + n < |ts|
    requires forall k :: i <= k < i + n ==> ts[k].typ == LOGICALNOT
    requires ts[i + n].typ != LOGICALNOT
    ensures var c := Level(ts, 1, i + n);
      Not(ts, i) == Step(Prefixed(ts[i..i + n], c.expr), c.next)
    decreases n
  {
    if n > 0 {
      assert AP.At(ts, i) == ts[i];
      NotsNestRight(ts, i + 1, n - 1);
      assert ts[i..i + n][1..] == ts[i + 1..i + n];
    }
  }

  /** A run of `+`/`-` gives one sign node per token, the first outermost,
   * over the nil `parsePrimaryExpr` gives. */
  lemma {:induction false} SignsNestRight(ts: seq<Token>, i: nat, n: nat)
    requires AP.Terminated(ts) && i + n < |ts|
    requires forall k :: i <= k < i + n ==> ts[k].typ in [PLUS, MINUS]
    requires ts[i + n].typ !in [PLUS, MINUS]
    ensures Unary(ts, i) == Step(Prefixed(ts[i..i + n], Nil), i + n)
    decreases n
  {
    if n > 0 {
      assert AP.At(ts, i) == ts[i];
      SignsNestRight(ts, i + 1, n - 1);
      assert ts[i..i + n][1..] == ts[i + 1..i + n];
    }
  }

  /** `||` and `&&` share one precedence level and group to the left:
   * `|| &&` parses as `(nil || nil) && nil`. */
  lemma LogicalLeftFold(ts: seq<Token>)
    requires |ts| == 3 && ts[0].typ == LOGICALOR && ts[1].typ == LOGICALAND && ts[2].typ == EOF
    ensures Level(ts, 0, 0) == Step(BinExpr(BinExpr(Nil, ts[0], Nil), ts[1], Nil), 2)
  {
    LevelAtInert(ts, 1, 0);
    LevelAtInert(ts, 1, 1);
    LevelAtInert(ts, 1, 2);
    assert Sub(ts, 0, 0) == Step(Nil, 0) && Sub(ts, 0, 1) == Step(Nil, 1) && Sub(ts, 0, 2) == Step(Nil, 2);
    TailTurn(ts, 0, Nil, 0);
    TailTurn(ts, 0, BinExpr(Nil, ts[0], Nil), 1);
    var both := BinExpr(BinExpr(Nil, ts[0], Nil), ts[1], Nil);
    assert LevelTail(ts, 0, both, 2) == Step(both, 2);
  }

  /** `!` nests to the right: `! !` parses as `!(!nil)`. */
  lemma NotNests(ts: seq<Token>)
    requires |ts| == 3 && ts[0].typ == LOGICALNOT && ts[1].typ == LOGICALNOT && ts[2].typ == EOF
    ensures Level(ts, 0, 0) == Step(UnExpr(ts[0], UnExpr(ts[1], Nil)), 2)
  {
    LevelAtInert(ts, 1, 2);
    assert Not(ts, 1) == Step(UnExpr(ts[1], Nil), 2);
    assert Sub(ts, 0, 0) == Step(UnExpr(ts[0], UnExpr(ts[1], Nil)), 2);
    assert LevelTail(ts, 0, UnExpr(ts[0], UnExpr(ts[1], Nil)), 2) == Step(UnExpr(ts[0], UnExpr(ts[1], Nil)), 2);
  }

  /** A literal is an operand; a parenthesised nothing is nil. */
  lemma OperandExamples(ts: seq<Token>, us: seq<Token>)
    requires |ts| == 2 && ts[0].typ == INT && ts[1].typ == EOF
    requires |us| == 3 && us[0].typ == LROUND && us[1].typ == RROUND && us[2].typ == EOF
    ensures Operand(ts, 0) == Parsed(BasicLit(ts[0]), 1)
    ensures Operand(us, 0) == Parsed(Nil, 2)
  {
    LevelAtInert(us, 0, 1);
  }

  /** An array holding a literal is refused: `parseExpr` leaves the literal
   * unread, so `nextComma` finds it where a comma should be. */
  lemma ArrayOfLiteral(ts: seq<Token>)
    requires |ts| == 4 && ts[0].typ == LSQUARE && ts[1].typ == INT && ts[2].typ == RSQUARE && ts[3].typ == EOF
    ensures Array(ts, 0) == Failed(SyntaxMessage(ts[0], "missing comma ',' in Array"))
  {
    LevelAtInert(ts, 0, 1);
  }

  /** `n` nil elements. */
  function Nils(n: nat): (s: seq<Node>)
    ensures |s| == n && forall k :: 0 <= k < n ==> s[k] == Nil
  {
    seq(n, _ => Nil)
  }

  /** A collection's tokens: the opener at 0, commas at 1..n, the closer of
   * the kind at n + 1. */
  predicate CommaRun(ts: seq<Token>, dict: bool, n: nat)
  {
    AP.Terminated(ts) && n + 1 < |ts| &&
    ts[0].typ == (if dict then LCURLY else LSQUARE) &&
    (forall k :: 1 <= k <= n ==> ts[k].typ == COMMA) &&
    ts[n + 1].typ == Closer(dict)
  }

  /** Over a run of commas each turn of a collection's loop gathers one nil
   * element. At the closer the loop stops when it tests for the closer;
   * otherwise it gathers one more nil element there. */
  lemma {:induction false} ElementsOverCommas(ts: seq<Token>, dict: bool, stop: Type, n: nat, els: seq<Node>, j: nat)
    requires CommaRun(ts, dict, n) && 1 <= j <= n + 1 && stop in [RSQUARE, RCURLY]
    ensures Elements(ts, dict, stop, els, j) ==
      Gathered(els + Nils(n + 1 - j + (if stop == Closer(dict) then 0 else 1)), n + 1)
    decreases n + 1 - j
  {
    if j <= n {
      var m := n + 1 - (j + 1) + (if stop == Closer(dict) then 0 else 1);
      ElementAtComma(ts, dict, stop, n, els, j);
      ElementsOverCommas(ts, dict, stop, n, els + [Nil], j + 1);
      NilsCons(els, m);
    } else {
      ElementsAtCloser(ts, dict, stop, n, els);
    }
  }

  /** At a comma, one nil element, and the loop goes on past the comma. */
  lemma ElementAtComma(ts: seq<Token>, dict: bool, stop: Type, n: nat, els: seq<Node>, j: nat)
    requires CommaRun(ts, dict, n) && 1 <= j <= n && stop in [RSQUARE, RCURLY]
    ensures Elements(ts, dict, stop, els, j) == Elements(ts, dict, stop, els + [Nil], j + 1)
  {
    assert AP.At(ts, j) == ts[j];
    NilElement(ts, dict, j);
    ElementsComma(ts, dict, stop, els, j);
  }

  /** Before an inert token, either element rule gives nil. */
  lemma NilElement(ts: seq<Token>, dict: bool, j: nat)
    requires AP.Terminated(ts) && j < |ts| && Inert(AP.At(ts, j).typ, 0)
    ensures Element(ts, dict, j) == Step(Nil, j)
  {
    if !dict {
      LevelAtInert(ts, 0, j);
    }
  }

  /** At the closer. */
  lemma ElementsAtCloser(ts: seq<Token>, dict: bool, stop: Type, n: nat, els: seq<Node>)
    requires CommaRun(ts, dict, n) && stop in [RSQUARE, RCURLY]
    ensures Elements(ts, dict, stop, els, n + 1) ==
      Gathered(els + Nils(if stop == Closer(dict) then 0 else 1), n + 1)
  {
    assert AP.At(ts, n + 1) == ts[n + 1];
    if stop == Closer(dict) {
      assert els + Nils(0) == els;
    } else {
      NilElement(ts, dict, n + 1);
      ElementsTurn(ts, dict, stop, els, n + 1);
      assert Nils(1) == [Nil];
    }
  }

  lemma NilsCons(els: seq<Node>, m: nat)
    ensures els + [Nil] + Nils(m) == els + Nils(m + 1)
  {
    assert [Nil] + Nils(m) == Nils(m + 1);
  }

  /** An array `[` then `n` commas then `]` gathers `n` nil elements. */
  lemma ArrayOfCommas(ts: seq<Token>, n: nat)
    requires n >= 1 && CommaRun(ts, false, n)
    ensures Array(ts, 0) == Parsed(ListExpr(ts[0], Nils(n), ts[n + 1]), n + 2)
  {
    ElementsOverCommas(ts, false, RSQUARE, n, [], 1);
  }

  /** `parseDict` as written: `{` then `n` commas then `}` gathers `n + 1`
   * nil elements, as its loop runs on past the closing `}`. For `{,}` that
   * is two elements. */
  lemma DictOfCommasAsWritten(ts: seq<Token>, n: nat)
    requires n >= 1 && CommaRun(ts, true, n)
    ensures Dict(ts, 0) == Parsed(DictExpr(ts[0], Nils(n + 1), ts[n + 1]), n + 2)
  {
    ElementsOverCommas(ts, true, RSQUARE, n, [], 1);
  }

  /** `parseDict` as intended: `{` then `n` commas then `}` gathers `n` nil
   * elements, just as an array does; for `{,}` that is one element. */
  lemma DictOfCommasIntended(ts: seq<Token>, n: nat)
    requires n >= 1 && CommaRun(ts, true, n)
    ensures DictIntended(ts, 0) == Parsed(DictExpr(ts[0], Nils(n), ts[n + 1]), n + 2)
  {
    ElementsOverCommas(ts, true, RCURLY, n, [], 1);
  }
}
