/**
 * lang/parser.go: the unfinished parser over the `token.Lexer` stream. The
 * lexer is the token sequence `ts`; reading past its end yields its final
 * EOF again and again.
 *
 * As written, `parsePrimaryExpr` returns nil without reading a token, so
 * the expression rules only ever gather operators around nil operands, and
 * `parse` is empty, so `Parse` reads nothing and returns a nil root. The
 * operand, array and dictionary rules are complete and are modelled on
 * their own.
 *
 * The grammar is given by pure functions over (ts, index), and the `Parser`
 * class's methods are proved to follow them. A panic (from `errorf`) is the
 * `Failed` result, carrying the panic's message.
 */
module LangParser {
  import opened Tok
  import opened TokenErrors
  import AP = AstParser

  /** The nodes this parser builds; `Nil` is a nil `Expr`. The constructors
   * `newBinExpr`, `newUnExpr`, `newBasicLit`, `newList` and `newDict` it
   * calls are not part of lang/node.go. */
  datatype Node =
    | Nil
    | BinExpr(left: Node, op: Token, right: Node)
    | UnExpr(op: Token, operand: Node)
    | BasicLit(token: Token)
    | ListExpr(lsquare: Token, elements: seq<Node>, rsquare: Token)
    | DictExpr(lcurly: Token, elements: seq<Node>, rcurly: Token)

  /** The result of an expression rule, which never fails. */
  datatype Step = Step(expr: Node, next: nat)

  /** The result of a rule that may panic. */
  datatype Parsed = Parsed(expr: Node, next: nat) | Failed(msg: string)

  /** A `Parser`'s `currentToken` before anything is consumed. */
  const ZeroToken: Token := Token(ERROR, "", 0)

  /** The current token once `i` tokens are consumed: the last of them. */
  function Current(ts: seq<Token>, i: nat): Token
    requires AP.Terminated(ts)
  {
    if i == 0 then ZeroToken else AP.At(ts, i - 1)
  }

  /** `errorf`'s message: the current token's position, then the text. */
  function SyntaxMessage(current: Token, msg: string): string
  {
    PosString(current.pos) + ": SyntaxError - " + msg
  }

  /** `unexpected`'s text. */
  function UnexpectedMsg(tkn: Token, context: string): string
  {
    "unexpected " + TokenString(tkn) + " in " + context
  }

  /** `nextComma`'s text when neither a comma nor the follow token comes. */
  function MissingCommaMsg(la: Token, context: string): string
  {
    var msg := "missing comma ','";
    var msg := if la.typ == SEMICOLON && la.value == "\n" then msg + " before newline" else msg;
    msg + " in " + context
  }

  // ---------------------------------------------------------------------
  // Expressions

  /** The operators of each binary level: logical 0, comparison 1,
   * additive 2, multiplicative 3. */
  function Ops(lvl: nat): seq<Type>
  {
    if lvl == 0 then [LOGICALOR, LOGICALAND]
    else if lvl == 1 then [EQ, NEQ, SM, SMEQ, GR, GREQ, IN]
    else if lvl == 2 then [PLUS, MINUS]
    else [MULT, DIV, MOD]
  }

  /** `parseExpr`, `parseComparisonExpr`, `parseAddExpr`, `parseMultExpr`:
   * an operand, then the level's loop. */
  function Level(ts: seq<Token>, lvl: nat, i: nat): (r: Step)
    requires AP.Terminated(ts) && lvl <= 3 && i < |ts|
    ensures i <= r.next < |ts|
    decreases |ts| - i, 3 * (4 - lvl) + 2
  {
    var first := Sub(ts, lvl, i);
    LevelTail(ts, lvl, first.expr, first.next)
  }

  /** The operand rule of a level: `parseNotExpr` for the logical level,
   * the next level's rule for the others, `parseUnExpr` for the last. */
  function Sub(ts: seq<Token>, lvl: nat, i: nat): (r: Step)
    requires AP.Terminated(ts) && lvl <= 3 && i < |ts|
    ensures i <= r.next < |ts|
    decreases |ts| - i, 3 * (4 - lvl) + 1
  {
    if lvl == 0 then Not(ts, i)
    else if lvl < 3 then Level(ts, lvl + 1, i)
    else Unary(ts, i)
  }

  /** A level's loop: while the next token is one of its operators, consume
   * it and combine with the next operand, to the left. */
  function LevelTail(ts: seq<Token>, lvl: nat, left: Node, i: nat): (r: Step)
    requires AP.Terminated(ts) && lvl <= 3 && i < |ts|
    ensures i <= r.next < |ts|
    decreases |ts| - i, 0
  {
    var t := AP.At(ts, i);
    if t.typ in Ops(lvl) then
      var right := Sub(ts, lvl, i + 1);
      LevelTail(ts, lvl, BinExpr(left, t, right.expr), right.next)
    else Step(left, i)
  }

  /** One turn of a level's loop. */
  lemma TailTurn(ts: seq<Token>, lvl: nat, left: Node, i: nat)
    requires AP.Terminated(ts) && lvl <= 3 && i < |ts| && AP.At(ts, i).typ in Ops(lvl)
    ensures var right := Sub(ts, lvl, i + 1);
      LevelTail(ts, lvl, left, i) == LevelTail(ts, lvl, BinExpr(left, AP.At(ts, i), right.expr), right.next)
  {
  }

  /** `parseNotExpr`: `!` nests to the right, else a comparison. */
  function Not(ts: seq<Token>, i: nat): (r: Step)
    requires AP.Terminated(ts) && i < |ts|
    ensures i <= r.next < |ts|
    decreases |ts| - i, 3 * 4
  {
    var t := AP.At(ts, i);
    if t.typ == LOGICALNOT then
      var x := Not(ts, i + 1);
      Step(UnExpr(t, x.expr), x.next)
    else Level(ts, 1, i)
  }

  /** `parseUnExpr`: prefix `+`/`-` nest to the right, else a primary. */
  function Unary(ts: seq<Token>, i: nat): (r: Step)
    requires AP.Terminated(ts) && i < |ts|
    ensures i <= r.next < |ts|
    decreases |ts| - i, 1
  {
    var t := AP.At(ts, i);
    if t.typ in [PLUS, MINUS] then
      var x := Unary(ts, i + 1);
      Step(UnExpr(t, x.expr), x.next)
    else Primary(ts, i)
  }

  /** `parsePrimaryExpr`: nil, reading nothing. */
  function Primary(ts: seq<Token>, i: nat): (r: Step)
    requires AP.Terminated(ts) && i < |ts|
    ensures r == Step(Nil, i)
  {
    Step(Nil, i)
  }

  // ---------------------------------------------------------------------
  // Operands, arrays and dictionaries

  /** `parseOperand`: a literal, a parenthesised expression (kept without
   * a group node), an array, a dictionary, or nil reading nothing. */
  function Operand(ts: seq<Token>, i: nat): (r: Parsed)
    requires AP.Terminated(ts) && i < |ts|
    ensures r.Parsed? ==> i <= r.next < |ts|
  {
    var t := AP.At(ts, i);
    if t.typ in [INT, FLOAT, STR] then Parsed(BasicLit(t), i + 1)
    else if t.typ == LROUND then
      var n := Level(ts, 0, i + 1);
      var close := AP.At(ts, n.next);
      if close.typ == RROUND then Parsed(n.expr, n.next + 1)
      else Failed(SyntaxMessage(close, UnexpectedMsg(close, "Operand")))
    else if t.typ == LSQUARE then Array(ts, i)
    else if t.typ == LCURLY then Dict(ts, i)
    else Parsed(Nil, i)
  }

  /** The elements gathered by a collection's loop so far, or its panic. */
  datatype Gathered = Gathered(elements: seq<Node>, next: nat) | Panicked(msg: string)

  function Context(dict: bool): string { if dict then "Dictionary" else "Array" }

  function Closer(dict: bool): Type { if dict then RCURLY else RSQUARE }

  /** The element rule: `parseDictEl` (nil, reading nothing) or `parseExpr`. */
  function Element(ts: seq<Token>, dict: bool, j: nat): (r: Step)
    requires AP.Terminated(ts) && j < |ts|
    ensures j <= r.next < |ts|
  {
    if dict then Step(Nil, j) else Level(ts, 0, j)
  }

  /** A collection's loop from `j`: while the next token is neither `stop`
   * nor EOF, an element, then `nextComma` — a comma is consumed and the loop
   * goes on, the closer ends the loop, anything else panics. */
  function Elements(ts: seq<Token>, dict: bool, stop: Type, els: seq<Node>, j: nat): (r: Gathered)
    requires AP.Terminated(ts) && j < |ts|
    ensures r.Gathered? ==> j <= r.next < |ts| && |r.elements| >= |els|
    decreases |ts| - j
  {
    var t := AP.At(ts, j);
    if t.typ == stop || t.typ == EOF then Gathered(els, j)
    else
      var e := Element(ts, dict, j);
      var la := AP.At(ts, e.next);
      if la.typ == COMMA then Elements(ts, dict, stop, els + [e.expr], e.next + 1)
      else if la.typ != Closer(dict) then
        Panicked(SyntaxMessage(Current(ts, e.next), MissingCommaMsg(la, Context(dict))))
      else Gathered(els + [e.expr], e.next)
  }

  /** One turn of a collection's loop, past an element. */
  lemma ElementsTurn(ts: seq<Token>, dict: bool, stop: Type, els: seq<Node>, j: nat)
    requires AP.Terminated(ts) && j < |ts| && AP.At(ts, j).typ != stop && AP.At(ts, j).typ != EOF
    ensures var e := Element(ts, dict, j); var la := AP.At(ts, e.next);
      Elements(ts, dict, stop, els, j) ==
        if la.typ == COMMA then Elements(ts, dict, stop, els + [e.expr], e.next + 1)
        else if la.typ != Closer(dict) then Panicked(SyntaxMessage(Current(ts, e.next), MissingCommaMsg(la, Context(dict))))
        else Gathered(els + [e.expr], e.next)
  {
  }

  /** A turn of a collection's loop that ends at a comma goes on past it. */
  lemma ElementsComma(ts: seq<Token>, dict: bool, stop: Type, els: seq<Node>, j: nat)
    requires AP.Terminated(ts) && j < |ts| && AP.At(ts, j).typ != stop && AP.At(ts, j).typ != EOF
    requires AP.At(ts, Element(ts, dict, j).next).typ == COMMA
    ensures var e := Element(ts, dict, j);
      Elements(ts, dict, stop, els, j) == Elements(ts, dict, stop, els + [e.expr], e.next + 1)
  {
  }

  /** One turn of a collection's loop in the terms the parser sees: the
   * element `x` read up to `k`, whether a comma follows, and the panic
   * `nextComma` raises. */
  lemma ElementsAfter(ts: seq<Token>, dict: bool, stop: Type, els: seq<Node>, j: nat, x: Node, k: nat, comma: bool, err: Option<string>)
    requires AP.Terminated(ts) && j < |ts| && AP.At(ts, j).typ != stop && AP.At(ts, j).typ != EOF
    requires Step(x, k) == Element(ts, dict, j)
    requires comma <==> AP.At(ts, k).typ == COMMA
    requires err == if AP.At(ts, k).typ == COMMA || AP.At(ts, k).typ == Closer(dict) then None
                    else Some(SyntaxMessage(Current(ts, k), MissingCommaMsg(AP.At(ts, k), Context(dict))))
    ensures comma ==> k + 1 < |ts| && Elements(ts, dict, stop, els, j) == Elements(ts, dict, stop, els + [x], k + 1)
    ensures !comma ==> Elements(ts, dict, stop, els, j) == if err.None? then Gathered(els + [x], k) else Panicked(err.value)
  {
    if comma {
      ElementsComma(ts, dict, stop, els, j);
    } else {
      ElementsTurn(ts, dict, stop, els, j);
    }
  }

  /** `parseArray` and `parseDict`: the opener, the loop when the next token
   * is not the closer, then the closer. `stop` is the type the loop tests. */
  function Collection(ts: seq<Token>, dict: bool, stop: Type, i: nat): (r: Parsed)
    requires AP.Terminated(ts) && i < |ts|
    ensures r.Parsed? ==> i < r.next < |ts|
  {
    var open := AP.At(ts, i);
    var opener := if dict then LCURLY else LSQUARE;
    if open.typ != opener then Failed(SyntaxMessage(open, UnexpectedMsg(open, Context(dict))))
    else Opened(ts, dict, stop, open, i + 1)
  }

  /** A collection past its opener `open`: the elements, unless the closer
   * comes at once, then the closer. */
  function Opened(ts: seq<Token>, dict: bool, stop: Type, open: Token, j: nat): (r: Parsed)
    requires AP.Terminated(ts) && j < |ts|
    ensures r.Parsed? ==> j < r.next < |ts|
  {
    var g := Gather(ts, dict, stop, j);
    if g.Panicked? then Failed(g.msg) else CollectionEnd(ts, dict, open, g.elements, g.next)
  }

  /** The elements of a collection, none when the closer comes at once. */
  function Gather(ts: seq<Token>, dict: bool, stop: Type, j: nat): (g: Gathered)
    requires AP.Terminated(ts) && j < |ts|
    ensures g.Gathered? ==> j <= g.next < |ts|
  {
    if AP.At(ts, j).typ != Closer(dict) then Elements(ts, dict, stop, [], j) else Gathered([], j)
  }

  /** The closer after a collection's elements. */
  function CollectionEnd(ts: seq<Token>, dict: bool, open: Token, elements: seq<Node>, j: nat): (r: Parsed)
    requires AP.Terminated(ts)
    ensures r.Parsed? ==> j < r.next < |ts|
  {
    var close := AP.At(ts, j);
    if close.typ != Closer(dict) then Failed(SyntaxMessage(close, UnexpectedMsg(close, Context(dict))))
    else Parsed(if dict then DictExpr(open, elements, close) else ListExpr(open, elements, close), j + 1)
  }

  /** A collection fails at a wrong opener. */
  lemma CollectionFails(ts: seq<Token>, dict: bool, stop: Type, i: nat)
    requires AP.Terminated(ts) && i < |ts| && AP.At(ts, i).typ != (if dict then LCURLY else LSQUARE)
    ensures Collection(ts, dict, stop, i) == Failed(SyntaxMessage(AP.At(ts, i), UnexpectedMsg(AP.At(ts, i), Context(dict))))
  {
  }

  /** A collection goes on past its opener. */
  lemma CollectionOpens(ts: seq<Token>, dict: bool, stop: Type, i: nat)
    requires AP.Terminated(ts) && i < |ts| && AP.At(ts, i).typ == (if dict then LCURLY else LSQUARE)
    ensures i + 1 < |ts| && Collection(ts, dict, stop, i) == Opened(ts, dict, stop, AP.At(ts, i), i + 1)
  {
  }

  /** `parseArray`. */
  function Array(ts: seq<Token>, i: nat): (r: Parsed)
    requires AP.Terminated(ts) && i < |ts|
    ensures r.Parsed? ==> i < r.next < |ts| && r.expr.ListExpr?
  {
    Collection(ts, false, RSQUARE, i)
  }

  /** `parseDict` as written: its loop tests for `]`, not `}`. */
  function Dict(ts: seq<Token>, i: nat): (r: Parsed)
    requires AP.Terminated(ts) && i < |ts|
    ensures r.Parsed? ==> i < r.next < |ts| && r.expr.DictExpr?
  {
    Collection(ts, true, RSQUARE, i)
  }

  /** `parseDict` as evidently intended: its loop tests for `}`. */
  function DictIntended(ts: seq<Token>, i: nat): (r: Parsed)
    requires AP.Terminated(ts) && i < |ts|
    ensures r.Parsed? ==> i < r.next < |ts| && r.expr.DictExpr?
  {
    Collection(ts, true, RCURLY, i)
  }

  // ---------------------------------------------------------------------
  // The parser

  class Parser {
    const name: string
    /** What the lexer yields, call after call. */
    const ts: seq<Token>
    /** How many tokens the lexer has handed out. */
    var scanned: nat
    /** The lookahead `token.List`, bottom first. */
    var tokens: seq<Token>
    var currentToken: Token
    /** `Root`; nothing but nil is ever stored in it. */
    var root: Option<Node>

    /** What the grammar rules keep, as none of them calls `backup`: the
     * lookahead holds at most the one token `peek` fetched, which is the
     * last one scanned, and the current token is the last consumed.
     * `next`, `peek` and `backup` themselves serve any lookahead. */
    predicate Valid()
      reads this
    {
      AP.Terminated(ts) && |tokens| <= 1 && |tokens| <= scanned &&
      (|tokens| == 1 ==> tokens[0] == AP.At(ts, scanned - 1)) &&
      currentToken == Current(ts, scanned - |tokens|)
    }

    /** How many tokens the parser has consumed. */
    function Pos(): nat
      reads this
      requires |tokens| <= scanned
    {
      scanned - |tokens|
    }

    /** The `i`-th token the parser will be handed from here on: the
     * lookahead first, bottom to top, then the lexer's next tokens. */
    function Upcoming(i: nat): (t: Token)
      reads this
      requires AP.Terminated(ts)
      ensures i < |tokens| ==> t == tokens[i]
    {
      if i < |tokens| then tokens[i] else AP.At(ts, scanned + i - |tokens|)
    }

    /** A rule that may panic agrees with the grammar function `p`: it
     * returns `p`'s tree where `p` succeeds, and `p`'s message, with a nil
     * root, where `p` panics. */
    ghost predicate Reached(node: Node, err: Option<string>, p: Parsed, root0: Option<Node>)
      reads this
    {
      match p
      case Parsed(e, j) => err == None && node == e && |tokens| <= scanned && Pos() == j && root == root0
      case Failed(msg) => err == Some(msg) && root == None
    }

    /** `initParser`: nothing read yet, a nil root. */
    constructor (name: string, ts: seq<Token>)
      requires AP.Terminated(ts)
      ensures this.name == name && this.ts == ts
      ensures Valid() && Pos() == 0 && tokens == [] && root == None
    {
      this.name := name;
      this.ts := ts;
      scanned := 0;
      tokens := [];
      currentToken := ZeroToken;
      root := None;
    }

    /** The lexer's `Next`. */
    method Fetch() returns (t: Token)
      requires AP.Terminated(ts)
      modifies this
      ensures t == AP.At(ts, old(scanned)) && scanned == old(scanned) + 1
      ensures tokens == old(tokens) && currentToken == old(currentToken) && root == old(root)
    {
      t := AP.At(ts, scanned);
      scanned := scanned + 1;
    }

    /** `next`: the bottom of the lookahead if there is one, else a fresh
     * token from the lexer; it becomes the current token. */
    method Next() returns (t: Token)
      requires AP.Terminated(ts)
      modifies this
      ensures currentToken == t && root == old(root)
      ensures t == old(Upcoming(0)) && forall i: nat :: Upcoming(i) == old(Upcoming(i + 1))
      ensures old(tokens) != [] ==> t == old(tokens)[0] && tokens == old(tokens)[1..] && scanned == old(scanned)
      ensures old(tokens) == [] ==> t == AP.At(ts, old(scanned)) && tokens == [] && scanned == old(scanned) + 1
      ensures old(Valid()) ==> Valid() && t == AP.At(ts, old(Pos())) && Pos() == old(Pos()) + 1
    {
      if tokens != [] {
        t, tokens := tokens[0], tokens[1..];
      } else {
        t := Fetch();
      }
      currentToken := t;
    }

    /** `backup`: the tokens go back to the bottom of the lookahead, in order. */
    method Backup(tkns: seq<Token>)
      requires AP.Terminated(ts)
      modifies this
      ensures tokens == tkns + old(tokens)
      ensures scanned == old(scanned) && currentToken == old(currentToken) && root == old(root)
      ensures forall i: nat :: Upcoming(i) == if i < |tkns| then tkns[i] else old(Upcoming(i - |tkns|))
    {
      tokens := tkns + tokens;
    }

    /** `peek`: the token `next` would return, fetched from the lexer into
     * the lookahead only when the lookahead is empty. */
    method Peek() returns (t: Token)
      requires AP.Terminated(ts)
      modifies this
      ensures currentToken == old(currentToken) && root == old(root)
      ensures t == old(Upcoming(0)) && forall i: nat :: Upcoming(i) == old(Upcoming(i))
      ensures old(tokens) != [] ==> t == old(tokens)[0] && tokens == old(tokens) && scanned == old(scanned)
      ensures old(tokens) == [] ==> t == AP.At(ts, old(scanned)) && tokens == [t] && scanned == old(scanned) + 1
      ensures old(Valid()) ==> Valid() && t == AP.At(ts, Pos()) && Pos() == old(Pos())
    {
      if tokens == [] {
        var fetched := Fetch();
        tokens := tokens + [fetched];
      }
      t := tokens[0];
    }

    /** `errorf`: the root becomes nil and the panic's message names the
     * current token's position. */
    method Errorf(msg: string) returns (err: string)
      modifies this
      ensures err == SyntaxMessage(currentToken, msg) && root == None
      ensures scanned == old(scanned) && tokens == old(tokens) && currentToken == old(currentToken)
    {
      root := None;
      err := SyntaxMessage(currentToken, msg);
    }

    /** `unexpected`. */
    method Unexpected(context: string, tkn: Token) returns (err: string)
      modifies this
      ensures err == SyntaxMessage(currentToken, UnexpectedMsg(tkn, context)) && root == None
      ensures scanned == old(scanned) && tokens == old(tokens) && currentToken == old(currentToken)
    {
      err := Errorf("unexpected " + TokenString(tkn) + " in " + context);
    }

    /** `expect`: consumes one token and panics unless it has the type. */
    method Expect(context: string, expected: Type) returns (tkn: Token, err: Option<string>)
      requires Valid()
      modifies this
      ensures Valid() && Pos() == old(Pos()) + 1 && tkn == AP.At(ts, old(Pos()))
      ensures err == if tkn.typ == expected then None else Some(SyntaxMessage(tkn, UnexpectedMsg(tkn, context)))
      ensures root == if err.Some? then None else old(root)
    {
      tkn := Next();
      err := None;
      if tkn.typ != expected {
        var msg := Unexpected(context, tkn);
        err := Some(msg);
      }
    }

    /** `expectRange`: consumes one token and panics unless it has one of
     * the types. */
    method ExpectRange(context: string, expectedTypes: seq<Type>) returns (tkn: Token, err: Option<string>)
      requires Valid()
      modifies this
      ensures Valid() && Pos() == old(Pos()) + 1 && tkn == AP.At(ts, old(Pos()))
      ensures err == if tkn.typ in expectedTypes then None else Some(SyntaxMessage(tkn, UnexpectedMsg(tkn, context)))
      ensures root == if err.Some? then None else old(root)
    {
      tkn := Next();
      for k := 0 to |expectedTypes|
        invariant tkn.typ !in expectedTypes[..k]
      {
        if tkn.typ == expectedTypes[k] {
          return tkn, None;
        }
      }
      assert expectedTypes[..|expectedTypes|] == expectedTypes;
      var msg := Unexpected(context, tkn);
      err := Some(msg);
    }

    /** `nextComma`: true on a comma, false on the follow token (neither is
     * consumed), and a panic on anything else. */
    method NextComma(context: string, followTyp: Type) returns (comma: bool, err: Option<string>)
      requires Valid()
      modifies this
      ensures Valid() && Pos() == old(Pos())
      ensures var la := AP.At(ts, Pos());
        (comma <==> la.typ == COMMA) &&
        err == if la.typ == COMMA || la.typ == followTyp then None
               else Some(SyntaxMessage(Current(ts, Pos()), MissingCommaMsg(la, context)))
      ensures root == if err.Some? then None else old(root)
    {
      var t := Peek();
      var typ := t.typ;
      if typ == COMMA {
        return true, None;
      }
      if typ != followTyp {
        var msg := "missing comma ','";
        var la := Peek();
        if typ == SEMICOLON && la.value == "\n" {
          msg := msg + " before newline";
        }
        var e := Errorf(msg + " in " + context);
        return false, Some(e);
      }
      return false, None;
    }

    // -------------------------------------------------------------------
    // Expression rules

    /** `parseExpr`. */
    method ParseExpr() returns (node: Node)
      requires Valid() && Pos() < |ts|
      modifies this
      ensures Valid() && Step(node, Pos()) == Level(ts, 0, old(Pos())) && root == old(root)
      decreases |ts| - Pos(), 3 * 4 + 2
    {
      ghost var i0 := Pos();
      node := ParseNotExpr();
      while true
        invariant Valid() && Pos() < |ts| && root == old(root)
        invariant LevelTail(ts, 0, node, Pos()) == Level(ts, 0, i0)
        decreases |ts| - Pos()
      {
        var t := Peek();
        if !(t.typ == LOGICALOR || t.typ == LOGICALAND) {
          break;
        }
        TailTurn(ts, 0, node, Pos());
        var tkn := Next();
        var right := ParseNotExpr();
        node := BinExpr(node, tkn, right);
      }
    }

    /** `parseNotExpr`. */
    method ParseNotExpr() returns (node: Node)
      requires Valid() && Pos() < |ts|
      modifies this
      ensures Valid() && Step(node, Pos()) == Not(ts, old(Pos())) && root == old(root)
      decreases |ts| - Pos(), 3 * 4
    {
      var t := Peek();
      if t.typ == LOGICALNOT {
        var tkn := Next();
        var x := ParseNotExpr();
        node := UnExpr(tkn, x);
      } else {
        node := ParseComparisonExpr();
      }
    }

    /** `parseComparisonExpr`. */
    method ParseComparisonExpr() returns (node: Node)
      requires Valid() && Pos() < |ts|
      modifies this
      ensures Valid() && Step(node, Pos()) == Level(ts, 1, old(Pos())) && root == old(root)
      decreases |ts| - Pos(), 3 * 3 + 2
    {
      ghost var i0 := Pos();
      node := ParseAddExpr();
      while true
        invariant Valid() && Pos() < |ts| && root == old(root)
        invariant LevelTail(ts, 1, node, Pos()) == Level(ts, 1, i0)
        decreases |ts| - Pos()
      {
        var t := Peek();
        if t.typ !in [EQ, NEQ, SM, SMEQ, GR, GREQ, IN] {
          break;
        }
        TailTurn(ts, 1, node, Pos());
        var tkn := Next();
        var right := ParseAddExpr();
        node := BinExpr(node, tkn, right);
      }
    }

    /** `parseAddExpr`. */
    method ParseAddExpr() returns (node: Node)
      requires Valid() && Pos() < |ts|
      modifies this
      ensures Valid() && Step(node, Pos()) == Level(ts, 2, old(Pos())) && root == old(root)
      decreases |ts| - Pos(), 3 * 2 + 2
    {
      ghost var i0 := Pos();
      node := ParseMultExpr();
      while true
        invariant Valid() && Pos() < |ts| && root == old(root)
        invariant LevelTail(ts, 2, node, Pos()) == Level(ts, 2, i0)
        decreases |ts| - Pos()
      {
        var t := Peek();
        if t.typ !in [PLUS, MINUS] {
          break;
        }
        TailTurn(ts, 2, node, Pos());
        var tkn := Next();
        var right := ParseMultExpr();
        node := BinExpr(node, tkn, right);
      }
    }

    /** `parseMultExpr`. */
    method ParseMultExpr() returns (node: Node)
      requires Valid() && Pos() < |ts|
      modifies this
      ensures Valid() && Step(node, Pos()) == Level(ts, 3, old(Pos())) && root == old(root)
      decreases |ts| - Pos(), 3 * 1 + 2
    {
      ghost var i0 := Pos();
      node := ParseUnExpr();
      while true
        invariant Valid() && Pos() < |ts| && root == old(root)
        invariant LevelTail(ts, 3, node, Pos()) == Level(ts, 3, i0)
        decreases |ts| - Pos()
      {
        var t := Peek();
        if t.typ !in [MULT, DIV, MOD] {
          break;
        }
        TailTurn(ts, 3, node, Pos());
        var tkn := Next();
        var right := ParseUnExpr();
        node := BinExpr(node, tkn, right);
      }
    }

    /** `parseUnExpr`. */
    method ParseUnExpr() returns (node: Node)
      requires Valid() && Pos() < |ts|
      modifies this
      ensures Valid() && Step(node, Pos()) == Unary(ts, old(Pos())) && root == old(root)
      decreases |ts| - Pos(), 1
    {
      var t := Peek();
      if t.typ == PLUS || t.typ == MINUS {
        var tkn := Next();
        var x := ParseUnExpr();
        node := UnExpr(tkn, x);
      } else {
        node := ParsePrimaryExpr();
      }
    }

    /** `parsePrimaryExpr`. */
    method ParsePrimaryExpr() returns (node: Node)
      ensures node == Nil
    {
      node := Nil;
    }

    // -------------------------------------------------------------------
    // Operand rules

    /** `parseOperand`. */
    method ParseOperand() returns (node: Node, err: Option<string>)
      requires Valid() && Pos() < |ts|
      modifies this
      ensures Reached(node, err, Operand(ts, old(Pos())), old(root))
      ensures Valid()
    {
      ghost var i0 := Pos();
      var t := Peek();
      if t.typ == INT || t.typ == FLOAT || t.typ == STR {
        var tkn := Next();
        return BasicLit(tkn), None;
      } else if t.typ == LROUND {
        var _ := Next();
        node := ParseExpr();
        var close, e := Expect("Operand", RROUND);
        return node, e;
      } else if t.typ == LSQUARE {
        node, err := ParseArray();
      } else if t.typ == LCURLY {
        node, err := ParseDict();
      } else {
        return Nil, None;
      }
    }

    /** The loop of `parseArray` (`dict` false, `stop` `]`) and of
     * `parseDict` (`dict` true, `stop` the type its loop tests): elements
     * until `stop` or EOF, with `nextComma` between them. */
    method ParseElements(dict: bool, stop: Type) returns (elements: seq<Node>, err: Option<string>)
      requires Valid() && Pos() < |ts|
      modifies this
      ensures Valid() && Pos() < |ts|
      ensures match Elements(ts, dict, stop, [], old(Pos()))
        case Gathered(els, j) => err == None && elements == els && Pos() == j && root == old(root)
        case Panicked(msg) => err == Some(msg) && root == None
    {
      ghost var goal := Elements(ts, dict, stop, [], Pos());
      elements := [];
      while true
        invariant Valid() && Pos() < |ts| && root == old(root)
        invariant Elements(ts, dict, stop, elements, Pos()) == goal
        decreases |ts| - Pos()
      {
        var u := Peek();
        if u.typ == stop || u.typ == EOF {
          break;
        }
        var x, more, ce := GatherOne(dict, stop, elements);
        elements := elements + [x];
        if !more {
          return elements, ce;
        }
      }
      err := None;
    }

    /** One turn of a collection's loop: an element, then `nextComma`, and
     * the comma consumed when there is one. */
    method GatherOne(dict: bool, stop: Type, ghost els: seq<Node>) returns (x: Node, more: bool, err: Option<string>)
      requires Valid() && Pos() < |ts| && AP.At(ts, Pos()).typ != stop && AP.At(ts, Pos()).typ != EOF
      modifies this
      ensures Valid() && Pos() < |ts|
      ensures more ==> (err == None && root == old(root) && Pos() > old(Pos()) &&
        Elements(ts, dict, stop, els, old(Pos())) == Elements(ts, dict, stop, els + [x], Pos()))
      ensures !more ==> (root == (if err.None? then old(root) else None) &&
        Elements(ts, dict, stop, els, old(Pos())) == if err.None? then Gathered(els + [x], Pos()) else Panicked(err.value))
    {
      ghost var j := Pos();
      var ce;
      x, more, ce := ReadElement(dict);
      ElementsAfter(ts, dict, stop, els, j, x, Pos(), more, ce);
      if ce.Some? || !more {
        return x, false, ce;
      }
      SkipComma();
      err := None;
    }

    /** An element, then `nextComma`. */
    method ReadElement(dict: bool) returns (x: Node, comma: bool, err: Option<string>)
      requires Valid() && Pos() < |ts|
      modifies this
      ensures Valid() && Step(x, Pos()) == Element(ts, dict, old(Pos()))
      ensures var la := AP.At(ts, Pos());
        (comma <==> la.typ == COMMA) &&
        err == if la.typ == COMMA || la.typ == Closer(dict) then None
               else Some(SyntaxMessage(Current(ts, Pos()), MissingCommaMsg(la, Context(dict))))
      ensures root == if err.Some? then None else old(root)
    {
      x := ParseElement(dict);
      comma, err := NextComma(Context(dict), Closer(dict));
    }

    /** The comma between two elements, consumed. */
    method SkipComma()
      requires Valid()
      modifies this
      ensures Valid() && Pos() == old(Pos()) + 1 && root == old(root)
    {
      var _ := Next();
    }

    /** One element: `parseDictEl` in a dictionary, `parseExpr` in an array. */
    method ParseElement(dict: bool) returns (x: Node)
      requires Valid() && Pos() < |ts|
      modifies this
      ensures Valid() && Step(x, Pos()) == Element(ts, dict, old(Pos())) && root == old(root)
    {
      if dict {
        x := ParseDictEl();
      } else {
        x := ParseExpr();
      }
    }

    /** `parseArray`. */
    method ParseArray() returns (node: Node, err: Option<string>)
      requires Valid() && Pos() < |ts|
      modifies this
      ensures Reached(node, err, Array(ts, old(Pos())), old(root))
      ensures Valid()
    {
      node, err := ParseCollection(false, RSQUARE);
    }

    /** `parseDict`, as written: its loop tests for `]`. */
    method ParseDict() returns (node: Node, err: Option<string>)
      requires Valid() && Pos() < |ts|
      modifies this
      ensures Reached(node, err, Dict(ts, old(Pos())), old(root))
      ensures Valid()
    {
      node, err := ParseCollection(true, RSQUARE);
    }

    /** The opener, the loop unless the closer comes next, the closer. */
    method ParseCollection(dict: bool, stop: Type) returns (node: Node, err: Option<string>)
      requires Valid() && Pos() < |ts|
      modifies this
      ensures Reached(node, err, Collection(ts, dict, stop, old(Pos())), old(root))
      ensures Valid()
    {
      ghost var i := Pos();
      var open, e := Expect(Context(dict), if dict then LCURLY else LSQUARE);
      if e.Some? {
        CollectionFails(ts, dict, stop, i);
        return Nil, e;
      }
      CollectionOpens(ts, dict, stop, i);
      node, err := ParseOpened(dict, stop, open);
    }

    /** A collection past its opener. */
    method ParseOpened(dict: bool, stop: Type, open: Token) returns (node: Node, err: Option<string>)
      requires Valid() && Pos() < |ts|
      modifies this
      ensures Reached(node, err, Opened(ts, dict, stop, open, old(Pos())), old(root))
      ensures Valid()
    {
      var elements: seq<Node> := [];
      var t := Peek();
      var e: Option<string> := None;
      if t.typ != Closer(dict) {
        elements, e := ParseElements(dict, stop);
        if e.Some? {
          return Nil, e;
        }
      }
      var close, e2 := Expect(Context(dict), Closer(dict));
      if e2.Some? {
        return Nil, e2;
      }
      node := if dict then DictExpr(open, elements, close) else ListExpr(open, elements, close);
      err := None;
    }

    /** `parseDictEl`. */
    method ParseDictEl() returns (node: Node)
      ensures node == Nil
    {
      node := Nil;
    }
  }

  /** `peek` then `next` hand out the same token, and together they consume
   * exactly one, whatever the lookahead holds. */
  method PeekThenNext(p: Parser) returns (peeked: Token, taken: Token)
    requires AP.Terminated(p.ts)
    modifies p
    ensures peeked == taken == old(p.Upcoming(0))
    ensures forall i: nat :: p.Upcoming(i) == old(p.Upcoming(i + 1))
  {
    peeked := p.Peek();
    taken := p.Next();
  }

  /** `backup(t1..tn)` then n calls of `next` hand out t1..tn in order and
   * leave the upcoming tokens as they were. */
  method BackupThenNext(p: Parser, tkns: seq<Token>) returns (taken: seq<Token>)
    requires AP.Terminated(p.ts)
    modifies p
    ensures taken == tkns
    ensures forall i: nat :: p.Upcoming(i) == old(p.Upcoming(i))
  {
    p.Backup(tkns);
    taken := [];
    while |taken| < |tkns|
      invariant |taken| <= |tkns| && taken == tkns[..|taken|]
      invariant p.tokens == tkns[|taken|..] + old(p.tokens) && p.scanned == old(p.scanned)
    {
      var t := p.Next();
      taken := taken + [t];
    }
  }

  /** `Parse`: `parse` reads nothing, so the parser comes back with a nil
   * root and no error. */
  method Parse(name: string, ts: seq<Token>) returns (p: Parser, err: Option<string>)
    requires AP.Terminated(ts)
    ensures p.Valid() && p.Pos() == 0 && p.root == None && err == None
  {
    p := new Parser(name, ts);
    err := None;
  }
}
