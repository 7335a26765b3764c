/**
 * utils/parser.go: the lookahead of the earliest parser and its (empty)
 * `Parse`.
 *
 * The lexer's goroutine is modelled by the sequence `ts` of tokens it sends
 * before closing its channel; a receive from the closed channel gives the
 * zero token, so the parser sees `ts` followed by zero tokens forever.
 */
module UtilsParser {
  import opened Runes
  import opened TokenErrors
  import opened UtilsLexer
  import UtilsNode

  // ---------------------------------------------------------------------
  // `tokenList`: index 0 is the bottom, the last index the top.

  class TokenList {
    var items: seq<UtilsToken>

    constructor ()
      ensures items == []
    {
      items := [];
    }

    /** `empty`. */
    function Empty(): (b: bool)
      reads this
      ensures b <==> |items| == 0
    {
      |items| == 0
    }

    /** `push`: appends at the top, in the given order. */
    method Push(tkns: seq<UtilsToken>)
      modifies this
      ensures items == old(items) + tkns
    {
      items := items + tkns;
    }

    /** `pop`: removes and returns the top; callers check emptiness first. */
    method Pop() returns (tkn: UtilsToken)
      requires |items| > 0
      modifies this
      ensures tkn == old(items)[|old(items)| - 1]
      ensures items == old(items)[..|old(items)| - 1]
    {
      tkn, items := items[|items| - 1], items[..|items| - 1];
    }

    /** `peekTop`: the top, left in place. */
    function PeekTop(): (tkn: UtilsToken)
      reads this
      requires |items| > 0
      ensures tkn == items[|items| - 1]
    {
      items[|items| - 1]
    }

    /** `unshift`: puts the tokens at the bottom, keeping their order. */
    method Unshift(tkns: seq<UtilsToken>)
      modifies this
      ensures items == tkns + old(items)
    {
      items := tkns + items;
    }

    /** `shift`: removes and returns the bottom. */
    method Shift() returns (tkn: UtilsToken)
      requires |items| > 0
      modifies this
      ensures tkn == old(items)[0]
      ensures items == old(items)[1..]
    {
      tkn, items := items[0], items[1..];
    }

    /** `peekBottom`: the token `shift` would remove. */
    function PeekBottom(): (tkn: UtilsToken)
      reads this
      requires |items| > 0
      ensures tkn == items[0]
    {
      items[0]
    }
  }

  /** Unshifting t1..tn and then shifting n times yields t1..tn in order and
   * leaves the list as it was. */
  method UnshiftThenShift(l: TokenList, tkns: seq<UtilsToken>) returns (shifted: seq<UtilsToken>)
    modifies l
    ensures shifted == tkns
    ensures l.items == old(l.items)
  {
    l.Unshift(tkns);
    shifted := [];
    while |shifted| < |tkns|
      invariant |shifted| <= |tkns|
      invariant shifted == tkns[..|shifted|]
      invariant l.items == tkns[|shifted|..] + old(l.items)
    {
      var t := l.Shift();
      shifted := shifted + [t];
    }
  }

  /** Pushing t1..tn and then popping n times yields them in reverse: the
   * top is LIFO. */
  method PushThenPop(l: TokenList, tkns: seq<UtilsToken>) returns (popped: seq<UtilsToken>)
    modifies l
    ensures |popped| == |tkns| && forall i :: 0 <= i < |tkns| ==> popped[i] == tkns[|tkns| - 1 - i]
    ensures l.items == old(l.items)
  {
    l.Push(tkns);
    popped := [];
    while |popped| < |tkns|
      invariant |popped| <= |tkns|
      invariant forall i :: 0 <= i < |popped| ==> popped[i] == tkns[|tkns| - 1 - i]
      invariant l.items == old(l.items) + tkns[..|tkns| - |popped|]
    {
      assert l.PeekTop() == tkns[|tkns| - 1 - |popped|];
      var t := l.Pop();
      popped := popped + [t];
    }
  }

  /** `peekBottom` is what `shift` removes, and `peekTop` what `pop` removes. */
  method PeeksAgreeWithRemoval(l: TokenList) returns (bottom: UtilsToken, shifted: UtilsToken, top: UtilsToken, popped: UtilsToken)
    requires |l.items| > 0
    modifies l
    ensures bottom == shifted && top == popped
  {
    bottom := l.PeekBottom();
    shifted := l.Shift();
    l.Unshift([shifted]);
    top := l.PeekTop();
    popped := l.Pop();
  }

  // ---------------------------------------------------------------------
  // The parser

  /** The zero `token`, which a receive from the closed channel yields. */
  const ZeroToken := UtilsToken(TokError, 0, "", 0)

  /** The `i`-th receive from the lexer's channel. */
  function Received(ts: seq<UtilsToken>, i: nat): (t: UtilsToken)
    ensures i < |ts| ==> t == ts[i]
    ensures i >= |ts| ==> t.typ == TokError && t.value == "" && t.line == 0
  {
    if i < |ts| then ts[i] else ZeroToken
  }

  /** The panic `errorf` raises: the parser's name and the line of the
   * bottom lookahead token before the message. */
  function SyntaxMessage(name: string, line: int, msg: string): string
  {
    "Syntax Error: " + name + ":" + IntToString(line) + ": " + msg
  }

  /** The message opens with the input's name and ends with the error. */
  lemma SyntaxMessageParts(name: string, line: int, msg: string)
    ensures var m := SyntaxMessage(name, line, msg);
      var p := |"Syntax Error: "|;
      |m| > p + |name| && m[..p] == "Syntax Error: " && m[p..p + |name|] == name && m[p + |name|] == ':' &&
      m[|m| - |msg|..] == msg
  {
    var head := "Syntax Error: " + name;
    var tail := ":" + IntToString(line) + ": " + msg;
    assert SyntaxMessage(name, line, msg) == head + tail;
    assert tail[|tail| - |msg|..] == msg;
  }

  class Parser {
    const name: string
    const input: string
    /** What the lexer sends before closing its channel. */
    const ts: seq<UtilsToken>
    /** How many receives the parser has made. */
    var scanned: nat
    /** The lookahead `tokenList`. */
    const tokens: TokenList
    /** `Root`; nothing but nil is ever stored in it. */
    var root: Option<UtilsNode.NumberNode>
    /** Whether `stopParse` has dropped the lexer. */
    var stopped: bool

    /** `initParser`: the lexer's name and input, an empty lookahead, a nil
     * root. */
    constructor (name: string, input: string, ts: seq<UtilsToken>)
      ensures this.name == name && this.input == input && this.ts == ts
      ensures scanned == 0 && tokens.items == [] && root == None && !stopped
      ensures fresh(tokens)
    {
      this.name := name;
      this.input := input;
      this.ts := ts;
      scanned := 0;
      tokens := new TokenList();
      root := None;
      stopped := false;
    }

    /** The `i`-th token the parser will be handed from here on: the
     * lookahead first, bottom to top, then the lexer's next receives. */
    function Upcoming(i: nat): (t: UtilsToken)
      reads this, tokens
      ensures i < |tokens.items| ==> t == tokens.items[i]
    {
      if i < |tokens.items| then tokens.items[i] else Received(ts, scanned + i - |tokens.items|)
    }

    /** `next`: the bottom of the lookahead, or else a fresh receive; either
     * way the first upcoming token, and the rest move up by one. */
    method Next() returns (t: UtilsToken)
      modifies this, tokens
      ensures t == old(Upcoming(0))
      ensures forall i: nat :: Upcoming(i) == old(Upcoming(i + 1))
      ensures old(tokens.items) != [] ==> scanned == old(scanned) && tokens.items == old(tokens.items)[1..]
      ensures old(tokens.items) == [] ==> scanned == old(scanned) + 1 && tokens.items == []
      ensures root == old(root) && stopped == old(stopped)
    {
      if !tokens.Empty() {
        t := tokens.Shift();
      } else {
        t := Received(ts, scanned);
        scanned := scanned + 1;
      }
    }

    /** `backup`: the tokens go back in front of what was upcoming, in the
     * order given. */
    method Backup(tkns: seq<UtilsToken>)
      modifies tokens
      ensures tokens.items == tkns + old(tokens.items)
      ensures forall i: nat :: Upcoming(i) == if i < |tkns| then tkns[i] else old(Upcoming(i - |tkns|))
    {
      tokens.Unshift(tkns);
    }

    /** `peek`: the first upcoming token, left upcoming; the lexer is asked
     * for one token exactly when the lookahead is empty. */
    method Peek() returns (t: UtilsToken)
      modifies this, tokens
      ensures t == old(Upcoming(0))
      ensures forall i: nat :: Upcoming(i) == old(Upcoming(i))
      ensures scanned == old(scanned) + (if old(tokens.items) == [] then 1 else 0)
      ensures tokens.items == if old(tokens.items) == [] then [Received(ts, old(scanned))] else old(tokens.items)
      ensures root == old(root) && stopped == old(stopped)
    {
      if !tokens.Empty() {
        return tokens.PeekBottom();
      }
      tokens.Push([Received(ts, scanned)]);
      scanned := scanned + 1;
      return tokens.PeekBottom();
    }

    /** `errorf`: the root becomes nil and the panic's message names the line
     * of the bottom lookahead token; with an empty lookahead the index is
     * out of range, a runtime panic (`None`). */
    method Errorf(msg: string) returns (err: Option<string>)
      modifies this
      ensures root == None && scanned == old(scanned) && stopped == old(stopped)
      ensures err.Some? <==> tokens.items != []
      ensures err.Some? ==> err.value == SyntaxMessage(name, tokens.items[0].line, msg)
    {
      root := None;
      if tokens.items == [] {
        return None;
      }
      err := Some(SyntaxMessage(name, tokens.items[0].line, msg));
    }

    /** `error`: `errorf` with the error's text. */
    method Error(e: string) returns (err: Option<string>)
      modifies this
      ensures root == None && scanned == old(scanned) && stopped == old(stopped)
      ensures err.Some? <==> tokens.items != []
      ensures err.Some? ==> err.value == SyntaxMessage(name, tokens.items[0].line, e)
    {
      err := Errorf(e);
    }

    /** `stopParse`: drops the lexer. */
    method StopParse()
      modifies this
      ensures stopped && scanned == old(scanned) && root == old(root)
    {
      stopped := true;
    }
  }

  /** `peek` then `next` hand out the same token, and together they consume
   * exactly one. */
  method PeekThenNext(p: Parser) returns (peeked: UtilsToken, taken: UtilsToken)
    modifies p, p.tokens
    ensures peeked == taken == old(p.Upcoming(0))
    ensures forall i: nat :: p.Upcoming(i) == old(p.Upcoming(i + 1))
  {
    peeked := p.Peek();
    taken := p.Next();
  }

  /** `backup(t1..tn)` then n calls of `next` hand out t1..tn in order and
   * leave the upcoming tokens as they were. */
  method BackupThenNext(p: Parser, tkns: seq<UtilsToken>) returns (taken: seq<UtilsToken>)
    modifies p, p.tokens
    ensures taken == tkns
    ensures forall i: nat :: p.Upcoming(i) == old(p.Upcoming(i))
  {
    p.Backup(tkns);
    taken := [];
    while |taken| < |tkns|
      invariant |taken| <= |tkns| && taken == tkns[..|taken|]
      invariant p.tokens.items == tkns[|taken|..] + old(p.tokens.items) && p.scanned == old(p.scanned)
    {
      var t := p.Next();
      taken := taken + [t];
    }
  }

  /** `Parse`: `parse` has no body, so the parser comes back with a nil root,
   * no error, no token received and the lexer dropped. */
  method Parse(name: string, input: string, ts: seq<UtilsToken>) returns (p: Parser, err: Option<string>)
    ensures fresh(p) && p.name == name && p.input == input && p.ts == ts
    ensures p.root == None && err == None && p.scanned == 0 && p.tokens.items == [] && p.stopped
  {
    p := new Parser(name, input, ts);
    p.StopParse();
    err := None;
  }
}
