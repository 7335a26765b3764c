/**
 * lang/token/token.go: packed source positions, the token type table, the
 * keyword table and the `List` lookahead deque.
 */
module Tok {
  import opened Runes

  const TwoTo32: int := 0x1_0000_0000

  /** `uint32`. */
  type U32 = x: int | 0 <= x < 0x1_0000_0000

  /** `Pos` is a `uint64` holding the line in its high and the column in its low 32 bits. */
  type Pos = p: int | 0 <= p < 0x1_0000_0000_0000_0000

  /** `newPos`: concatenates the two 32-bit halves. */
  function NewPos(line: U32, col: U32): Pos
  {
    line * TwoTo32 + col
  }

  /** `decompose`: the line is the high half, the column the low half. */
  function Line(p: Pos): (l: U32) { p / TwoTo32 }

  function Col(p: Pos): (c: U32) { p % TwoTo32 }

  /** Packing and unpacking are inverse to each other, in both directions. */
  lemma DecomposeNewPos(line: U32, col: U32)
    ensures Line(NewPos(line, col)) == line && Col(NewPos(line, col)) == col
  {
  }

  lemma NewPosDecompose(p: Pos)
    ensures NewPos(Line(p), Col(p)) == p
  {
  }

  /** `Pos.String`: "line:col" in decimal. */
  function PosString(p: Pos): (s: string)
  {
    NatToString(Line(p)) + ":" + NatToString(Col(p))
  }

  /** Two positions with the same rendering are the same position. */
  lemma PosStringInjective(p: Pos, q: Pos)
    requires PosString(p) == PosString(q)
    ensures p == q
  {
    var a, b := NatToString(Line(p)), NatToString(Col(p));
    var c, d := NatToString(Line(q)), NatToString(Col(q));
    var s := PosString(p);
    assert s == a + ":" + b && s == c + ":" + d;
    assert s[|a|] == ':' && s[|c|] == ':';
    assert a == s[..|a|] == c;
    assert b == s[|a| + 1..] == d;
    NewPosDecompose(p);
    NewPosDecompose(q);
  }

  /** `AddOffset`: the line is kept; the column moves by `offset`, a negative
   * result is clamped to 0, and the `uint32` conversion keeps the low 32 bits. */
  function AddOffset(p: Pos, offset: int): (r: Pos)
    ensures Line(r) == Line(p)
    ensures Col(p) + offset < 0 ==> Col(r) == 0
    ensures Col(p) + offset >= 0 ==> Col(r) == (Col(p) + offset) % TwoTo32
    ensures 0 <= Col(p) + offset < TwoTo32 ==> Col(r) == Col(p) + offset
  {
    var newCol := Col(p) + offset;
    var clamped := if newCol < 0 then 0 else newCol;
    NewPos(Line(p), clamped % TwoTo32)
  }

  // ---------------------------------------------------------------------
  // Token types: an `int` enumeration in declaration order.

  type Type = int

  const ERROR: Type := 0
  const EOF: Type := 1
  const DOT: Type := 2
  const COLON: Type := 3
  const SEMICOLON: Type := 4
  const COMMA: Type := 5
  const LROUND: Type := 6
  const LCURLY: Type := 7
  const LSQUARE: Type := 8
  const RROUND: Type := 9
  const RCURLY: Type := 10
  const RSQUARE: Type := 11
  const NAME: Type := 12
  const INT: Type := 13
  const FLOAT: Type := 14
  const STR: Type := 15
  const OperatorStart: Type := 16
  const PLUS: Type := 17
  const MINUS: Type := 18
  const DIV: Type := 19
  const MULT: Type := 20
  const MOD: Type := 21
  const ASSIGN: Type := 22
  const PLUSASSIGN: Type := 23
  const MINUSASSIGN: Type := 24
  const DIVASSIGN: Type := 25
  const MULTASSIGN: Type := 26
  const MODASSIGN: Type := 27
  const EQ: Type := 28
  const NEQ: Type := 29
  const GR: Type := 30
  const SM: Type := 31
  const GREQ: Type := 32
  const SMEQ: Type := 33
  const LOGICALNOT: Type := 34
  const LOGICALOR: Type := 35
  const LOGICALAND: Type := 36
  const OperatorEnd: Type := 37
  const KeywordBegin: Type := 38
  const FUNC: Type := 39
  const IF: Type := 40
  const ELSE: Type := 41
  const ELIF: Type := 42
  const FOR: Type := 43
  const NULL: Type := 44
  const FALSE: Type := 45
  const TRUE: Type := 46
  const WHILE: Type := 47
  const RETURN: Type := 48
  const IN: Type := 49
  const BREAK: Type := 50
  const CONT: Type := 51
  const VAR: Type := 52
  const KeywordEnd: Type := 53

  /** `tokenTypes`: indexed by type; the three delimiters have no entry. */
  const TokenTypes: seq<string> := [
    "ERROR", "EOF", "DOT", ":", ";", ",",
    "(", "{", "[", ")", "}", "]",
    "NAME", "INTEGER", "FLOAT", "STRING",
    "",
    "+", "-", "/", "*", "%",
    "=", "+=", "-=", "/=", "*=", "%=",
    "==", "!=", ">", "<", ">=", "<=",
    "!", "||", "&&",
    "", "",
    "func", "if", "else", "elif", "for", "null", "false", "true",
    "while", "return", "in", "break", "continue", "var"
  ]

  predicate IsKeyword(t: Type) { KeywordBegin + 1 <= t < KeywordEnd }

  /** `Type.String`: the table entry, or "token(n)" when there is none. */
  function TypeString(t: Type): (s: string)
    ensures 0 <= t < |TokenTypes| && TokenTypes[t] != "" ==> s == TokenTypes[t]
    ensures !(0 <= t < |TokenTypes| && TokenTypes[t] != "") ==> s == "token(" + IntToString(t) + ")"
  {
    var entry := if 0 <= t < |TokenTypes| then TokenTypes[t] else "";
    if entry == "" then "token(" + IntToString(t) + ")" else entry
  }

  /** Every type past the table, and each of the three delimiters, uses the fallback spelling. */
  lemma TypeStringFallback(t: Type)
    requires t < 0 || t >= KeywordEnd || t == OperatorStart || t == OperatorEnd || t == KeywordBegin
    ensures TypeString(t) == "token(" + IntToString(t) + ")"
  {
    assert |TokenTypes| == KeywordEnd;
  }

  /** What `keywords[word]` reads once the table is built: the keyword type
   * spelled `word`, or the zero type when `word` is no keyword. */
  function KeywordLookup(word: string): (t: Type)
    ensures t != 0 ==> IsKeyword(t) && TokenTypes[t] == word
  {
    if word == "func" then FUNC else if word == "if" then IF
    else if word == "else" then ELSE else if word == "elif" then ELIF
    else if word == "for" then FOR else if word == "null" then NULL
    else if word == "false" then FALSE else if word == "true" then TRUE
    else if word == "while" then WHILE else if word == "return" then RETURN
    else if word == "in" then IN else if word == "break" then BREAK
    else if word == "continue" then CONT else if word == "var" then VAR
    else 0
  }

  /** Each keyword is found under its own spelling, so no two keywords share one. */
  lemma KeywordLookupSpelling(t: Type)
    requires IsKeyword(t)
    ensures KeywordLookup(TokenTypes[t]) == t
  {
  }

  /** The `keywords` table built by `init`: each keyword's spelling mapped to
   * its type, and nothing else. */
  method InitKeywords() returns (keywords: map<string, Type>)
    ensures keywords.Keys == set t | KeywordBegin + 1 <= t < KeywordEnd :: TokenTypes[t]
    ensures forall t :: KeywordBegin + 1 <= t < KeywordEnd ==> keywords[TokenTypes[t]] == t
    ensures forall w :: w in keywords ==> keywords[w] == KeywordLookup(w)
  {
    assert |TokenTypes| == KeywordEnd;
    keywords := map[];
    var i := KeywordBegin + 1;
    while i < KeywordEnd
      invariant KeywordBegin + 1 <= i <= KeywordEnd
      invariant keywords.Keys == set t | KeywordBegin + 1 <= t < i :: TokenTypes[t]
      invariant forall w :: w in keywords ==> keywords[w] == KeywordLookup(w)
    {
      KeywordLookupSpelling(i);
      keywords := keywords[TokenTypes[i] := i];
      i := i + 1;
    }
    forall t | KeywordBegin + 1 <= t < KeywordEnd
      ensures keywords[TokenTypes[t]] == t
    {
      KeywordLookupSpelling(t);
    }
  }

  // ---------------------------------------------------------------------
  // Tokens

  datatype Token = Token(typ: Type, value: string, pos: Pos)

  /** `Token.String`. */
  function TokenString(tok: Token): (s: string)
  {
    if tok.typ == EOF then "EOF"
    else if tok.typ == ERROR then "<err: " + tok.value + ">"
    else if tok.typ == SEMICOLON then ";"
    else if tok.typ == NAME then "<NAME:" + Quote(tok.value) + ">"
    else if IsKeyword(tok.typ) then "<" + tok.value + ">"
    else Quote(tok.value)
  }

  /** Strips the decoration `TokenString` puts around a value of type `t`. */
  function Undecorate(t: Type, s: string): string
  {
    if t == ERROR && |s| >= 7 then s[6..|s| - 1]
    else if t == NAME && |s| >= 9 then s[7..|s| - 2]
    else if IsKeyword(t) && |s| >= 2 then s[1..|s| - 1]
    else if t != ERROR && t != NAME && !IsKeyword(t) && |s| >= 2 then s[1..|s| - 1]
    else s
  }

  /** Apart from EOF and SEMICOLON, whose text is dropped, the rendering
   * keeps the token's value recoverable. */
  lemma TokenStringKeepsValue(tok: Token)
    requires tok.typ != EOF && tok.typ != SEMICOLON
    ensures Undecorate(tok.typ, TokenString(tok)) == tok.value
  {
  }

  // ---------------------------------------------------------------------
  // `List`: index 0 is the bottom, the last index the top.

  class List {
    var items: seq<Token>

    constructor ()
      ensures items == []
    {
      items := [];
    }

    /** `Empty`. */
    function Empty(): (b: bool)
      reads this
      ensures b <==> |items| == 0
    {
      |items| == 0
    }

    /** `Push`: appends at the top, in the given order. */
    method Push(tkns: seq<Token>)
      modifies this
      ensures items == old(items) + tkns
    {
      items := items + tkns;
    }

    /** `Pop`: removes and returns the top; callers check emptiness first. */
    method Pop() returns (tkn: Token)
      requires |items| > 0
      modifies this
      ensures tkn == old(items)[|old(items)| - 1]
      ensures items == old(items)[..|old(items)| - 1]
    {
      tkn, items := items[|items| - 1], items[..|items| - 1];
    }

    /** `PeekTop`: the top, left in place. */
    function PeekTop(): (tkn: Token)
      reads this
      requires |items| > 0
      ensures tkn == items[|items| - 1]
    {
      items[|items| - 1]
    }

    /** `Unshift`: puts the tokens at the bottom, keeping their order. */
    method Unshift(tkns: seq<Token>)
      modifies this
      ensures items == tkns + old(items)
    {
      items := tkns + items;
    }

    /** `Shift`: removes and returns the bottom. */
    method Shift() returns (tkn: Token)
      requires |items| > 0
      modifies this
      ensures tkn == old(items)[0]
      ensures items == old(items)[1..]
    {
      tkn, items := items[0], items[1..];
    }

    /** `PeekBottom`: the token `Shift` would remove. */
    function PeekBottom(): (tkn: Token)
      reads this
      requires |items| > 0
      ensures tkn == items[0]
    {
      items[0]
    }
  }

  /** Unshifting t1..tn and then shifting n times yields t1..tn in order and
   * leaves the list as it was. */
  method UnshiftThenShift(l: List, tkns: seq<Token>) returns (shifted: seq<Token>)
    modifies l
    ensures shifted == tkns
    ensures l.items == old(l.items)
  {
    l.Unshift(tkns);
    shifted := [];
    while |shifted| < |tkns|
      invariant |shifted| <= |tkns|
      invariant shifted == tkns[..|shifted|]
      invariant l.items == tkns[|shifted|..] + old(l.items)
    {
      var t := l.Shift();
      shifted := shifted + [t];
    }
  }

  /** Pushing a token and popping gives it back: the top is LIFO. */
  method PushThenPop(l: List, t: Token) returns (popped: Token)
    modifies l
    ensures popped == t
    ensures l.items == old(l.items)
  {
    l.Push([t]);
    assert l.PeekTop() == t;
    popped := l.Pop();
  }

  /** `PeekBottom` is what `Shift` removes, and `PeekTop` is what `Pop` removes. */
  method PeeksAgreeWithRemoval(l: List) returns (bottom: Token, shifted: Token)
    requires |l.items| > 0
    modifies l
    ensures bottom == shifted == old(l.items)[0]
  {
    bottom := l.PeekBottom();
    shifted := l.Shift();
  }
}
