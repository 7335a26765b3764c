/**
 * cmd/repl.go: the bracket tracker that decides whether a line typed at the
 * prompt completes a query, needs more lines, or has mismatched brackets.
 * The stack lives in the prompt's state and so persists from line to line.
 */
module Repl {
  import opened TokenErrors

  /** `brackets`: each opener and its closer. */
  const Brackets: map<string, string> := map["(" := ")", "{" := "}", "[" := "]"]

  predicate IsOpener(c: char) { c == '(' || c == '[' || c == '{' }

  predicate IsCloser(c: char) { c == ')' || c == ']' || c == '}' }

  /** `bracketLineStatus`. */
  datatype Status = Normal | Open | ErrBrack

  /** The status of a line and the stack it leaves. */
  datatype Collected = Collected(status: Status, stack: seq<string>)

  /** What `collectBrackets` does to `stack` reading `s` left to right: an
   * opener is pushed; a closer pops the top and stops with `ErrBrack` when
   * the stack was empty or the popped opener wants another closer; other
   * runes are skipped. At the end, `Normal` iff the stack is empty. */
  function Collect(stack: seq<string>, s: string): (r: Collected)
    ensures r.status == Normal <==> r.stack == [] && r.status != ErrBrack
    ensures r.status == Open <==> r.stack != [] && r.status != ErrBrack
    decreases |s|
  {
    if s == [] then Collected(if stack == [] then Normal else Open, stack)
    else
      var c := s[0];
      if IsOpener(c) then Collect(stack + [[c]], s[1..])
      else if IsCloser(c) then
        if stack == [] then Collected(ErrBrack, stack)
        else
          var top := stack[|stack| - 1];
          if top in Brackets && Brackets[top] != [c] then Collected(ErrBrack, stack[..|stack| - 1])
          else Collect(stack[..|stack| - 1], s[1..])
      else Collect(stack, s[1..])
  }

  /** A stack that holds openers only, as every stack `collectBrackets`
   * builds from an empty one does. */
  predicate Openers(stack: seq<string>)
  {
    forall i :: 0 <= i < |stack| ==> stack[i] in Brackets
  }

  /** `collectBrackets` only ever pushes openers, so the map lookup of a
   * popped entry always succeeds. */
  lemma {:induction false} CollectKeepsOpeners(stack: seq<string>, s: string)
    requires Openers(stack)
    ensures Openers(Collect(stack, s).stack)
    decreases |s|
  {
    if s != [] {
      var c := s[0];
      if IsOpener(c) {
        assert [c] in Brackets;
        CollectKeepsOpeners(stack + [[c]], s[1..]);
      } else if IsCloser(c) {
        if stack != [] {
          CollectKeepsOpeners(stack[..|stack| - 1], s[1..]);
        }
      } else {
        CollectKeepsOpeners(stack, s[1..]);
      }
    }
  }

  /** Splitting a line in two changes nothing unless the first part already
   * fails: the second part goes on from the stack the first leaves. This
   * is why a later line can close what an earlier one opened. */
  lemma {:induction false} CollectConcat(stack: seq<string>, a: string, b: string)
    ensures Collect(stack, a).status == ErrBrack ==> Collect(stack, a + b) == Collect(stack, a)
    ensures Collect(stack, a).status != ErrBrack ==> Collect(stack, a + b) == Collect(Collect(stack, a).stack, b)
    decreases |a|
  {
    if a == [] {
      assert a + b == b;
    } else {
      assert (a + b)[0] == a[0] && (a + b)[1..] == a[1..] + b;
      var c := a[0];
      if IsOpener(c) {
        CollectConcat(stack + [[c]], a[1..], b);
      } else if IsCloser(c) {
        if stack != [] {
          CollectConcat(stack[..|stack| - 1], a[1..], b);
        }
      } else {
        CollectConcat(stack, a[1..], b);
      }
    }
  }

  /** Only brackets matter. */
  function BracketsOnly(s: string): (r: string)
    ensures forall i :: 0 <= i < |r| ==> IsOpener(r[i]) || IsCloser(r[i])
    ensures |r| <= |s|
  {
    if s == [] then []
    else if IsOpener(s[0]) || IsCloser(s[0]) then [s[0]] + BracketsOnly(s[1..])
    else BracketsOnly(s[1..])
  }

  /** Runes other than brackets leave the stack and the status unchanged. */
  lemma {:induction false} CollectIgnoresOthers(stack: seq<string>, s: string)
    ensures Collect(stack, s) == Collect(stack, BracketsOnly(s))
    decreases |s|
  {
    if s != [] {
      var c := s[0];
      if IsOpener(c) || IsCloser(c) {
        var r := [c] + BracketsOnly(s[1..]);
        assert r[0] == c && r[1..] == BracketsOnly(s[1..]);
        CollectIgnoresOthers(if IsOpener(c) then stack + [[c]] else if stack == [] then stack else stack[..|stack| - 1], s[1..]);
      } else {
        CollectIgnoresOthers(stack, s[1..]);
      }
    }
  }

  /** The closer that matches an opener. */
  function CloserOf(c: char): (d: char)
    requires IsOpener(c)
    ensures IsCloser(d) && Brackets[[c]] == [d]
  {
    if c == '(' then ')' else if c == '[' then ']' else '}'
  }

  /** The balanced lines: empty, or an opener, a balanced middle, the
   * matching closer and a balanced rest. */
  predicate Nested(s: string)
    decreases |s|
  {
    s == [] ||
    (|s| >= 2 && IsOpener(s[0]) &&
     (exists k :: 1 <= k < |s| && s[k] == CloserOf(s[0]) && Nested(s[1..k]) && Nested(s[k + 1..])))
  }

  /** An opener is pushed. */
  lemma CollectOpener(stack: seq<string>, s: string)
    requires s != [] && IsOpener(s[0])
    ensures Collect(stack, s) == Collect(stack + [[s[0]]], s[1..])
  {
  }

  /** The closer of the top opener pops it and the line goes on. */
  lemma CollectCloser(stack: seq<string>, c: char, s: string)
    requires IsOpener(c) && s != [] && s[0] == CloserOf(c)
    ensures Collect(stack + [[c]], s) == Collect(stack, s[1..])
  {
    assert (stack + [[c]])[..|stack|] == stack;
  }

  /** A balanced line never fails and leaves the stack as it was; from an
   * empty stack it is `Normal`. */
  lemma {:induction false} NestedRestores(stack: seq<string>, s: string)
    requires Nested(s)
    ensures Collect(stack, s) == Collected(if stack == [] then Normal else Open, stack)
    decreases |s|
  {
    if s != [] {
      var k :| 1 <= k < |s| && s[k] == CloserOf(s[0]) && Nested(s[1..k]) && Nested(s[k + 1..]);
      NestedRestores(stack + [[s[0]]], s[1..k]);
      NestedRestores(stack, s[k + 1..]);
      WrapRestores(stack, s, k);
    }
  }

  /** An opener, a middle that leaves the stack as it was, the matching
   * closer and a rest that leaves it as it was, leave it as it was. */
  lemma WrapRestores(stack: seq<string>, s: string, k: nat)
    requires 1 <= k < |s| && IsOpener(s[0]) && s[k] == CloserOf(s[0])
    requires Collect(stack + [[s[0]]], s[1..k]) == Collected(Open, stack + [[s[0]]])
    requires Collect(stack, s[k + 1..]) == Collected(if stack == [] then Normal else Open, stack)
    ensures Collect(stack, s) == Collected(if stack == [] then Normal else Open, stack)
  {
    var c := s[0];
    var inner := stack + [[c]];
    CollectOpener(stack, s);
    assert s[1..] == s[1..k] + s[k..];
    CollectConcat(inner, s[1..k], s[k..]);
    CollectCloser(stack, c, s[k..]);
    assert s[k..][1..] == s[k + 1..];
  }

  /** A closer that does not match the top opener fails the line and pops
   * that opener; the rest of the line is not read. */
  lemma MismatchPops(stack: seq<string>, c: char, rest: string)
    requires stack != [] && Openers(stack) && IsCloser(c) && Brackets[stack[|stack| - 1]] != [c]
    ensures Collect(stack, [c] + rest) == Collected(ErrBrack, stack[..|stack| - 1])
  {
    assert ([c] + rest)[0] == c;
  }

  // ---------------------------------------------------------------------
  // `bracketStack`

  class BracketStack {
    var items: seq<string>

    constructor ()
      ensures items == []
    {
      items := [];
    }

    /** `empty`. */
    function Empty(): (b: bool)
      reads this
      ensures b <==> |items| == 0
    {
      |items| == 0
    }

    /** `push`: on top. */
    method Push(r: string)
      modifies this
      ensures items == old(items) + [r]
    {
      items := items + [r];
    }

    /** `pop`: removes and returns the top; callers check emptiness first. */
    method Pop() returns (r: string)
      requires |items| > 0
      modifies this
      ensures r == old(items)[|old(items)| - 1] && items == old(items)[..|old(items)| - 1]
    {
      r, items := items[|items| - 1], items[..|items| - 1];
    }

    /** `peek`: the top, left in place; it is what `pop` removes. */
    function Peek(): (r: string)
      reads this
      requires |items| > 0
      ensures r in items
    {
      items[|items| - 1]
    }

    /** `collectBrackets`: the loop over the line's runes. */
    method CollectBrackets(s: string) returns (status: Status)
      modifies this
      ensures Collected(status, items) == Collect(old(items), s)
    {
      var i := 0;
      while i < |s|
        invariant 0 <= i <= |s|
        invariant Collect(old(items), s) == Collect(items, s[i..])
      {
        var c := s[i];
        assert s[i..][0] == c && s[i..][1..] == s[i + 1..];
        if IsOpener(c) {
          Push([c]);
        } else if IsCloser(c) {
          if Empty() {
            return ErrBrack;
          }
          var top := Pop();
          if top in Brackets && Brackets[top] != [c] {
            return ErrBrack;
          }
        }
        i := i + 1;
      }
      if Empty() {
        return Normal;
      }
      return Open;
    }
  }

  /** Pushing and popping are LIFO. */
  method PushThenPop(b: BracketStack, r: string) returns (peeked: string, popped: string)
    modifies b
    ensures peeked == popped == r && b.items == old(b.items)
  {
    b.Push(r);
    peeked := b.Peek();
    popped := b.Pop();
  }

  // ---------------------------------------------------------------------
  // The prompt's state, as `interpretExecutor` updates it

  const WentPrefix := "went> "
  const MultiPrefix := "..... "

  class PromptState {
    var livePrefix: string
    var livePrefixIsEnabled: bool
    const brackets: BracketStack
    /** `query`: the lines gathered since the last run. */
    var query: string

    constructor ()
      ensures livePrefix == "" && !livePrefixIsEnabled && brackets.items == [] && query == ""
      ensures fresh(brackets)
    {
      livePrefix := "";
      livePrefixIsEnabled := false;
      brackets := new BracketStack();
      query := "";
    }

    /** One line at the prompt: the line joins the query; while brackets are
     * open the prompt shows the continuation prefix; otherwise the whole
     * query is handed to the interpreter (`run`) and cleared, and after a
     * mismatch the stack is emptied first. An empty stack after `Normal` is
     * what `collectBrackets` leaves, not a reset. */
    method Execute(line: string) returns (run: Option<string>)
      modifies this, brackets
      ensures var c := Collect(old(brackets.items), line);
        var q := old(query) + line + "\n";
        match c.status
        case Open =>
          run == None && query == q && livePrefix == MultiPrefix && livePrefixIsEnabled &&
          brackets.items == c.stack
        case ErrBrack =>
          run == Some(q) && query == "" && brackets.items == [] && livePrefix == line && !livePrefixIsEnabled
        case Normal =>
          run == Some(q) && query == "" && brackets.items == [] && livePrefix == line && !livePrefixIsEnabled
    {
      var status := brackets.CollectBrackets(line);
      query := query + line + "\n";
      match status
      case Open =>
        livePrefix := MultiPrefix;
        livePrefixIsEnabled := true;
        run := None;
      case ErrBrack =>
        brackets.items := [];
        run := RunOnce(line);
      case Normal =>
        run := RunOnce(line);
    }

    /** `runOnce` and the clearing of the query after it: the prefix is
     * switched off (set to the line) and the query goes to the interpreter. */
    method RunOnce(line: string) returns (run: Option<string>)
      modifies this
      ensures run == Some(old(query)) && query == "" && livePrefix == line && !livePrefixIsEnabled
    {
      livePrefixIsEnabled := false;
      livePrefix := line;
      run := Some(query);
      query := "";
    }
  }
}
