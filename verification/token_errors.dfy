/**
 * lang/token/errors.go: the error value shared by every phase, its standard
 * message format, and `ErrorList` with its ordering and de-duplication.
 *
 * The three error kinds of the source (GenericError, RuntimeError,
 * SyntaxError) are one datatype here: `errorName` is "" for a GenericError
 * and the bracketed type name for the other two.
 */
module TokenErrors {
  import opened Runes
  import opened Tok

  datatype WentError = WentError(input: string, pos: Pos, msg: string, errorName: string)

  /** `NewGenericError`. */
  function NewGenericError(inputName: string, pos: Pos, msg: string): (e: WentError)
    ensures InputName(e) == inputName && Message(e) == msg && e.errorName == ""
    ensures NewPos(Position(e).0, Position(e).1) == pos
  {
    NewPosDecompose(pos);
    WentError(inputName, pos, msg, "")
  }

  /** `InputName`. */
  function InputName(e: WentError): string { e.input }

  /** `Position`: the line and column packed in the position. */
  function Position(e: WentError): (lc: (U32, U32))
    ensures NewPos(lc.0, lc.1) == e.pos
  {
    NewPosDecompose(e.pos);
    (Line(e.pos), Col(e.pos))
  }

  /** `Message`. */
  function Message(e: WentError): string { e.msg }

  /** `Pos.IsValid`: the zero position stands for "no position". */
  predicate IsValid(p: Pos) { p != 0 }

  /** `InputNamePos`: "name:l:c", "l:c" without a name, "name" without a valid
   * position, and "" only when there is neither. */
  function InputNamePos(e: WentError): (s: string)
    ensures IsValid(e.pos) && e.input != "" ==> s == e.input + ":" + PosString(e.pos)
    ensures IsValid(e.pos) && e.input == "" ==> s == PosString(e.pos)
    ensures !IsValid(e.pos) ==> s == e.input
    ensures s == "" <==> e.input == "" && !IsValid(e.pos)
  {
    var name := InputName(e);
    if IsValid(e.pos) then
      (if name != "" then name + ":" else "") + PosString(e.pos)
    else name
  }

  /** `StandardErrorMessageFormat`. */
  function StandardErrorMessageFormat(e: WentError, errorType: string): (s: string)
    ensures InputNamePos(e) == "" && errorType == "" ==> s == e.msg
    ensures InputNamePos(e) == "" && errorType != "" ==> s == "[" + errorType + "]: " + e.msg
    ensures InputNamePos(e) != "" && errorType == "" ==> s == InputNamePos(e) + ": " + e.msg
    ensures InputNamePos(e) != "" && errorType != "" ==> s == "[" + errorType + "]:" + InputNamePos(e) + ": " + e.msg
  {
    var s := InputNamePos(e);
    if s == "" && errorType == "" then e.msg
    else if s == "" then "[" + errorType + "]: " + e.msg
    else if errorType == "" then s + ": " + e.msg
    else "[" + errorType + "]:" + s + ": " + e.msg
  }

  /** `Error`: the standard format with the error's own type name ("" for a GenericError). */
  function ErrorString(e: WentError): (s: string)
    ensures |e.msg| <= |s| && s[|s| - |e.msg|..] == e.msg
    ensures e.errorName != "" ==> |s| >= |e.errorName| + 3 && s[..|e.errorName| + 3] == "[" + e.errorName + "]:"
  {
    StandardErrorMessageFormat(e, e.errorName)
  }

  // ---------------------------------------------------------------------
  // Ordering

  /** Go's `<` on strings: lexicographic by character. */
  predicate StrLess(a: string, b: string)
  {
    if a == [] then b != []
    else if b == [] then false
    else a[0] < b[0] || (a[0] == b[0] && StrLess(a[1..], b[1..]))
  }

  lemma {:induction false} StrLessIrreflexive(a: string)
    ensures !StrLess(a, a)
  {
    if a != [] { StrLessIrreflexive(a[1..]); }
  }

  lemma {:induction false} StrLessTransitive(a: string, b: string, c: string)
    requires StrLess(a, b) && StrLess(b, c)
    ensures StrLess(a, c)
  {
    if a != [] && b != [] && c != [] && a[0] == b[0] == c[0] {
      StrLessTransitive(a[1..], b[1..], c[1..]);
    }
  }

  lemma {:induction false} StrLessTotal(a: string, b: string)
    requires a != b
    ensures StrLess(a, b) || StrLess(b, a)
  {
    if a != [] && b != [] && a[0] == b[0] {
      assert a == [a[0]] + a[1..] && b == [b[0]] + b[1..];
      StrLessTotal(a[1..], b[1..]);
    }
  }

  /** `ErrorList.Less`: by input name, then line, then column, then message. */
  predicate Less(x: WentError, y: WentError)
  {
    if x.input != y.input then StrLess(x.input, y.input)
    else if Line(x.pos) != Line(y.pos) then Line(x.pos) < Line(y.pos)
    else if Col(x.pos) != Col(y.pos) then Col(x.pos) < Col(y.pos)
    else StrLess(x.msg, y.msg)
  }

  /** `Less` is a strict order ... */
  lemma LessIrreflexive(x: WentError)
    ensures !Less(x, x)
  {
    StrLessIrreflexive(x.msg);
  }

  lemma LessTransitive(x: WentError, y: WentError, z: WentError)
    requires Less(x, y) && Less(y, z)
    ensures Less(x, z)
  {
    if x.input != y.input && y.input != z.input { StrLessTransitive(x.input, y.input, z.input); }
    if x.input != y.input && x.input == z.input {
      StrLessTransitive(x.input, y.input, z.input);
      StrLessIrreflexive(x.input);
    }
    if x.input == y.input == z.input && x.pos == y.pos == z.pos {
      StrLessTransitive(x.msg, y.msg, z.msg);
    }
  }

  /** ... under which two errors are unordered only when they agree on name,
   * position and message. */
  lemma LessTotal(x: WentError, y: WentError)
    requires !Less(x, y) && !Less(y, x)
    ensures x.input == y.input && x.pos == y.pos && x.msg == y.msg
  {
    if x.input != y.input { StrLessTotal(x.input, y.input); }
    if x.input == y.input && x.pos == y.pos && x.msg != y.msg { StrLessTotal(x.msg, y.msg); }
    NewPosDecompose(x.pos);
    NewPosDecompose(y.pos);
  }

  predicate Sorted(s: seq<WentError>)
  {
    forall i, j :: 0 <= i < j < |s| ==> !Less(s[j], s[i])
  }

  /** Inserts `x` before the first entry it is `Less` than. */
  function Insert(x: WentError, s: seq<WentError>): seq<WentError>
  {
    if s == [] then [x]
    else if Less(x, s[0]) then [x] + s
    else [s[0]] + Insert(x, s[1..])
  }

  /** Inserting adds exactly `x`. */
  lemma {:induction false} InsertAdds(x: WentError, s: seq<WentError>)
    ensures multiset(Insert(x, s)) == multiset(s) + multiset{x}
  {
    if s != [] && !Less(x, s[0]) {
      InsertAdds(x, s[1..]);
      assert s == [s[0]] + s[1..];
    }
  }

  /** Inserting into a sorted list keeps it sorted. */
  lemma {:induction false} InsertSorted(x: WentError, s: seq<WentError>)
    requires Sorted(s)
    ensures Sorted(Insert(x, s))
  {
    if s == [] {
    } else if Less(x, s[0]) {
      forall i | 0 <= i < |s| ensures !Less(s[i], x) {
        if Less(s[i], x) {
          LessTransitive(s[i], x, s[0]);
          if i == 0 { LessIrreflexive(s[0]); }
        }
      }
    } else {
      InsertSorted(x, s[1..]);
      InsertAdds(x, s[1..]);
      var rest := Insert(x, s[1..]);
      forall i | 0 <= i < |rest| ensures !Less(rest[i], s[0]) {
        assert rest[i] in multiset(rest);
        if rest[i] != x {
          assert rest[i] in multiset(s[1..]);
        }
      }
    }
  }

  /** The order `sort.Sort` leaves. */
  function SortErrors(s: seq<WentError>): seq<WentError>
  {
    if s == [] then [] else Insert(s[0], SortErrors(s[1..]))
  }

  /** `SortErrors` yields a permutation of its input ordered by `Less`. */
  lemma {:induction false} SortErrorsSpec(s: seq<WentError>)
    ensures Sorted(SortErrors(s))
    ensures multiset(SortErrors(s)) == multiset(s)
  {
    if s != [] {
      SortErrorsSpec(s[1..]);
      InsertSorted(s[0], SortErrors(s[1..]));
      InsertAdds(s[0], SortErrors(s[1..]));
      assert s == [s[0]] + s[1..];
    }
  }

  // ---------------------------------------------------------------------
  // De-duplication

  /** What `RemoveMultiples` keeps of a sorted list, as written: `lastFn` stays
   * "" for the whole loop, so an entry is kept iff its input name is non-empty
   * or its line differs from the line of the last kept entry (0 at first). */
  function KeepFirstPerLineAsWritten(s: seq<WentError>, lastLine: int): (r: seq<WentError>)
  {
    if s == [] then []
    else if s[0].input != "" || Line(s[0].pos) != lastLine then
      [s[0]] + KeepFirstPerLineAsWritten(s[1..], Line(s[0].pos))
    else KeepFirstPerLineAsWritten(s[1..], lastLine)
  }

  /** One step of the as-written loop, at index `k`. */
  lemma KeepStep(s: seq<WentError>, k: nat, lastLine: int)
    requires k < |s|
    ensures KeepFirstPerLineAsWritten(s[k..], lastLine) ==
      if s[k].input != "" || Line(s[k].pos) != lastLine
      then [s[k]] + KeepFirstPerLineAsWritten(s[k + 1..], Line(s[k].pos))
      else KeepFirstPerLineAsWritten(s[k + 1..], lastLine)
  {
    assert s[k..][1..] == s[k + 1..];
  }

  /** Writing the kept entry `e` at the write index `i <= k`. */
  lemma WriteStep(list: seq<WentError>, i: nat, k: nat, e: WentError, rest: seq<WentError>)
    requires i <= k < |list|
    ensures list[i := e][..i + 1] + rest == list[..i] + ([e] + rest)
    ensures list[i := e][k + 1..] == list[k..][1..]
  {
    assert list[i := e][..i + 1] == list[..i] + [e];
  }

  /** True when `r` is `s` with some entries dropped, the rest in order. */
  predicate IsSubsequence(r: seq<WentError>, s: seq<WentError>)
  {
    if r == [] then true
    else if s == [] then false
    else if r[0] == s[0] then IsSubsequence(r[1..], s[1..])
    else IsSubsequence(r, s[1..])
  }

  lemma {:induction false} SubsequenceSorted(r: seq<WentError>, s: seq<WentError>)
    requires IsSubsequence(r, s) && Sorted(s)
    ensures Sorted(r)
    ensures multiset(r) <= multiset(s)
  {
    if r != [] && s != [] {
      assert s == [s[0]] + s[1..];
      if r[0] == s[0] {
        SubsequenceSorted(r[1..], s[1..]);
        assert r == [r[0]] + r[1..];
        forall j | 0 < j < |r| ensures !Less(r[j], r[0]) {
          assert r[j] in multiset(r[1..]);
        }
      } else {
        SubsequenceSorted(r, s[1..]);
      }
    }
  }

  /** As written, the kept entries are a subsequence; every entry with an input
   * name survives; and each kept entry without a name is on a different line
   * from the entry kept just before it. */
  lemma {:induction false} KeepFirstPerLineAsWrittenSpec(s: seq<WentError>, lastLine: int)
    ensures IsSubsequence(KeepFirstPerLineAsWritten(s, lastLine), s)
    ensures forall i :: 0 <= i < |s| && s[i].input != "" ==> s[i] in KeepFirstPerLineAsWritten(s, lastLine)
    ensures var r := KeepFirstPerLineAsWritten(s, lastLine);
      (r != [] ==> r[0].input != "" || Line(r[0].pos) != lastLine) &&
      forall i :: 0 < i < |r| ==> r[i].input != "" || Line(r[i].pos) != Line(r[i - 1].pos)
  {
    if s != [] {
      var kept := s[0].input != "" || Line(s[0].pos) != lastLine;
      var next := if kept then Line(s[0].pos) else lastLine;
      KeepFirstPerLineAsWrittenSpec(s[1..], next);
      var rest := KeepFirstPerLineAsWritten(s[1..], next);
      forall i | 0 < i < |s| && s[i].input != "" ensures s[i] in KeepFirstPerLineAsWritten(s, lastLine) {
        assert s[1..][i - 1] == s[i];
      }
      if kept {
        assert KeepFirstPerLineAsWritten(s, lastLine) == [s[0]] + rest;
        assert ([s[0]] + rest)[1..] == rest;
      }
    }
  }

  /** What `RemoveMultiples` leaves is still sorted and holds only entries of the list. */
  lemma RemoveMultiplesSorted(s: seq<WentError>)
    ensures Sorted(KeepFirstPerLineAsWritten(SortErrors(s), 0))
    ensures multiset(KeepFirstPerLineAsWritten(SortErrors(s), 0)) <= multiset(s)
  {
    SortErrorsSpec(s);
    KeepFirstPerLineAsWrittenSpec(SortErrors(s), 0);
    SubsequenceSorted(KeepFirstPerLineAsWritten(SortErrors(s), 0), SortErrors(s));
  }

  /** The finding: with a non-empty input name, two errors on the same line are
   * both kept, so not "all but the first error per line" is removed. */
  lemma AsWrittenKeepsDuplicateLine()
    ensures var e1 := WentError("f", NewPos(3, 1), "a", "");
      var e2 := WentError("f", NewPos(3, 5), "b", "");
      Sorted([e1, e2]) && KeepFirstPerLineAsWritten([e1, e2], 0) == [e1, e2]
  {
    var e1 := WentError("f", NewPos(3, 1), "a", "");
    var e2 := WentError("f", NewPos(3, 5), "b", "");
    DecomposeNewPos(3, 1);
    DecomposeNewPos(3, 5);
    assert Less(e1, e2);
    assert !Less(e2, e1);
    assert [e1, e2][1..] == [e2] && [e2][1..] == [];
    assert KeepFirstPerLineAsWritten([e2], 3) == [e2];
  }

  /** The evident intent: remember the input name of the last kept entry as
   * well, so exactly the first error per (input, line) survives. */
  function KeepFirstPerLine(s: seq<WentError>, lastFn: string, lastLine: int): (r: seq<WentError>)
  {
    if s == [] then []
    else if s[0].input != lastFn || Line(s[0].pos) != lastLine then
      [s[0]] + KeepFirstPerLine(s[1..], s[0].input, Line(s[0].pos))
    else KeepFirstPerLine(s[1..], lastFn, lastLine)
  }

  /** Two errors of the same input on the same line. */
  predicate SameLine(x: WentError, y: WentError)
  {
    x.input == y.input && Line(x.pos) == Line(y.pos)
  }

  /** The errors of each (input, line) stand next to each other. */
  predicate Grouped(s: seq<WentError>)
  {
    forall a, b, c :: 0 <= a < b < c < |s| && SameLine(s[a], s[c]) ==> SameLine(s[a], s[b])
  }

  /** The errors on line `ln` of input `fn`, if any, open the list. */
  predicate LeadsWith(s: seq<WentError>, fn: string, ln: int)
  {
    forall k, i :: 0 <= k < i < |s| && s[i].input == fn && Line(s[i].pos) == ln ==>
      s[k].input == fn && Line(s[k].pos) == ln
  }

  /** `e` is the first error of its (input, line) in `s`, and not on the line
   * of input `fn` the loop starts from. */
  predicate FirstOfLine(s: seq<WentError>, e: WentError, fn: string, ln: int)
  {
    exists i :: 0 <= i < |s| && e == s[i] && (forall k :: 0 <= k < i ==> !SameLine(s[k], s[i])) &&
      (s[i].input != fn || Line(s[i].pos) != ln)
  }

  /** A sorted list is grouped, and the errors of input "" on line 0 open it. */
  lemma SortedGrouped(s: seq<WentError>)
    requires Sorted(s)
    ensures Grouped(s) && LeadsWith(s, "", 0)
  {
    forall a, b, c | 0 <= a < b < c < |s| && SameLine(s[a], s[c]) ensures SameLine(s[a], s[b]) {
      assert !Less(s[b], s[a]) && !Less(s[c], s[b]);
      if s[a].input != s[b].input { StrLessTotal(s[a].input, s[b].input); }
    }
    forall k, i | 0 <= k < i < |s| && s[i].input == "" && Line(s[i].pos) == 0
      ensures s[k].input == "" && Line(s[k].pos) == 0
    {
      assert !Less(s[i], s[k]);
    }
  }

  /** What the loop still has to read stays grouped, led by the line it now
   * remembers. */
  lemma GroupedTail(s: seq<WentError>, lastFn: string, lastLine: int)
    requires s != [] && Grouped(s) && LeadsWith(s, lastFn, lastLine)
    ensures var kept := s[0].input != lastFn || Line(s[0].pos) != lastLine;
      Grouped(s[1..]) &&
      LeadsWith(s[1..], if kept then s[0].input else lastFn, if kept then Line(s[0].pos) else lastLine)
  {
    var t := s[1..];
    forall a, b, c | 0 <= a < b < c < |t| && SameLine(t[a], t[c]) ensures SameLine(t[a], t[b]) {
      assert t[a] == s[a + 1] && t[b] == s[b + 1] && t[c] == s[c + 1];
    }
    forall k, i | 0 <= k < i < |t| && t[i].input == s[0].input && Line(t[i].pos) == Line(s[0].pos)
      ensures t[k].input == s[0].input && Line(t[k].pos) == Line(s[0].pos)
    {
      assert t[k] == s[k + 1] && t[i] == s[i + 1];
      assert SameLine(s[0], s[i + 1]);
    }
    forall k, i | 0 <= k < i < |t| && t[i].input == lastFn && Line(t[i].pos) == lastLine
      ensures t[k].input == lastFn && Line(t[k].pos) == lastLine
    {
      assert t[k] == s[k + 1] && t[i] == s[i + 1];
    }
  }

  /** The corrected de-duplication keeps a subsequence in which no two
   * neighbours share both input name and line, and every (input, line) pair of
   * the input still occurs; over a grouped list (a sorted one, say) each kept
   * error is the first of its (input, line). */
  lemma KeepFirstPerLineSpec(s: seq<WentError>, lastFn: string, lastLine: int)
    ensures IsSubsequence(KeepFirstPerLine(s, lastFn, lastLine), s)
    ensures Grouped(s) && LeadsWith(s, lastFn, lastLine) ==>
      var r := KeepFirstPerLine(s, lastFn, lastLine);
      forall j :: 0 <= j < |r| ==> FirstOfLine(s, r[j], lastFn, lastLine)
    ensures var r := KeepFirstPerLine(s, lastFn, lastLine);
      (r != [] ==> r[0].input != lastFn || Line(r[0].pos) != lastLine) &&
      forall i :: 0 < i < |r| ==> r[i].input != r[i - 1].input || Line(r[i].pos) != Line(r[i - 1].pos)
    ensures forall i :: 0 <= i < |s| && (s[i].input != lastFn || Line(s[i].pos) != lastLine) ==>
      exists j :: 0 <= j < |KeepFirstPerLine(s, lastFn, lastLine)| &&
        KeepFirstPerLine(s, lastFn, lastLine)[j].input == s[i].input &&
        Line(KeepFirstPerLine(s, lastFn, lastLine)[j].pos) == Line(s[i].pos)
  {
    KeptCoverLines(s, lastFn, lastLine);
    if Grouped(s) && LeadsWith(s, lastFn, lastLine) {
      KeptAreFirst(s, lastFn, lastLine);
    }
  }

  /** The part of `KeepFirstPerLineSpec` that holds of any list: a subsequence,
   * neighbours on different lines, and every line still represented. */
  lemma {:induction false} KeptCoverLines(s: seq<WentError>, lastFn: string, lastLine: int)
    ensures IsSubsequence(KeepFirstPerLine(s, lastFn, lastLine), s)
    ensures var r := KeepFirstPerLine(s, lastFn, lastLine);
      (r != [] ==> r[0].input != lastFn || Line(r[0].pos) != lastLine) &&
      forall i :: 0 < i < |r| ==> r[i].input != r[i - 1].input || Line(r[i].pos) != Line(r[i - 1].pos)
    ensures forall i :: 0 <= i < |s| && (s[i].input != lastFn || Line(s[i].pos) != lastLine) ==>
      exists j :: 0 <= j < |KeepFirstPerLine(s, lastFn, lastLine)| &&
        KeepFirstPerLine(s, lastFn, lastLine)[j].input == s[i].input &&
        Line(KeepFirstPerLine(s, lastFn, lastLine)[j].pos) == Line(s[i].pos)
  {
    if s != [] {
      var kept := s[0].input != lastFn || Line(s[0].pos) != lastLine;
      var fn := if kept then s[0].input else lastFn;
      var ln := if kept then Line(s[0].pos) else lastLine;
      KeptCoverLines(s[1..], fn, ln);
      var rest := KeepFirstPerLine(s[1..], fn, ln);
      var r := KeepFirstPerLine(s, lastFn, lastLine);
      if kept {
        assert r == [s[0]] + rest;
        assert r[1..] == rest;
      }
      forall i | 0 <= i < |s| && (s[i].input != lastFn || Line(s[i].pos) != lastLine)
        ensures exists j :: 0 <= j < |r| && r[j].input == s[i].input && Line(r[j].pos) == Line(s[i].pos)
      {
        if i == 0 {
          assert r[0] == s[0];
        } else if s[i].input == fn && Line(s[i].pos) == ln {
          assert kept;
          assert r[0].input == s[i].input && Line(r[0].pos) == Line(s[i].pos);
        } else {
          assert s[1..][i - 1] == s[i];
          var j :| 0 <= j < |rest| && rest[j].input == s[i].input && Line(rest[j].pos) == Line(s[i].pos);
          if kept { assert r[j + 1] == rest[j]; } else { assert r[j] == rest[j]; }
        }
      }
    }
  }

  /** Over a grouped list, each error the corrected loop keeps is the first
   * of its (input, line). */
  lemma {:induction false} KeptAreFirst(s: seq<WentError>, lastFn: string, lastLine: int)
    requires Grouped(s) && LeadsWith(s, lastFn, lastLine)
    ensures forall j :: 0 <= j < |KeepFirstPerLine(s, lastFn, lastLine)| ==>
      FirstOfLine(s, KeepFirstPerLine(s, lastFn, lastLine)[j], lastFn, lastLine)
    decreases |s|
  {
    if s != [] {
      var kept := s[0].input != lastFn || Line(s[0].pos) != lastLine;
      var fn := if kept then s[0].input else lastFn;
      var ln := if kept then Line(s[0].pos) else lastLine;
      GroupedTail(s, lastFn, lastLine);
      KeptAreFirst(s[1..], fn, ln);
      var rest := KeepFirstPerLine(s[1..], fn, ln);
      assert forall j :: 0 <= j < |rest| ==> FirstOfLine(s[1..], rest[j], fn, ln);
      var r := KeepFirstPerLine(s, lastFn, lastLine);
      assert r == if kept then [s[0]] + rest else rest;
      forall j | 0 <= j < |r| ensures FirstOfLine(s, r[j], lastFn, lastLine) {
        if kept && j == 0 {
          assert r[0] == s[0];
        } else {
          var jj := if kept then j - 1 else j;
          assert 0 <= jj < |rest| && r[j] == rest[jj];
          assert FirstOfLine(s[1..], rest[jj], fn, ln);
          FirstOfLineTail(s, rest[jj], lastFn, lastLine, fn, ln);
        }
      }
    }
  }

  /** The corrected `RemoveMultiples`: sorted, drawn from the list, and each
   * kept error the first of its (input, line) in the sorted order. */
  lemma RemoveMultiplesIntended(s: seq<WentError>)
    ensures var r := KeepFirstPerLine(SortErrors(s), "", 0);
      Sorted(r) && multiset(r) <= multiset(s) &&
      forall j :: 0 <= j < |r| ==> FirstOfLine(SortErrors(s), r[j], "", 0)
  {
    SortErrorsSpec(s);
    SortedGrouped(SortErrors(s));
    KeepFirstPerLineSpec(SortErrors(s), "", 0);
    SubsequenceSorted(KeepFirstPerLine(SortErrors(s), "", 0), SortErrors(s));
  }

  /** On the finding's two errors the corrected loop keeps only the first. */
  lemma IntendedDropsDuplicateLine()
    ensures var e1 := WentError("f", NewPos(3, 1), "a", "");
      var e2 := WentError("f", NewPos(3, 5), "b", "");
      KeepFirstPerLine([e1, e2], "", 0) == [e1]
  {
    var e1 := WentError("f", NewPos(3, 1), "a", "");
    var e2 := WentError("f", NewPos(3, 5), "b", "");
    DecomposeNewPos(3, 1);
    DecomposeNewPos(3, 5);
    assert [e1, e2][1..] == [e2] && [e2][1..] == [];
    assert KeepFirstPerLine([e2], "f", 3) == [];
  }

  /** A first error of its line in the rest of the list, after the loop's
   * first turn, is a first error of its line in the whole list. */
  lemma FirstOfLineTail(s: seq<WentError>, e: WentError, lastFn: string, lastLine: int, fn: string, ln: int)
    requires s != [] && LeadsWith(s, lastFn, lastLine)
    requires var kept := s[0].input != lastFn || Line(s[0].pos) != lastLine;
      fn == (if kept then s[0].input else lastFn) && ln == (if kept then Line(s[0].pos) else lastLine)
    requires FirstOfLine(s[1..], e, fn, ln)
    ensures FirstOfLine(s, e, lastFn, lastLine)
  {
    var t := s[1..];
    var i' :| 0 <= i' < |t| && e == t[i'] && (forall k :: 0 <= k < i' ==> !SameLine(t[k], t[i'])) &&
      (t[i'].input != fn || Line(t[i'].pos) != ln);
    var i := i' + 1;
    assert s[i] == t[i'];
    forall k | 0 <= k < i ensures !SameLine(s[k], s[i]) {
      if k > 0 { assert s[k] == t[k - 1]; }
    }
  }

  // ---------------------------------------------------------------------
  // ErrorList

  class ErrorList {
    var list: seq<WentError>

    constructor ()
      ensures list == []
    {
      list := [];
    }

    /** `Add`: appends at the end. */
    method Add(e: WentError)
      modifies this
      ensures list == old(list) + [e]
    {
      list := list + [e];
    }

    /** `Reset`: no errors remain. */
    method Reset()
      modifies this
      ensures list == []
    {
      list := list[0..0];
    }

    /** `Sort`: a permutation of the list, ordered by `Less`. Errors that
     * `Less` cannot tell apart differ at most in their type; they are left
     * in the order insertion sort gives, one of the orders the unstable
     * `sort.Sort` may give. */
    method Sort()
      modifies this
      ensures Sorted(list)
      ensures multiset(list) == multiset(old(list))
      ensures list == SortErrors(old(list))
    {
      SortErrorsSpec(list);
      list := SortErrors(list);
    }

    /** `RemoveMultiples`: sorts, then compacts in place with a write index. */
    method RemoveMultiples()
      modifies this
      ensures list == KeepFirstPerLineAsWritten(SortErrors(old(list)), 0)
    {
      list := SortErrors(list);
      ghost var sorted := list;
      var lastFn: string := "";
      var lastLine: int := 0;
      var i, k := 0, 0;
      while k < |list|
        invariant |list| == |sorted|
        invariant 0 <= i <= k <= |list|
        invariant lastFn == ""
        invariant list[..i] + KeepFirstPerLineAsWritten(sorted[k..], lastLine) == KeepFirstPerLineAsWritten(sorted, 0)
        invariant list[k..] == sorted[k..]
      {
        var e := list[k];
        assert e == sorted[k..][0];
        KeepStep(sorted, k, lastLine);
        if e.input != lastFn || Line(e.pos) != lastLine {
          WriteStep(list, i, k, e, KeepFirstPerLineAsWritten(sorted[k + 1..], Line(e.pos)));
          lastLine := Line(e.pos);
          list := list[i := e];
          i := i + 1;
        } else {
          assert list[k + 1..] == list[k..][1..];
        }
        k := k + 1;
      }
      assert sorted[k..] == [];
      assert list[..i] == KeepFirstPerLineAsWritten(sorted, 0);
      list := list[0..i];
    }

    /** `Error`: "no errors", the sole error's text, or the first error's text
     * followed by how many more there are. */
    function Error(): (s: string)
      reads this
      ensures |list| == 0 ==> s == "no errors"
      ensures |list| == 1 ==> s == ErrorString(list[0])
      ensures |list| >= 2 ==> s == ErrorString(list[0]) + " (and " + NatToString(|list| - 1) + " more errors)"
    {
      if |list| == 0 then "no errors"
      else if |list| == 1 then ErrorString(list[0])
      else ErrorString(list[0]) + " (and " + NatToString(|list| - 1) + " more errors)"
    }

    /** `Err`: no error value for an empty list, the list itself otherwise. */
    function Err(): (r: Option<seq<WentError>>)
      reads this
      ensures r.None? <==> |list| == 0
      ensures r.Some? ==> r.value == list
    {
      if |list| == 0 then None else Some(list)
    }
  }

  datatype Option<T> = None | Some(value: T)
}
