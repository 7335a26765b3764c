/** Properties of the lang/wenttype.go values: `Equals` is an equivalence
 * on what it relates, and `Gr` is the converse of `Sm`. */
module WentTypeProps {
  import opened TokenErrors
  import opened WentType

  lemma {:induction false} EqualsReflexive(a: Value)
    ensures Equals(a, a)
    decreases a
  {
    match a
    case WList(xs) =>
      forall i | 0 <= i < |xs|
        ensures Equals(xs[i], xs[i])
      {
        EqualsReflexive(xs[i]);
      }
    case Wmap(m) =>
      forall k | k in m
        ensures Equals(m[k], m[k])
      {
        EqualsReflexive(m[k]);
      }
    case _ =>
  }

  /** A subset as large as its superset is the whole of it. */
  lemma SubsetSameSize<K>(s: set<K>, t: set<K>)
    requires s <= t && |s| == |t|
    ensures s == t
  {
    var d := t - s;
    assert t == s + d;
    assert s * d == {};
    assert |t| == |s| + |d|;
  }

  lemma {:induction false} EqualsSymmetric(a: Value, b: Value)
    requires Equals(a, b)
    ensures Equals(b, a)
    decreases a
  {
    match a
    case WList(xs) =>
      forall i | 0 <= i < |xs|
        ensures Equals(b.items[i], xs[i])
      {
        EqualsSymmetric(xs[i], b.items[i]);
      }
    case Wmap(m) =>
      SubsetSameSize(m.Keys, b.m.Keys);
      forall k | k in b.m
        ensures k in m && Equals(b.m[k], m[k])
      {
        EqualsSymmetric(m[k], b.m[k]);
      }
    case _ =>
  }

  lemma {:induction false} EqualsTransitive(a: Value, b: Value, c: Value)
    requires Equals(a, b) && Equals(b, c)
    ensures Equals(a, c)
    decreases a
  {
    match a
    case WList(xs) =>
      forall i | 0 <= i < |xs|
        ensures Equals(xs[i], c.items[i])
      {
        EqualsTransitive(xs[i], b.items[i], c.items[i]);
      }
    case Wmap(m) =>
      forall k | k in m
        ensures k in c.m && Equals(m[k], c.m[k])
      {
        EqualsTransitive(m[k], b.m[k], c.m[k]);
      }
    case _ =>
  }

  /** Go's string order is total, so "not s <= t" is "t < s" and "not s < t"
   * is "t <= s". */
  lemma StrConverse(s: string, t: string, orEq: bool)
    ensures !StrSm(s, t, !orEq) <==> StrSm(t, s, orEq)
  {
    StrLessIrreflexive(s);
    if s != t {
      StrLessTotal(s, t);
      if StrLess(s, t) && StrLess(t, s) {
        StrLessTransitive(s, t, s);
      }
    }
  }

  /** `Gr` is the converse of `Sm`: whenever `Gr(a, b, orEq)` is defined,
   * `Sm(b, a, orEq)` is defined too and gives the same answer. */
  lemma {:induction false} GrIsConverse(a: Value, b: Value, orEq: bool)
    requires Gr(a, b, orEq).Cmp?
    ensures Sm(b, a, orEq).Cmp? && Gr(a, b, orEq) == Sm(b, a, orEq)
    decreases a, 1
  {
    match a
    case WString(s) =>
      StrConverse(s, b.s, orEq);
    case WList(_) =>
      ListConverse(a, b, orEq, 0);
    case _ =>
  }

  lemma {:induction false} ListConverse(a: Value, b: Value, orEq: bool, i: nat)
    requires a.WList? && b.WList? && i <= |a.items| && i <= |b.items|
    requires ListSm(a, b, !orEq, i).Cmp?
    ensures ListSm(b, a, orEq, i).Cmp? && ListSm(b, a, orEq, i).b == !ListSm(a, b, !orEq, i).b
    decreases a, 0, |a.items| - i
  {
    if i < |a.items| && i < |b.items| {
      var x, y := a.items[i], b.items[i];
      if !Equals(x, y) {
        if Equals(y, x) {
          EqualsSymmetric(y, x);
        }
        GrIsConverse(x, y, orEq);
      } else {
        EqualsSymmetric(x, y);
        ListConverse(a, b, orEq, i + 1);
      }
    }
  }
}
