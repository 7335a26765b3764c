/**
 * lang/wenttype.go: the runtime values of the language, with their zero
 * test, structural equality, ordering (`Sm`) and the converse ordering
 * (`Gr`) derived from it.
 *
 * `WNum` holds an exact `real` in place of a float64, so there is no NaN,
 * infinity or rounding here.
 */
module WentType {
  import opened TokenErrors

  datatype Value =
    | WNull
    | WNum(n: real)
    | WString(s: string)
    | WBool(b: bool)
    | WList(items: seq<Value>)
    | Wmap(m: map<string, Value>)

  /** `%T` of a value. */
  function TypeName(v: Value): string
  {
    match v
    case WNull => "lang.WNull"
    case WNum(_) => "lang.WNum"
    case WString(_) => "lang.WString"
    case WBool(_) => "lang.WBool"
    case WList(_) => "lang.WList"
    case Wmap(_) => "lang.Wmap"
  }

  predicate SameVariant(a: Value, b: Value)
  {
    TypeName(a) == TypeName(b)
  }

  /** The zero value of a value's own variant. */
  function ZeroOf(v: Value): Value
  {
    match v
    case WNull => WNull
    case WNum(_) => WNum(0.0)
    case WString(_) => WString("")
    case WBool(_) => WBool(false)
    case WList(_) => WList([])
    case Wmap(_) => Wmap(map[])
  }

  /** `IsZeroValue`: a value is zero iff it equals its variant's zero. */
  function IsZeroValue(v: Value): (z: bool)
    ensures z <==> Equals(v, ZeroOf(v))
  {
    match v
    case WNull => true
    case WNum(x) => x == 0.0
    case WString(s) => s == ""
    case WBool(b) => !b
    case WList(items) => |items| == 0
    case Wmap(m) => |m| == 0
  }

  /** `Equals`: structural; lists elementwise, maps key by key (a key missing
   * from the argument compares unequal). Values of different variants are
   * never equal. */
  function Equals(a: Value, b: Value): (r: bool)
    ensures r ==> SameVariant(a, b)
  {
    match a
    case WNull => b.WNull?
    case WNum(x) => b.WNum? && x == b.n
    case WString(s) => b.WString? && s == b.s
    case WBool(x) => b.WBool? && x == b.b
    case WList(xs) =>
      b.WList? && |xs| == |b.items| &&
      forall i :: 0 <= i < |xs| ==> Equals(xs[i], b.items[i])
    case Wmap(m) =>
      b.Wmap? && |m| == |b.m| &&
      forall k :: k in m ==> k in b.m && Equals(m[k], b.m[k])
  }

  /** A comparison's result: the boolean, or the error. */
  datatype Cmp = Cmp(b: bool) | CmpError(msg: string)

  /** `opError`. */
  function OpError(w1: Value, w2: Value, op: string): string
  {
    "'" + op + "' not supported between types '" + TypeName(w1) + "' and '" + TypeName(w2) + "'"
  }

  function SmOp(orEq: bool): string { if orEq then "<=" else "<" }

  function GrOp(orEq: bool): string { if orEq then ">=" else ">" }

  /** Go's `<` (or `<=`) on strings. */
  predicate StrSm(s: string, t: string, orEq: bool)
  {
    StrLess(s, t) || (orEq && s == t)
  }

  /** `Sm`: `<` (or `<=`) for two numbers or two strings; lexicographic for
   * two lists; an error for anything else. */
  function Sm(a: Value, b: Value, orEq: bool): (r: Cmp)
    ensures (a.WNull? || a.WBool? || a.Wmap?) ==> r == CmpError(OpError(a, b, SmOp(orEq)))
    ensures (a.WNum? || a.WString?) ==> (r.CmpError? <==> !SameVariant(a, b))
    ensures !SameVariant(a, b) ==> r == CmpError(OpError(a, b, SmOp(orEq)))
    decreases a, 1
  {
    match a
    case WNum(x) =>
      if b.WNum? then Cmp(if orEq then x <= b.n else x < b.n)
      else CmpError(OpError(a, b, SmOp(orEq)))
    case WString(s) =>
      if b.WString? then Cmp(StrSm(s, b.s, orEq))
      else CmpError(OpError(a, b, SmOp(orEq)))
    case WList(_) =>
      if b.WList? then ListSm(a, b, orEq, 0)
      else CmpError(OpError(a, b, SmOp(orEq)))
    case _ => CmpError(OpError(a, b, SmOp(orEq)))
  }

  /** The loop of `WList.Sm` from index `i`: the first pair of elements that
   * are not `Equals` decides, with that pair's own `Sm`; if there is none,
   * the lengths do. */
  function ListSm(a: Value, b: Value, orEq: bool, i: nat): (r: Cmp)
    requires a.WList? && b.WList? && i <= |a.items| && i <= |b.items|
    decreases a, 0, |a.items| - i
  {
    if i < |a.items| && i < |b.items| then
      if !Equals(a.items[i], b.items[i]) then Sm(a.items[i], b.items[i], orEq)
      else ListSm(a, b, orEq, i + 1)
    else Cmp(if orEq then |a.items| <= |b.items| else |a.items| < |b.items|)
  }

  /** `Gr`: `a > b` is `!(a <= b)` and `a >= b` is `!(a < b)`; an error of
   * that `Sm` becomes an error naming `>` or `>=`. */
  function Gr(a: Value, b: Value, orEq: bool): (r: Cmp)
    ensures r.CmpError? <==> Sm(a, b, !orEq).CmpError?
    ensures r.CmpError? ==> r.msg == OpError(a, b, GrOp(orEq))
  {
    var sm := Sm(a, b, !orEq);
    if sm.CmpError? then CmpError(OpError(a, b, GrOp(orEq))) else Cmp(!sm.b)
  }
}
