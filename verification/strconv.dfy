/**
 * What the number constructors of lang/node.go and utils/node.go use from
 * Go's `strconv` and `strings` packages. The two parsers are not modelled:
 * their outcomes are values the callers are given. A float64 is an exact
 * `real`, which is all the constructors need (see README, "Left out").
 */
module Strconv {
  const MinInt64: int := -0x8000_0000_0000_0000
  const MaxInt64: int := 0x7fff_ffff_ffff_ffff

  predicate IsInt64(x: int) { MinInt64 <= x <= MaxInt64 }

  /** The outcome of `strconv.ParseInt(text, 0, 64)`: the value, which always
   * fits in 64 bits, or an error. */
  datatype IntParse = IntOk(value: int) | IntErr

  predicate ValidIntParse(p: IntParse) { p.IntOk? ==> IsInt64(p.value) }

  /** The outcome of `strconv.ParseFloat(text, 64)`. */
  datatype FloatParse = FloatOk(value: real) | FloatErr

  /** An error value built by `fmt.Errorf`, or a result. */
  datatype Result<T> = Ok(value: T) | Err(msg: string)

  /** `strings.ContainsAny(text, ".eE")`: the text is spelled like a float. */
  predicate HasFloatMark(text: string)
  {
    '.' in text || 'e' in text || 'E' in text
  }

  /** `float64(int64(f)) == f`: the conversion to int64 truncates toward
   * zero, so this holds exactly for the integral values within int64 range
   * (on amd64 an out-of-range conversion yields MinInt64, whose float64 is
   * itself in range). */
  predicate IntegralInt64(f: real)
  {
    f == f.Floor as real && IsInt64(f.Floor)
  }

  /** `int64(f)` for an integral `f` within range. */
  function Int64Of(f: real): (i: int)
    requires IntegralInt64(f)
    ensures i as real == f && IsInt64(i)
  {
    f.Floor
  }
}
