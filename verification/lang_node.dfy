/**
 * lang/node.go: the literal constructors `newNumber` and `newBool`, and the
 * operator spelling of the comparison nodes.
 */
module LangNode {
  import opened Runes
  import opened Tok
  import opened Strconv

  /** `Num`: a number literal, held as an int and/or a float. */
  datatype Num = Num(token: Token, isInt: bool, isFloat: bool, int64: int, float64: real, text: string)

  /** `newNumber`, given what `strconv.ParseInt(text, 0, 64)` and
   * `strconv.ParseFloat(text, 64)` return for `text`. */
  function NewNumber(text: string, tkn: Token, ip: IntParse, fp: FloatParse): (r: Result<Num>)
    requires ValidIntParse(ip)
    // A number is always a float, keeps its token, and renders as its original text.
    ensures r.Ok? ==> r.value.isFloat && NumString(r.value) == text && r.value.token == tkn
    // When it is also an int, the two representations agree.
    ensures r.Ok? && r.value.isInt ==> IsInt64(r.value.int64) && r.value.float64 == r.value.int64 as real
    // An int parse wins.
    ensures ip.IntOk? ==> r.Ok? && r.value.isInt && r.value.int64 == ip.value
    // A float parse of float-looking text gives that float, an int only when integral.
    ensures ip.IntErr? && fp.FloatOk? && HasFloatMark(text) ==>
      r.Ok? && r.value.float64 == fp.value && (r.value.isInt <==> IntegralInt64(fp.value))
    // The two errors.
    ensures r.Err? <==> ip.IntErr? && (fp.FloatErr? || !HasFloatMark(text))
    ensures r.Err? && fp.FloatOk? ==> r.msg == "Integer overflow: " + Quote(text)
    ensures r.Err? && fp.FloatErr? ==> r.msg == "illegal number syntax: " + Quote(text)
  {
    var isInt := ip.IntOk?;
    var i := if isInt then ip.value else 0;
    if isInt then Ok(Num(tkn, true, true, i, i as real, text))
    else
      match fp
      case FloatOk(f) =>
        if !HasFloatMark(text) then Err("Integer overflow: " + Quote(text))
        else if IntegralInt64(f) then Ok(Num(tkn, true, true, Int64Of(f), f, text))
        else Ok(Num(tkn, false, true, 0, f, text))
      case FloatErr => Err("illegal number syntax: " + Quote(text))
  }

  /** `Num.String`: the original text. */
  function NumString(n: Num): string { n.text }

  /** `Bool`: a boolean literal. */
  datatype Bool = Bool(token: Token, value: bool, text: string)

  /** `newBool`: TRUE and FALSE tokens, and nothing else, make a boolean. */
  function NewBool(text: string, tknTyp: Type, tkn: Token): (r: Result<Bool>)
    ensures r.Ok? <==> tknTyp == TRUE || tknTyp == FALSE
    ensures r.Ok? ==> r.value.value == (tknTyp == TRUE) && r.value.text == text && r.value.token == tkn
    ensures r.Err? ==> r.msg == "illegal bool syntax: " + Quote(text)
  {
    if tknTyp == TRUE then Ok(Bool(tkn, true, text))
    else if tknTyp == FALSE then Ok(Bool(tkn, false, text))
    else Err("illegal bool syntax: " + Quote(text))
  }

  /** `EqExpr.String`. */
  function EqString(isNot: bool): (s: string)
    ensures s == "!=" <==> isNot
    ensures s == "==" <==> !isNot
  {
    if isNot then "!=" else "=="
  }

  /** `SmExpr.String`. */
  function SmString(orEq: bool): (s: string)
    ensures s == "<=" <==> orEq
    ensures s == "<" <==> !orEq
  {
    if orEq then "<=" else "<"
  }

  /** `GrExpr.String`. */
  function GrString(orEq: bool): (s: string)
    ensures s == ">=" <==> orEq
    ensures s == ">" <==> !orEq
  {
    if orEq then ">=" else ">"
  }
}
