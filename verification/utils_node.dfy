/** utils/node.go: the number node of the earliest parser. */
module UtilsNode {
  import opened Runes
  import opened Strconv

  /** `NodeType`. */
  type NodeType = int

  const NodeNumber: NodeType := 0
  const NodeArithExpr: NodeType := 1

  /** `NumberNode`. */
  datatype NumberNode = NumberNode(nodeType: NodeType, pos: int, isInt: bool, isFloat: bool,
                                   int64: int, float64: real, text: string)

  /** `newNumber`, given what `strconv.ParseInt(text, 0, 64)` and
   * `strconv.ParseFloat(text, 64)` return for `text`. */
  function NewNumber(pos: int, text: string, ip: IntParse, fp: FloatParse): (r: Result<NumberNode>)
    requires ValidIntParse(ip)
    // A number node records its kind and position, is always a float, and
    // renders as its original text.
    ensures r.Ok? ==> r.value.nodeType == NodeNumber && r.value.pos == pos && r.value.isFloat
    ensures r.Ok? ==> NumberString(r.value) == text
    // When it is also an int, the two representations agree.
    ensures r.Ok? && r.value.isInt ==> IsInt64(r.value.int64) && r.value.float64 == r.value.int64 as real
    ensures ip.IntOk? ==> r.Ok? && r.value.isInt && r.value.int64 == ip.value
    ensures ip.IntErr? && fp.FloatOk? && HasFloatMark(text) ==>
      r.Ok? && r.value.float64 == fp.value && (r.value.isInt <==> IntegralInt64(fp.value))
    ensures r.Err? <==> ip.IntErr? && (fp.FloatErr? || !HasFloatMark(text))
    ensures r.Err? && fp.FloatOk? ==> r.msg == "Integer overflow: " + Quote(text)
    ensures r.Err? && fp.FloatErr? ==> r.msg == "Illegal number syntax: " + Quote(text)
  {
    var n := NumberNode(NodeNumber, pos, false, false, 0, 0.0, text);
    var n := if ip.IntOk? then n.(isInt := true, int64 := ip.value) else n;
    if n.isInt then Ok(n.(isFloat := true, float64 := n.int64 as real))
    else
      match fp
      case FloatOk(f) =>
        if !HasFloatMark(text) then Err("Integer overflow: " + Quote(text))
        else
          var n := n.(isFloat := true, float64 := f);
          if IntegralInt64(f) then Ok(n.(isInt := true, int64 := Int64Of(f))) else Ok(n)
      case FloatErr => Err("Illegal number syntax: " + Quote(text))
  }

  /** `NumberNode.String`. */
  function NumberString(n: NumberNode): string { n.text }
}
