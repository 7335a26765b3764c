/**
 * lang/runtime/interpreter.go: the tree-walking evaluator over the trees of
 * lang/parser/parser.go.
 *
 * A Go `interface{}` value is an `RValue`: nil, a bool, a float64 (an exact
 * `real`) or a string. Evaluation is given by the pure function `Eval`; a
 * panic is the `Raised` result, carrying the one error recorded before it.
 * A float64 division by zero yields an infinity or a NaN, which an exact
 * `real` cannot hold: that evaluation ends in `Unrepresented`, with no error
 * recorded, as in the source.
 */
module Interpreter {
  import opened Tok
  import opened TokenErrors
  import opened RuntimeErrors
  import opened AstParser

  datatype RValue = RNil | RBool(b: bool) | RNum(n: real) | RStr(s: string)

  datatype Evaluated = Val(v: RValue) | Raised(err: WentError) | Unrepresented

  /** `VisitBasicLit`: the literal's stored value. */
  function LitValue(l: Lit): RValue
  {
    match l
    case LitFalse => RBool(false)
    case LitTrue => RBool(true)
    case LitNull => RNil
    case LitText(s) => RStr(s)
    case LitNum(n) => RNum(n)
  }

  /** `isTruthy`: only nil and false are falsy. */
  function IsTruthy(v: RValue): (t: bool)
    ensures !t <==> v in {RNil, RBool(false)}
  {
    match v
    case RNil => false
    case RBool(b) => b
    case _ => true
  }

  /** `isEqual`: Go's `==` on two interface values, which holds when they
   * have the same dynamic type and equal values. */
  predicate IsEqual(a: RValue, b: RValue)
  {
    a == b
  }

  /** The message `checkFloatOperands` formats from
   * "operand%smust be %snumber%s" for `count` operands. */
  function OperandsMessage(count: nat): (m: string)
    ensures count <= 1 ==> m == "operandmust be a number"
    ensures count > 1 ==> m == "operands must be numbers "
  {
    var (s, a) := if count <= 1 then ("", "a ") else ("s ", "");
    "operand" + s + "must be " + a + "number" + s
  }

  /** The float64s of `checkFloatOperands`, if every operand is one. */
  function FloatOperands(vals: seq<RValue>): (r: Option<seq<real>>)
    ensures r.Some? <==> forall i :: 0 <= i < |vals| ==> vals[i].RNum?
    ensures r.Some? ==> |r.value| == |vals| && forall i :: 0 <= i < |vals| ==> r.value[i] == vals[i].n
  {
    if vals == [] then Some([])
    else if !vals[0].RNum? then None
    else
      var rest := FloatOperands(vals[1..]);
      if rest.None? then None else Some([vals[0].n] + rest.value)
  }

  /** The operators `VisitBinExpr` hands to `checkFloatOperands`. */
  const NumericOps: seq<Type> := [MINUS, DIV, MULT, GR, GREQ, SM, SMEQ]

  /** The operators whose result is a comparison. */
  const ComparisonOps: seq<Type> := [GR, GREQ, SM, SMEQ]

  function RaiseAt(name: string, op: Token, msg: string): Evaluated
  {
    Raised(NewRuntimeError(name, op.pos, msg))
  }

  /** The arithmetic or comparison of two float64s. */
  function Numeric(typ: Type, x: real, y: real): (r: Evaluated)
    requires typ in NumericOps
    ensures typ in ComparisonOps ==> r.Val? && r.v.RBool?
    ensures typ !in ComparisonOps ==> r.Unrepresented? || (r.Val? && r.v.RNum?)
    ensures r.Unrepresented? <==> typ == DIV && y == 0.0
  {
    if typ == MINUS then Val(RNum(x - y))
    else if typ == DIV then (if y == 0.0 then Unrepresented else Val(RNum(x / y)))
    else if typ == MULT then Val(RNum(x * y))
    else if typ == GR then Val(RBool(x > y))
    else if typ == GREQ then Val(RBool(x >= y))
    else if typ == SM then Val(RBool(x < y))
    else Val(RBool(x <= y))
  }

  /** The switch of `VisitBinExpr`, once both operands are values. */
  function ApplyBinary(name: string, op: Token, a: RValue, b: RValue): (r: Evaluated)
    // `+` adds two numbers and concatenates two strings, and refuses the rest.
    ensures op.typ == PLUS ==>
      (a.RNum? && b.RNum? ==> r == Val(RNum(a.n + b.n))) &&
      (a.RStr? && b.RStr? ==> r == Val(RStr(a.s + b.s))) &&
      (r.Raised? <==> !(a.RNum? && b.RNum?) && !(a.RStr? && b.RStr?))
    // The numeric operators need two numbers.
    ensures op.typ in NumericOps ==> (r.Raised? <==> !a.RNum? || !b.RNum?)
    ensures r.Raised? ==> r.err == NewRuntimeError(name, op.pos,
      if op.typ == PLUS then "operands must be two numbers or two strings" else "operands must be numbers ")
    // Equality never fails, and `!=` is its negation.
    ensures op.typ in [EQ, NEQ] ==> r.Val? && r.v.RBool? && (r.v.b <==> (IsEqual(a, b) <==> op.typ == EQ))
    // Every other operator gives nil.
    ensures op.typ !in [PLUS, EQ, NEQ] + NumericOps ==> r == Val(RNil)
  {
    if op.typ == PLUS then
      if a.RNum? && b.RNum? then Val(RNum(a.n + b.n))
      else if a.RStr? && b.RStr? then Val(RStr(a.s + b.s))
      else RaiseAt(name, op, "operands must be two numbers or two strings")
    else if op.typ in NumericOps then
      var fs := FloatOperands([a, b]);
      if fs.None? then RaiseAt(name, op, OperandsMessage(2))
      else Numeric(op.typ, fs.value[0], fs.value[1])
    else if op.typ == EQ then Val(RBool(IsEqual(a, b)))
    else if op.typ == NEQ then Val(RBool(!IsEqual(a, b)))
    else Val(RNil)
  }

  /** The switch of `VisitUnExpr`, once the operand is a value. */
  function ApplyUnary(name: string, op: Token, a: RValue): (r: Evaluated)
    ensures op.typ in [MINUS, PLUS] ==>
      (r.Raised? <==> !a.RNum?) &&
      (a.RNum? ==> r == Val(RNum(if op.typ == MINUS then -a.n else a.n)))
    ensures r.Raised? ==> r.err == NewRuntimeError(name, op.pos, "operandmust be a number")
    ensures op.typ == LOGICALNOT ==> r == Val(RBool(!IsTruthy(a)))
    ensures op.typ !in [MINUS, PLUS, LOGICALNOT] ==> r == Val(RNil)
  {
    if op.typ in [MINUS, PLUS] then
      var fs := FloatOperands([a]);
      if fs.None? then RaiseAt(name, op, OperandsMessage(1))
      else Val(RNum(if op.typ == MINUS then -fs.value[0] else fs.value[0]))
    else if op.typ == LOGICALNOT then Val(RBool(!IsTruthy(a)))
    else Val(RNil)
  }

  /** `evaluate`: operands first, left before right, then the operator. A
   * failure anywhere is a runtime error of this input. */
  function Eval(name: string, e: Expr): (r: Evaluated)
    ensures r.Raised? ==> r.err.errorName == RuntimeErrorName && r.err.input == name
    decreases e
  {
    match e
    case GrpExpr(_, x, _) => Eval(name, x)
    case BasicLit(l, _) => Val(LitValue(l))
    case UnExpr(op, x) =>
      var o := Eval(name, x);
      if !o.Val? then o else ApplyUnary(name, op, o.v)
    case BinExpr(l, op, x) =>
      var lo := Eval(name, l);
      if !lo.Val? then lo
      else
        var ro := Eval(name, x);
        if !ro.Val? then ro else ApplyBinary(name, op, lo.v, ro.v)
  }

  /** The errors an evaluation records: one for a failure, none otherwise. */
  function Recorded(r: Evaluated): (errs: seq<WentError>)
    ensures |errs| <= 1 && (|errs| == 1 <==> r.Raised?)
  {
    if r.Raised? then [r.err] else []
  }

  /** `stringify`, given the `%v` rendering of a float64. */
  function Stringify(v: RValue, formatFloat: real -> string): (s: string)
    ensures v.RNil? ==> s == "null"
    ensures v.RStr? ==> s == v.s
    ensures v.RBool? ==> s == (if v.b then "true" else "false")
  {
    match v
    case RNil => "null"
    case RBool(b) => if b then "true" else "false"
    case RNum(n) => formatFloat(n)
    case RStr(s) => s
  }

  class Interpreter {
    const inputName: string
    var errors: seq<WentError>

    /** `NewInterpreter`. */
    constructor (inputName: string)
      ensures this.inputName == inputName && errors == []
    {
      this.inputName := inputName;
      errors := [];
    }

    /** `errorf`: one runtime error at `pos` is added. */
    method Errorf(pos: Pos, msg: string)
      modifies this
      ensures errors == old(errors) + [NewRuntimeError(inputName, pos, msg)]
    {
      errors := errors + [NewRuntimeError(inputName, pos, msg)];
    }

    /** `checkFloatOperands`: the float64s of the operands, or one error
     * naming the operand count. */
    method CheckFloatOperands(op: Token, vals: seq<RValue>) returns (fs: seq<real>, hasErr: bool)
      modifies this
      ensures hasErr <==> FloatOperands(vals).None?
      ensures fs == if hasErr then [] else FloatOperands(vals).value
      ensures errors == old(errors) + (if hasErr then [NewRuntimeError(inputName, op.pos, OperandsMessage(|vals|))] else [])
    {
      var result := new real[|vals|];
      var i := 0;
      while i < |vals|
        invariant 0 <= i <= |vals|
        invariant forall j :: 0 <= j < i ==> vals[j].RNum? && result[j] == vals[j].n
        invariant errors == old(errors)
      {
        if !vals[i].RNum? {
          Errorf(op.pos, OperandsMessage(|vals|));
          return [], true;
        }
        result[i] := vals[i].n;
        i := i + 1;
      }
      return result[..], false;
    }

    /** `evaluate`: the tree's value per `Eval`, with its error recorded. */
    method Evaluate(e: Expr) returns (r: Evaluated)
      modifies this
      ensures r == Eval(inputName, e)
      ensures errors == old(errors) + Recorded(r)
      decreases e, 1
    {
      match e
      case GrpExpr(_, _, _) => r := VisitGrpExpr(e);
      case BasicLit(_, _) => r := VisitBasicLit(e);
      case UnExpr(_, _) => r := VisitUnExpr(e);
      case BinExpr(_, _, _) => r := VisitBinExpr(e);
    }

    /** `VisitGrpExpr`. */
    method VisitGrpExpr(n: Expr) returns (r: Evaluated)
      requires n.GrpExpr?
      modifies this
      ensures r == Eval(inputName, n)
      ensures errors == old(errors) + Recorded(r)
      decreases n, 0
    {
      r := Evaluate(n.expression);
    }

    /** `VisitBasicLit`. */
    method VisitBasicLit(n: Expr) returns (r: Evaluated)
      requires n.BasicLit?
      ensures r == Eval(inputName, n)
    {
      r := Val(LitValue(n.value));
    }

    /** `VisitUnExpr`. */
    method VisitUnExpr(n: Expr) returns (r: Evaluated)
      requires n.UnExpr?
      modifies this
      ensures r == Eval(inputName, n)
      ensures errors == old(errors) + Recorded(r)
      decreases n, 0
    {
      r := Evaluate(n.operand);
      if !r.Val? {
        return;
      }
      var operandVal := r.v;
      if n.op.typ == MINUS || n.op.typ == PLUS {
        var fs, hasErr := CheckFloatOperands(n.op, [operandVal]);
        if hasErr {
          return Raised(errors[|errors| - 1]);
        }
        r := Val(RNum(if n.op.typ == MINUS then -fs[0] else fs[0]));
      } else if n.op.typ == LOGICALNOT {
        r := Val(RBool(!IsTruthy(operandVal)));
      } else {
        r := Val(RNil);
      }
    }

    /** `VisitBinExpr`. */
    method VisitBinExpr(n: Expr) returns (r: Evaluated)
      requires n.BinExpr?
      modifies this
      ensures r == Eval(inputName, n)
      ensures errors == old(errors) + Recorded(r)
      decreases n, 0
    {
      var left := Evaluate(n.left);
      if !left.Val? {
        return left;
      }
      var right := Evaluate(n.right);
      if !right.Val? {
        return right;
      }
      var typ := n.op.typ;
      if typ == PLUS {
        if left.v.RNum? && right.v.RNum? {
          return Val(RNum(left.v.n + right.v.n));
        }
        if left.v.RStr? && right.v.RStr? {
          return Val(RStr(left.v.s + right.v.s));
        }
        Errorf(n.op.pos, "operands must be two numbers or two strings");
        return Raised(errors[|errors| - 1]);
      } else if typ in NumericOps {
        var fs, hasErr := CheckFloatOperands(n.op, [left.v, right.v]);
        if hasErr {
          return Raised(errors[|errors| - 1]);
        }
        r := Numeric(typ, fs[0], fs[1]);
      } else if typ == EQ {
        r := Val(RBool(IsEqual(left.v, right.v)));
      } else if typ == NEQ {
        r := Val(RBool(!IsEqual(left.v, right.v)));
      } else {
        r := Val(RNil);
      }
    }
  }
}
