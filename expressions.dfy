// The values the `ast`-based evaluators of src/smartconfig/converters.py and
// src/smartconfig/parsers.py work with. Parsing text into a syntax tree is
// library code (`ast.parse`) and is a parameter; the arithmetic tree walk is
// one too. The boolean tree walk of `logic` is modelled: constants, `not`,
// and `and`/`or` evaluated through `operator.and_`/`operator.or_`.
module Expressions {
  import opened Exceptions
  import opened Config

  /** The outcome of evaluating an expression: a Python value, or the exception raised. */
  datatype Evaluation = Evaluated(value: Value) | Raised(error: Error)

  /** The numeric target of `arithmetic(type_)`. */
  datatype NumType = IntType | FloatType

  /** `type_.__name__`. */
  function NumName(t: NumType): string
  {
    if t == IntType then "int" else "float"
  }

  /** `isinstance(v, type_)`: a bool is an int. */
  predicate IsInstance(v: Value, t: NumType)
  {
    if t == IntType then IsPyInt(v) else v.Float?
  }

  /** `int(x)` of a float: truncation toward zero. */
  function Truncate(x: real): (n: int)
    ensures x >= 0.0 ==> n as real <= x < n as real + 1.0
    ensures x < 0.0 ==> n as real - 1.0 < x <= n as real
  {
    if x >= 0.0 then x.Floor else -((-x).Floor)
  }

  /** `type_(number)` for an int, bool or float. */
  function Cast(t: NumType, v: Value): (r: Value)
    requires IsPyInt(v) || v.Float?
    ensures IsInstance(r, t) && !r.Bool?
    ensures IsPyInt(v) && t == IntType ==> r == Int(PyInt(v))
    ensures IsPyInt(v) && t == FloatType ==> r == Float(PyInt(v) as real)
    ensures v.Float? && t == FloatType ==> r == v
  {
    match t
    case IntType => Int(if v.Float? then Truncate(v.f) else PyInt(v))
    case FloatType => Float(if v.Float? then v.f else PyInt(v) as real)
  }

  // ------------------------------------------------------------ bitwise integers

  function Abs(x: int): nat
  {
    if x < 0 then -x else x
  }

  /** Python's `a & b` on ints: two's complement of unbounded width. */
  function BitAnd(a: int, b: int): (r: int)
    ensures a >= 0 ==> 0 <= r <= a
    ensures b >= 0 ==> 0 <= r <= b
    decreases Abs(a) + Abs(b)
  {
    if a == 0 || b == 0 then 0
    else if a == -1 then b
    else if b == -1 then a
    else 2 * BitAnd(a / 2, b / 2) + (a % 2) * (b % 2)
  }

  /** Python's `a | b` on ints: `a | b == a + b - (a & b)` in two's complement. */
  function BitOr(a: int, b: int): int
  {
    a + b - BitAnd(a, b)
  }

  // ------------------------------------------------------------- boolean trees

  /**
   * The syntax trees `logic` walks: a constant, `not`, `and`/`or` over their
   * operands, any other unary or binary operator, and a node with no operator
   * (a name, a comparison, a call, ...).
   */
  datatype BoolNode =
    | Constant(value: Value)
    | Not(operand: BoolNode)
    | BoolOp(isOr: bool, operands: seq<BoolNode>)
    | OtherOperator
    | NoOperator

  /** `ast.parse(s, mode="eval").body` for `logic`: None for a SyntaxError. */
  type BoolParser = string -> Option<BoolNode>

  /** `operator.or_`/`operator.and_` on two values: bools stay bools, ints (and bools) combine bitwise. */
  function Bitwise(isOr: bool, a: Value, b: Value): (r: Result<Value>)
    ensures r.Ok? <==> IsPyInt(a) && IsPyInt(b)
    ensures a.Bool? && b.Bool? ==> r == Ok(Bool(if isOr then a.b || b.b else a.b && b.b))
  {
    if a.Bool? && b.Bool? then Ok(Bool(if isOr then a.b || b.b else a.b && b.b))
    else if IsPyInt(a) && IsPyInt(b) then
      Ok(Int(if isOr then BitOr(PyInt(a), PyInt(b)) else BitAnd(PyInt(a), PyInt(b))))
    else Err(TypeError("unsupported operand " + "type(s)"))
  }

  /** The first error among the outcomes, or all their values. */
  function AllValues(rs: seq<Result<Value>>): (r: Result<seq<Value>>)
    ensures r.Ok? ==> |r.value| == |rs| && forall i :: 0 <= i < |rs| ==> rs[i] == Ok(r.value[i])
    ensures r.Err? ==> exists i :: 0 <= i < |rs| && rs[i] == Err(r.error)
  {
    if rs == [] then Ok([])
    else match rs[0]
      case Err(e) => Err(e)
      case Ok(v) =>
        match AllValues(rs[1..])
        case Err(e) => Err(e)
        case Ok(vs) => Ok([v] + vs)
  }

  /** When every outcome is a value, `AllValues` gives exactly those values. */
  lemma {:induction false} AllOk(rs: seq<Result<Value>>, vs: seq<Value>)
    requires |rs| == |vs| && forall i :: 0 <= i < |rs| ==> rs[i] == Ok(vs[i])
    ensures AllValues(rs) == Ok(vs)
  {
    if rs != [] {
      AllOk(rs[1..], vs[1..]);
      assert [vs[0]] + vs[1..] == vs;
    }
  }

  /**
   * `_eval` as written: every operand of `and`/`or` is evaluated, then all of
   * them are passed to `operator.and_`/`operator.or_`, which take exactly two.
   */
  function EvalAsWritten(n: BoolNode): Result<Value>
    decreases n
  {
    match n
    case Constant(v) => Ok(v)
    case OtherOperator => Err(TypeError("unsupported operator"))
    case NoOperator => Err(AttributeError("node has no " + "attribute 'op'"))
    case Not(e) =>
      (match EvalAsWritten(e)
       case Err(err) => Err(err)
       case Ok(v) => Ok(Bool(!Truthy(v))))
    case BoolOp(isOr, operands) =>
      var rs := seq(|operands|, i requires 0 <= i < |operands| => EvalAsWritten(operands[i]));
      match AllValues(rs)
      case Err(err) => Err(err)
      case Ok(vs) =>
        if |vs| != 2 then Err(TypeError("expected 2 arguments"))
        else Bitwise(isOr, vs[0], vs[1])
  }

  /**
   * Python's own `and`/`or`: operands are evaluated left to right until the
   * result is known, and the operand that decides it is the value.
   */
  function EvalLogic(n: BoolNode): Result<Value>
    decreases n
  {
    match n
    case Constant(v) => Ok(v)
    case OtherOperator => Err(TypeError("unsupported operator"))
    case NoOperator => Err(AttributeError("node has no " + "attribute 'op'"))
    case Not(e) =>
      (match EvalLogic(e)
       case Err(err) => Err(err)
       case Ok(v) => Ok(Bool(!Truthy(v))))
    case BoolOp(isOr, operands) =>
      if operands == [] then Err(TypeError("expected at least 2 " + "operands"))
      else ShortCircuit(n, isOr, 0)
  }

  /** Operands i.. of an `and`/`or` node, after those before i did not decide it. */
  function ShortCircuit(n: BoolNode, isOr: bool, i: nat): Result<Value>
    requires n.BoolOp? && i < |n.operands|
    decreases n, |n.operands| - i
  {
    var operand := n.operands[i];
    assert operand in n.operands;
    match EvalLogic(operand)
    case Err(err) => Err(err)
    case Ok(v) =>
      if i == |n.operands| - 1 || Truthy(v) == isOr then Ok(v)
      else ShortCircuit(n, isOr, i + 1)
  }

  /** The truth of `or` is whether some operand is true, and of `and` whether all are. */
  lemma {:induction false} ShortCircuitTruth(n: BoolNode, isOr: bool, i: nat)
    requires n.BoolOp? && i < |n.operands|
    requires forall j :: i <= j < |n.operands| ==> EvalLogic(n.operands[j]).Ok?
    ensures ShortCircuit(n, isOr, i).Ok?
    ensures Truthy(ShortCircuit(n, isOr, i).value) <==>
      if isOr then exists j :: i <= j < |n.operands| && Truthy(EvalLogic(n.operands[j]).value)
      else forall j :: i <= j < |n.operands| ==> Truthy(EvalLogic(n.operands[j]).value)
    decreases |n.operands| - i
  {
    if i < |n.operands| - 1 {
      ShortCircuitTruth(n, isOr, i + 1);
    }
  }

  /** Trees built from bool constants, `not`, and `and`/`or` of exactly two operands. */
  predicate BinaryBools(n: BoolNode)
    decreases n
  {
    match n
    case Constant(v) => v.Bool?
    case Not(e) => BinaryBools(e)
    case BoolOp(_, operands) =>
      |operands| == 2 && BinaryBools(operands[0]) && BinaryBools(operands[1])
    case OtherOperator => false
    case NoOperator => false
  }

  /**
   * On trees of bool constants with two operands per `and`/`or`, the source's
   * bitwise evaluation gives exactly Python's value.
   */
  lemma {:induction false} AgreeOnBinaryBools(n: BoolNode)
    requires BinaryBools(n)
    ensures EvalAsWritten(n) == EvalLogic(n)
    ensures EvalLogic(n).Ok? && EvalLogic(n).value.Bool?
    decreases n
  {
    match n
    case Constant(v) =>
    case Not(e) =>
      AgreeOnBinaryBools(e);
    case BoolOp(isOr, operands) =>
      AgreeOnBinaryBools(operands[0]);
      AgreeOnBinaryBools(operands[1]);
      var a := EvalLogic(operands[0]).value;
      var b := EvalLogic(operands[1]).value;
      var rs := seq(|operands|, i requires 0 <= i < |operands| => EvalAsWritten(operands[i]));
      AllOk(rs, [a, b]);
      assert EvalAsWritten(n) == Ok(Bool(if isOr then a.b || b.b else a.b && b.b));
      assert operands[0] in operands && operands[1] in operands;
      if Truthy(a) != isOr {
        assert ShortCircuit(n, isOr, 1) == Ok(b);
      }
  }

  /** "True or False or True": three operands make `operator.or_` fail, where Python gives True. */
  lemma ThreeOperandsFail()
    ensures var n := BoolOp(true, [Constant(Bool(true)), Constant(Bool(false)), Constant(Bool(true))]);
      EvalAsWritten(n).Err? && EvalLogic(n) == Ok(Bool(true))
  {
    var n := BoolOp(true, [Constant(Bool(true)), Constant(Bool(false)), Constant(Bool(true))]);
    var rs := seq(3, i requires 0 <= i < 3 => EvalAsWritten(n.operands[i]));
    assert rs == [Ok(Bool(true)), Ok(Bool(false)), Ok(Bool(true))];
    AllOk(rs, [Bool(true), Bool(false), Bool(true)]);
  }

  /** "1 and 2": the bitwise `1 & 2` is 0, false, where Python's `and` gives 2, true. */
  lemma BitwiseAndOfInts()
    ensures var n := BoolOp(false, [Constant(Int(1)), Constant(Int(2))]);
      EvalAsWritten(n) == Ok(Int(0)) && EvalLogic(n) == Ok(Int(2))
  {
    var n := BoolOp(false, [Constant(Int(1)), Constant(Int(2))]);
    var rs := seq(2, i requires 0 <= i < 2 => EvalAsWritten(n.operands[i]));
    assert rs == [Ok(Int(1)), Ok(Int(2))];
    AllOk(rs, [Int(1), Int(2)]);
    assert BitAnd(1, 2) == 2 * BitAnd(0, 1) + 1 * 0;
  }
}
