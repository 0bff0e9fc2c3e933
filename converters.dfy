// The built-in converters of src/smartconfig/converters.py that are not about
// dates: `arithmetic(int)`, `arithmetic(float)` and `logic`. The date
// converters `smartdate` and `smartdatetime` are `SmartDates.SmartDate` and
// `SmartDates.SmartDateTime` with the `Converters` flavour.
module Converters {
  import opened Exceptions
  import opened Config
  import opened Expressions

  /** The message of every failure to read a number out of `value`. */
  function CannotParse(t: NumType, value: Value): string
  {
    "Cannot parse into " + NumName(t) + ": '" + Show(value) + "'."
  }

  /**
   * `arithmetic(type_)(value)`. `evaluate` is `_eval(ast.parse(s).body)` on a
   * string: the number or other constant the expression evaluates to, or the
   * exception raised on the way (a syntax error, an unknown operator, a
   * division by zero, ...).
   */
  function Arithmetic(t: NumType, evaluate: string -> Evaluation, value: Value): (r: Result<Value>)
    ensures r.Ok? ==> IsInstance(r.value, t)
    ensures IsInstance(value, t) ==> r == Ok(value)
    ensures t == FloatType && IsPyInt(value) ==> r == Ok(Float(PyInt(value) as real))
    ensures t == IntType && value.Float? ==>
      r == Err(Conversion("Cannot implicitly " + "convert float " + Show(value) + " into integer."))
    ensures !value.Str? && !IsPyInt(value) && !value.Float? ==> r == Err(Conversion(CannotParse(t, value)))
    ensures r.Err? ==> r.error.Conversion? || r.error == AssertionFailed
  {
    if IsInstance(value, t) then Ok(value)
    else if t == FloatType && IsPyInt(value) then Ok(Float(PyInt(value) as real))
    else if t == IntType && value.Float? then
      Err(Conversion("Cannot implicitly " + "convert float " + Show(value) + " into integer."))
    else if !value.Str? then
      // `ast.parse` of anything but a string raises, and the converter catches it
      Err(Conversion(CannotParse(t, value)))
    else
      match evaluate(value.s)
      case Raised(_) => Err(Conversion(CannotParse(t, value)))
      case Evaluated(number) =>
        if IsPyInt(number) || number.Float? then Ok(Cast(t, number))
        else Err(AssertionFailed)
  }

  /** A converted number converts to itself: the converter is idempotent. */
  lemma ArithmeticIdempotent(t: NumType, evaluate: string -> Evaluation, value: Value)
    requires Arithmetic(t, evaluate, value).Ok?
    ensures Arithmetic(t, evaluate, Arithmetic(t, evaluate, value).value) == Arithmetic(t, evaluate, value)
  {
  }

  /**
   * A string converts to `type_` of the number it evaluates to: for
   * `arithmetic(int)` a float result is truncated toward zero.
   */
  lemma ArithmeticOfString(t: NumType, evaluate: string -> Evaluation, s: string, x: real)
    requires evaluate(s) == Evaluated(Float(x))
    ensures t == FloatType ==> Arithmetic(t, evaluate, Text(s)) == Ok(Float(x))
    ensures t == IntType ==> Arithmetic(t, evaluate, Text(s)).Ok?
    ensures t == IntType ==> var n := Arithmetic(t, evaluate, Text(s)).value.i;
      if x >= 0.0 then n as real <= x < n as real + 1.0 else n as real - 1.0 < x <= n as real
  {
  }

  /** The message of every failure of `logic` on a string. */
  function CannotParseBool(s: string): string
  {
    "Cannot parse into " + "bool: '" + s + "'."
  }

  /**
   * `logic(value)`, with `and`/`or` given Python's meaning. `parse` is
   * `ast.parse(s, mode="eval").body`, None when it raises; every exception
   * of the evaluation becomes the same ConversionError.
   */
  function Logic(parse: BoolParser, value: Value): (r: Result<Value>)
    ensures r.Ok? ==> r.value.Bool?
    ensures r.Err? ==> r.error.Conversion?
    ensures value.Bool? <==> r == Ok(value)
    ensures !value.Bool? && !value.Str? ==>
      r == Err(Conversion("Cannot convert type " + ClassRepr(value) + " to bool."))
    ensures value.Str? && r.Ok? ==>
      parse(value.s).Some? && EvalLogic(parse(value.s).value).Ok?
      && r.value.b == Truthy(EvalLogic(parse(value.s).value).value)
  {
    if value.Bool? then Ok(value)
    else if !value.Str? then Err(Conversion("Cannot convert type " + ClassRepr(value) + " to bool."))
    else
      match parse(value.s)
      case None => Err(Conversion(CannotParseBool(value.s)))
      case Some(tree) =>
        match EvalLogic(tree)
        case Err(_) => Err(Conversion(CannotParseBool(value.s)))
        case Ok(v) => Ok(Bool(Truthy(v)))
  }

  /** `logic` as written: `and`/`or` through the two-argument bitwise operators. */
  function LogicAsWritten(parse: BoolParser, value: Value): (r: Result<Value>)
    ensures r.Ok? ==> r.value.Bool?
    ensures r.Err? ==> r.error.Conversion?
    ensures !value.Str? ==> r == Logic(parse, value)
  {
    if value.Bool? then Ok(value)
    else if !value.Str? then Err(Conversion("Cannot convert type " + ClassRepr(value) + " to bool."))
    else
      match parse(value.s)
      case None => Err(Conversion(CannotParseBool(value.s)))
      case Some(tree) =>
        match EvalAsWritten(tree)
        case Err(_) => Err(Conversion(CannotParseBool(value.s)))
        case Ok(v) => Ok(Bool(Truthy(v)))
  }

  /** Both readings agree on expressions of bool literals with two operands per `and`/`or`. */
  lemma LogicAgreement(parse: BoolParser, s: string)
    requires parse(s).Some? && BinaryBools(parse(s).value)
    ensures LogicAsWritten(parse, Text(s)) == Logic(parse, Text(s))
    ensures Logic(parse, Text(s)).Ok?
  {
    AgreeOnBinaryBools(parse(s).value);
  }

  /** "True or False or True" is rejected as written, and is True as intended. */
  lemma LogicOfThreeOperands(parse: BoolParser)
    requires parse("True or False or True") ==
      Some(BoolOp(true, [Constant(Bool(true)), Constant(Bool(false)), Constant(Bool(true))]))
    ensures LogicAsWritten(parse, Text("True or False or True")) ==
      Err(Conversion(CannotParseBool("True or False or True")))
    ensures Logic(parse, Text("True or False or True")) == Ok(Bool(true))
  {
    ThreeOperandsFail();
  }

  /** "1 and 2" is False as written, and True as intended. */
  lemma LogicOfOneAndTwo(parse: BoolParser)
    requires parse("1 and 2") == Some(BoolOp(false, [Constant(Int(1)), Constant(Int(2))]))
    ensures LogicAsWritten(parse, Text("1 and 2")) == Ok(Bool(false))
    ensures Logic(parse, Text("1 and 2")) == Ok(Bool(true))
  {
    BitwiseAndOfInts();
  }
}
