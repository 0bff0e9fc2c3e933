// The older parsers of src/smartconfig/parsers.py that are not about dates:
// `arithmetic(int)`, `arithmetic(float)` and `logic`. Unlike the converters
// they promote nothing, catch only some exceptions and let the others
// through. The date parsers are `SmartDates.SmartDate` and
// `SmartDates.SmartDateTime` with the `Parsers` flavour.
module Parsers {
  import opened Exceptions
  import opened Config
  import opened Expressions
  import Converters

  /**
   * `raise exceptions.ParseError(message)` as written: the exceptions module
   * defines no ParseError, so looking the name up raises AttributeError and
   * the message is never built into an exception.
   */
  function RaiseParseErrorAsWritten(message: string): Error
  {
    AttributeError("module " + "'smartconfig.exceptions' " + "has no attribute " + "'ParseError'")
  }

  /** The intended `raise exceptions.ParseError(message)`. */
  function RaiseParseError(message: string): (e: Error)
    ensures e.Parse? && e.message == message
  {
    Parse(message)
  }

  /** As written every ParseError is the same AttributeError, whatever its message. */
  lemma ParseErrorIsMissing(m1: string, m2: string)
    ensures RaiseParseErrorAsWritten(m1) == RaiseParseErrorAsWritten(m2)
    ensures RaiseParseErrorAsWritten(m1).AttributeError?
    ensures m1 != m2 ==> RaiseParseError(m1) != RaiseParseError(m2)
  {
  }

  /** The message of a failure to read a number out of `s`. */
  function CannotParse(t: NumType, s: Value): string
  {
    "Cannot parse into " + NumName(t) + ": '" + Show(s) + "'."
  }

  /**
   * Python's reading of a numeral string: what `int(x)` and `float(x)` give,
   * None where they raise ValueError.
   */
  datatype Numerals = Numerals(intOf: string -> Option<int>, floatOf: string -> Option<real>)

  /**
   * `type_(number)` on the constant an arithmetic expression evaluated to:
   * a number is cast, a string is read as a numeral, anything else (None)
   * is a TypeError.
   */
  function CastConstant(t: NumType, numerals: Numerals, v: Value): (r: Result<Value>)
    ensures r.Ok? ==> IsInstance(r.value, t) && !r.value.Bool?
    ensures (IsPyInt(v) || v.Float?) ==> r == Ok(Cast(t, v))
    ensures v.Str? && t == IntType ==> (r.Ok? <==> numerals.intOf(v.s).Some?)
    ensures v.Str? && t == FloatType ==> (r.Ok? <==> numerals.floatOf(v.s).Some?)
    ensures v.Str? && r.Err? ==> r.error.ValueError?
    ensures !v.Str? && !IsPyInt(v) && !v.Float? ==> r.Err? && r.error.TypeError?
  {
    if IsPyInt(v) || v.Float? then Ok(Cast(t, v))
    else if v.Str? then
      if t == IntType then
        match numerals.intOf(v.s)
        case None => Err(ValueError("invalid literal for int() with base 10: '" + v.s + "'"))
        case Some(n) => Ok(Int(n))
      else
        match numerals.floatOf(v.s)
        case None => Err(ValueError("could not convert string to float: '" + v.s + "'"))
        case Some(x) => Ok(Float(x))
    else if t == IntType then
      Err(TypeError("int() argument must be a string, a bytes-like object or a real number, not '" + TypeName(v) + "'"))
    else
      Err(TypeError("float() argument must be a string or a real number, not '" + TypeName(v) + "'"))
  }

  /**
   * `arithmetic(type_)(s)`, with ParseError defined. `evaluate` is
   * `_eval(ast.parse(s).body)` on a string; only a TypeError becomes a
   * ParseError, other exceptions propagate, and so does what the final
   * `type_(number)` raises.
   */
  function Arithmetic(t: NumType, evaluate: string -> Evaluation, numerals: Numerals, s: Value): (r: Result<Value>)
    ensures r.Ok? ==> IsInstance(r.value, t)
    ensures IsInstance(s, t) <==> r == Ok(s)
    ensures !s.Str? && !IsInstance(s, t) ==> r == Err(RaiseParseError(CannotParse(t, s)))
    ensures s.Str? && evaluate(s.s).Raised? && !evaluate(s.s).error.TypeError? ==> r == Err(evaluate(s.s).error)
    ensures s.Str? && evaluate(s.s).Raised? && evaluate(s.s).error.TypeError? ==> r == Err(RaiseParseError(CannotParse(t, s)))
    ensures s.Str? && evaluate(s.s).Evaluated? ==> r == CastConstant(t, numerals, evaluate(s.s).value)
  {
    if IsInstance(s, t) then Ok(s)
    else if !s.Str? then
      // `ast.parse` of anything but a string raises TypeError
      Err(RaiseParseError(CannotParse(t, s)))
    else
      match evaluate(s.s)
      case Raised(e) =>
        if e.TypeError? then Err(RaiseParseError(CannotParse(t, s))) else Err(e)
      case Evaluated(number) => CastConstant(t, numerals, number)
  }

  /** "None" evaluates to None, and `type_(None)` raises a TypeError that is not turned into a ParseError. */
  lemma ArithmeticOfNone(t: NumType, evaluate: string -> Evaluation, numerals: Numerals)
    requires evaluate("None") == Evaluated(Null)
    ensures Arithmetic(t, evaluate, numerals, Text("None")).Err?
    ensures Arithmetic(t, evaluate, numerals, Text("None")).error.TypeError?
  {
  }

  /** No promotion: `arithmetic(float)` rejects an int where the converter turns it into a float. */
  lemma ArithmeticNoPromotion(evaluate: string -> Evaluation, numerals: Numerals, n: int)
    ensures Arithmetic(FloatType, evaluate, numerals, Int(n)) ==
      Err(RaiseParseError("Cannot parse into float: '" + Show(Int(n)) + "'."))
  {
  }

  /**
   * `logic(s)`, with `and`/`or` given Python's meaning. `parse` is
   * `ast.parse(s, mode="eval").body`, None for a SyntaxError. Nothing is
   * caught: the evaluation's exceptions reach the caller.
   */
  function Logic(parse: BoolParser, s: Value): (r: Result<Value>)
    ensures r.Ok? ==> r.value.Bool?
    ensures s.Bool? <==> r == Ok(s)
    ensures !s.Bool? && !s.Str? ==> r.Err? && r.error.TypeError?
    ensures s.Str? && parse(s.s).None? ==> r.Err? && r.error.SyntaxError?
    ensures s.Str? && parse(s.s).Some? ==>
      r == (match EvalLogic(parse(s.s).value)
            case Err(e) => Err(e)
            case Ok(v) => Ok(Bool(Truthy(v))))
  {
    if s.Bool? then Ok(s)
    else if !s.Str? then Err(TypeError("ast.parse() argument must be a string"))
    else
      match parse(s.s)
      case None => Err(SyntaxError("invalid syntax"))
      case Some(tree) =>
        match EvalLogic(tree)
        case Err(e) => Err(e)
        case Ok(v) => Ok(Bool(Truthy(v)))
  }

  /** `logic(s)` as written: `and`/`or` through the two-argument bitwise operators. */
  function LogicAsWritten(parse: BoolParser, s: Value): (r: Result<Value>)
    ensures r.Ok? ==> r.value.Bool?
    ensures !s.Str? ==> r == Logic(parse, s)
    ensures s.Str? && parse(s.s).Some? ==>
      r == (match EvalAsWritten(parse(s.s).value)
            case Err(e) => Err(e)
            case Ok(v) => Ok(Bool(Truthy(v))))
  {
    if s.Bool? then Ok(s)
    else if !s.Str? then Err(TypeError("ast.parse() argument must be a string"))
    else
      match parse(s.s)
      case None => Err(SyntaxError("invalid syntax"))
      case Some(tree) =>
        match EvalAsWritten(tree)
        case Err(e) => Err(e)
        case Ok(v) => Ok(Bool(Truthy(v)))
  }

  /** "True or False or True" fails as written, with the TypeError of a two-argument operator, and is True as intended. */
  lemma LogicOfThreeOperands(parse: BoolParser)
    requires parse("True or False or True") ==
      Some(BoolOp(true, [Constant(Bool(true)), Constant(Bool(false)), Constant(Bool(true))]))
    ensures LogicAsWritten(parse, Text("True or False or True")).Err?
    ensures Logic(parse, Text("True or False or True")) == Ok(Bool(true))
  {
    ThreeOperandsFail();
  }

  /**
   * The parser and the converter agree on every value either accepts, both
   * as written and as intended: they differ only in the exceptions they
   * raise.
   */
  lemma LogicAgreesWithConverter(parse: BoolParser, s: Value)
    ensures LogicAsWritten(parse, s).Ok? <==> Converters.LogicAsWritten(parse, s).Ok?
    ensures LogicAsWritten(parse, s).Ok? ==> LogicAsWritten(parse, s) == Converters.LogicAsWritten(parse, s)
    ensures Logic(parse, s).Ok? <==> Converters.Logic(parse, s).Ok?
    ensures Logic(parse, s).Ok? ==> Logic(parse, s) == Converters.Logic(parse, s)
  {
  }
}
