// The list built-ins of src/smartconfig/stdlib/list.py: concatenate, zip,
// range, loop and filter.
module ListFunctions {
  import opened Exceptions
  import opened Config
  import opened Calls

  /** The inner lists of a list of lists. */
  function Inner(v: Value): (lists: seq<seq<Value>>)
    requires ListOfLists(v)
    ensures |lists| == |v.items|
    ensures forall j :: 0 <= j < |lists| ==> lists[j] == v.items[j].items
  {
    seq(|v.items|, j requires 0 <= j < |v.items| => v.items[j].items)
  }

  // ---------------------------------------------------------------- concatenate

  function TotalLength(lists: seq<seq<Value>>): nat
  {
    if lists == [] then 0 else |lists[0]| + TotalLength(lists[1..])
  }

  /** `list(itertools.chain(*lists))`. */
  function Flatten(lists: seq<seq<Value>>): (r: seq<Value>)
    ensures |r| == TotalLength(lists)
  {
    if lists == [] then [] else lists[0] + Flatten(lists[1..])
  }

  /**
   * Element i of list j sits in the chain right after the elements of the
   * lists before it: the chain keeps every element, in order.
   */
  lemma {:induction false} FlattenIndex(lists: seq<seq<Value>>, j: nat, i: nat)
    requires j < |lists| && i < |lists[j]|
    ensures TotalLength(lists[..j]) + i < |Flatten(lists)|
    ensures Flatten(lists)[TotalLength(lists[..j]) + i] == lists[j][i]
  {
    if j == 0 {
      assert lists[..0] == [];
    } else {
      FlattenIndex(lists[1..], j - 1, i);
      assert lists[..j][1..] == lists[1..][..j - 1];
      assert lists[..j] != [];
    }
  }

  /** `concatenate`: rejects anything but a non-empty list of lists. */
  function Concatenate(args: Args): (r: Result<Value>)
    ensures !ListOfLists(args.input) ==>
      r == Err(Resolution("Input to " + "'concatenate' must " + "be a list of lists.", args.keypath))
    ensures ListOfLists(args.input) && args.input.items == [] ==>
      r == Err(Resolution("Input to " + "'concatenate' must " + "be a non-empty list " + "of lists.", args.keypath))
    ensures ListOfLists(args.input) && args.input.items != [] ==>
      r.Ok? && r.value.List? && |r.value.items| == TotalLength(Inner(args.input))
  {
    if !ListOfLists(args.input) then
      Err(Resolution("Input to " + "'concatenate' must " + "be a list of lists.", args.keypath))
    else if |args.input.items| == 0 then
      Err(Resolution("Input to " + "'concatenate' must " + "be a non-empty list " + "of lists.", args.keypath))
    else
      Ok(List(Flatten(Inner(args.input))))
  }

  /** The result of `concatenate` holds element i of input list j at its chained position. */
  lemma ConcatenateElements(args: Args, j: nat, i: nat)
    requires ListOfLists(args.input) && j < |args.input.items| && i < |args.input.items[j].items|
    ensures Concatenate(args).Ok?
    ensures TotalLength(Inner(args.input)[..j]) + i < |Concatenate(args).value.items|
    ensures Concatenate(args).value.items[TotalLength(Inner(args.input)[..j]) + i]
            == args.input.items[j].items[i]
  {
    FlattenIndex(Inner(args.input), j, i);
  }

  // ------------------------------------------------------------------------ zip

  /** The length of the shortest list. */
  function MinLength(lists: seq<seq<Value>>): (m: nat)
    requires |lists| > 0
    ensures forall j :: 0 <= j < |lists| ==> m <= |lists[j]|
    ensures exists j :: 0 <= j < |lists| && m == |lists[j]|
  {
    if |lists| == 1 then |lists[0]|
    else
      var m := MinLength(lists[1..]);
      if |lists[0]| <= m then |lists[0]|
      else
        assert exists j :: 1 <= j < |lists| && m == |lists[j]| by {
          var j :| 0 <= j < |lists| - 1 && m == |lists[1..][j]|;
          assert m == |lists[j + 1]|;
        }
        m
  }

  function Tails(lists: seq<seq<Value>>): (t: seq<seq<Value>>)
    requires forall j :: 0 <= j < |lists| ==> lists[j] != []
    ensures |t| == |lists|
    ensures forall j :: 0 <= j < |lists| ==> t[j] == lists[j][1..]
  {
    seq(|lists|, j requires 0 <= j < |lists| => lists[j][1..])
  }

  lemma MinLengthTails(lists: seq<seq<Value>>)
    requires |lists| > 0 && MinLength(lists) > 0
    ensures MinLength(Tails(lists)) == MinLength(lists) - 1
  {
    var t := Tails(lists);
    var j :| 0 <= j < |lists| && MinLength(lists) == |lists[j]|;
    assert |t[j]| == MinLength(lists) - 1;
    var k :| 0 <= k < |t| && MinLength(t) == |t[k]|;
    assert MinLength(lists) <= |lists[k]|;
  }

  /**
   * `zip(*lists)`: rows of heads, taken while no list is exhausted. Row i holds
   * element i of every list, and there are as many rows as the shortest list
   * is long.
   */
  function ZipRows(lists: seq<seq<Value>>): (rows: seq<seq<Value>>)
    requires |lists| > 0
    ensures |rows| == MinLength(lists)
    ensures forall i :: 0 <= i < |rows| ==> |rows[i]| == |lists|
    ensures forall i, j :: 0 <= i < |rows| && 0 <= j < |lists| ==> rows[i][j] == lists[j][i]
    decreases MinLength(lists)
  {
    if MinLength(lists) == 0 then []
    else
      var heads := seq(|lists|, j requires 0 <= j < |lists| => lists[j][0]);
      MinLengthTails(lists);
      var rest := ZipRows(Tails(lists));
      ZipCons(lists, heads, rest);
      [heads] + rest
  }

  /** One row of heads in front of the rows of the tails. */
  lemma ZipCons(lists: seq<seq<Value>>, heads: seq<Value>, rest: seq<seq<Value>>)
    requires forall j :: 0 <= j < |lists| ==> |rest| < |lists[j]|
    requires |heads| == |lists| && forall j :: 0 <= j < |lists| ==> heads[j] == lists[j][0]
    requires forall i :: 0 <= i < |rest| ==> |rest[i]| == |lists|
    requires forall i, j :: 0 <= i < |rest| && 0 <= j < |lists| ==> rest[i][j] == Tails(lists)[j][i]
    ensures var rows := [heads] + rest;
      && (forall i :: 0 <= i < |rows| ==> |rows[i]| == |lists|)
      && (forall i, j :: 0 <= i < |rows| && 0 <= j < |lists| ==> rows[i][j] == lists[j][i])
  {
    var rows := [heads] + rest;
    forall i | 0 <= i < |rows|
      ensures |rows[i]| == |lists| && forall j :: 0 <= j < |lists| ==> rows[i][j] == lists[j][i]
    {
      if i > 0 {
        RowOfTails(lists, rest[i - 1], i - 1);
      }
    }
  }

  lemma RowOfTails(lists: seq<seq<Value>>, row: seq<Value>, i: nat)
    requires forall j :: 0 <= j < |lists| ==> i + 1 < |lists[j]|
    requires |row| == |lists| && forall j :: 0 <= j < |lists| ==> row[j] == Tails(lists)[j][i]
    ensures forall j :: 0 <= j < |lists| ==> row[j] == lists[j][i + 1]
  {
  }

  /** `zip`: the same input checks as `concatenate`, then one list per row. */
  function Zip(args: Args): (r: Result<Value>)
    ensures !ListOfLists(args.input) ==>
      r == Err(Resolution("Input to 'zip' must " + "be a list of lists.", args.keypath))
    ensures ListOfLists(args.input) && args.input.items == [] ==>
      r == Err(Resolution("Input to 'zip' must " + "be a non-empty list " + "of lists.", args.keypath))
    ensures ListOfLists(args.input) && args.input.items != [] ==>
      && r.Ok? && r.value.List?
      && |r.value.items| == MinLength(Inner(args.input))
      && forall i :: 0 <= i < |r.value.items| ==>
           && r.value.items[i].List?
           && |r.value.items[i].items| == |args.input.items|
           && forall j :: 0 <= j < |args.input.items| ==>
                r.value.items[i].items[j] == args.input.items[j].items[i]
  {
    if !ListOfLists(args.input) then
      Err(Resolution("Input to 'zip' must " + "be a list of lists.", args.keypath))
    else if |args.input.items| == 0 then
      Err(Resolution("Input to 'zip' must " + "be a non-empty list " + "of lists.", args.keypath))
    else
      var rows := ZipRows(Inner(args.input));
      Ok(List(seq(|rows|, i requires 0 <= i < |rows| => List(rows[i]))))
  }

  // ---------------------------------------------------------------------- range

  /** `list(range(start, stop, step))` for a non-zero step. */
  function PyRange(start: int, stop: int, step: int): seq<int>
    requires step != 0
    decreases if step > 0 then stop - start else start - stop
  {
    if (step > 0 && start < stop) || (step < 0 && start > stop) then
      [start] + PyRange(start + step, stop, step)
    else []
  }

  /**
   * Element i of the range is start + i * step, every element lies before
   * `stop` in the direction of the step, and the next one would not.
   */
  lemma {:induction false} PyRangeSpec(start: int, stop: int, step: int)
    requires step != 0
    ensures var r := PyRange(start, stop, step);
      && (forall i :: 0 <= i < |r| ==> r[i] == start + i * step)
      && (forall i :: 0 <= i < |r| ==> if step > 0 then r[i] < stop else r[i] > stop)
      && (if step > 0 then start + |r| * step >= stop else start + |r| * step <= stop)
    decreases if step > 0 then stop - start else start - stop
  {
    var r := PyRange(start, stop, step);
    if (step > 0 && start < stop) || (step < 0 && start > stop) {
      PyRangeSpec(start + step, stop, step);
      var rest := PyRange(start + step, stop, step);
      assert r == [start] + rest;
      forall i | 1 <= i < |r| ensures r[i] == start + i * step {
        assert r[i] == rest[i - 1];
        ShiftStep(i - 1, step);
      }
      ShiftStep(|rest|, step);
    }
  }

  lemma ShiftStep(i: int, step: int)
    ensures step + i * step == (i + 1) * step
  {
  }

  /** The three properties of PyRange single out its result. */
  lemma {:induction false} PyRangeUnique(start: int, stop: int, step: int, s: seq<int>)
    requires step != 0
    requires forall i :: 0 <= i < |s| ==> s[i] == start + i * step
    requires forall i :: 0 <= i < |s| ==> if step > 0 then s[i] < stop else s[i] > stop
    requires if step > 0 then start + |s| * step >= stop else start + |s| * step <= stop
    ensures s == PyRange(start, stop, step)
    decreases |s|
  {
    if s == [] {
    } else {
      assert s[0] == start;
      var t := s[1..];
      forall i | 0 <= i < |t| ensures t[i] == start + step + i * step {
        assert t[i] == s[i + 1];
        ShiftStep(i, step);
      }
      ShiftStep(|t|, step);
      PyRangeUnique(start + step, stop, step, t);
      assert s == [start] + t;
    }
  }

  function IntValues(s: seq<int>): (r: seq<Value>)
    ensures |r| == |s| && forall i :: 0 <= i < |s| ==> r[i] == Int(s[i])
  {
    seq(|s|, i requires 0 <= i < |s| => Int(s[i]))
  }

  /** Keys of a dict outside an allowed set, in order. */
  /** An int, or no value at all. */
  predicate IntOrAbsent(v: Option<Value>)
  {
    v.None? || IsPyInt(v.value)
  }

  predicate HasKeyOutside(e: Entries, allowed: set<string>)
  {
    exists i :: 0 <= i < |e| && e[i].0 !in allowed
  }

  /**
   * `range`: a dict with "stop" and no keys besides start/stop/step, whose
   * values are ints (a bool counts as an int); start defaults to 0 and step
   * to 1. A zero step is Python's own ValueError.
   */
  function Range(args: Args): (r: Result<Value>)
    ensures !args.input.Dict? ==>
      r == Err(Resolution("Input to 'range' " + "must be a " + "dictionary.", args.keypath))
    ensures args.input.Dict? && !Has(args.input, "stop") ==>
      r == Err(Resolution("Input to 'range' " + "must be a " + "dictionary with a " + "key 'stop'.", args.keypath))
    ensures Has(args.input, "stop") && HasKeyOutside(args.input.entries, {"start", "stop", "step"}) ==>
      r == Err(Resolution("Input to 'range' " + "must be a " + "dictionary with " + "keys 'start', " + "'stop' and 'step'.", args.keypath))
    ensures Has(args.input, "stop") && !HasKeyOutside(args.input.entries, {"start", "stop", "step"}) ==>
      var start := Lookup(args.input, "start");
      var step := Lookup(args.input, "step");
      var stop := Lookup(args.input, "stop");
      var ints := IntOrAbsent(start) && IntOrAbsent(stop) && IntOrAbsent(step);
      && (!ints ==> r == Err(Resolution("The values of " + "'start', 'stop' and " + "'step' in 'range' " + "must be integers.", args.keypath)))
      && (ints && step.Some? && PyInt(step.value) == 0 ==> r == Err(ValueError("range() arg 3 must " + "not be zero")))
      && (ints && (step.None? || PyInt(step.value) != 0) ==> r.Ok?)
    ensures r.Ok? ==>
      var start := Lookup(args.input, "start");
      var step := Lookup(args.input, "step");
      var stop := Lookup(args.input, "stop");
      && stop.Some? && IsPyInt(stop.value)
      && (start.Some? ==> IsPyInt(start.value))
      && (step.Some? ==> IsPyInt(step.value) && PyInt(step.value) != 0)
      && r.value == List(IntValues(PyRange(
           if start.Some? then PyInt(start.value) else 0,
           PyInt(stop.value),
           if step.Some? then PyInt(step.value) else 1)))
  {
    if !args.input.Dict? then
      Err(Resolution("Input to 'range' " + "must be a " + "dictionary.", args.keypath))
    else if !Has(args.input, "stop") then
      Err(Resolution("Input to 'range' " + "must be a " + "dictionary with a " + "key 'stop'.", args.keypath))
    else
      var start := match Get(args.input.entries, "start") case Some(v) => v case None => Int(0);
      var stop := Get(args.input.entries, "stop").value;
      var step := match Get(args.input.entries, "step") case Some(v) => v case None => Int(1);
      if HasKeyOutside(args.input.entries, {"start", "stop", "step"}) then
        Err(Resolution("Input to 'range' " + "must be a " + "dictionary with " + "keys 'start', " + "'stop' and 'step'.", args.keypath))
      else if !IsPyInt(start) || !IsPyInt(stop) || !IsPyInt(step) then
        Err(Resolution("The values of " + "'start', 'stop' and " + "'step' in 'range' " + "must be integers.", args.keypath))
      else if PyInt(step) == 0 then
        Err(ValueError("range() arg 3 must " + "not be zero"))
      else
        Ok(List(IntValues(PyRange(PyInt(start), PyInt(stop), PyInt(step)))))
  }

  // ----------------------------------------------------------------------- loop

  /** `{variable: element}`, the local variables of one loop iteration. */
  function Binding(variable: string, element: Value): Entries
  {
    [(variable, element)]
  }

  /**
   * The bodies of a loop over `elements`: `body` resolved under `schema` once
   * per element with the variable bound to it, in order; the first failure
   * ends the loop with its error.
   */
  function LoopBodies(resolve: Resolver, body: Value, variable: string, schema: Value, elements: seq<Value>)
    : Result<seq<Value>>
    decreases |elements|
  {
    if elements == [] then Ok([])
    else
      var n := |elements| - 1;
      match LoopBodies(resolve, body, variable, schema, elements[..n])
      case Err(e) => Err(e)
      case Ok(done) =>
        match resolve(body, schema, Binding(variable, elements[n]))
        case Err(e) => Err(e)
        case Ok(v) => Ok(done + [v])
  }

  /**
   * A loop succeeds with one body per element, body i being the resolution of
   * `body` with the variable bound to element i; it fails with the error of
   * the first element whose body does not resolve.
   */
  lemma {:induction false} LoopBodiesSpec(resolve: Resolver, body: Value, variable: string, schema: Value, elements: seq<Value>)
    ensures var r := LoopBodies(resolve, body, variable, schema, elements);
      && (r.Ok? <==> forall k :: 0 <= k < |elements| ==> resolve(body, schema, Binding(variable, elements[k])).Ok?)
      && (r.Ok? ==>
        && |r.value| == |elements|
        && forall i :: 0 <= i < |elements| ==>
             resolve(body, schema, Binding(variable, elements[i])) == Ok(r.value[i]))
      && (r.Err? ==>
        exists i :: 0 <= i < |elements|
          && resolve(body, schema, Binding(variable, elements[i])) == Err(r.error)
          && forall k :: 0 <= k < i ==> resolve(body, schema, Binding(variable, elements[k])).Ok?)
    decreases |elements|
  {
    if elements != [] {
      var n := |elements| - 1;
      var prefix := elements[..n];
      assert forall i :: 0 <= i < n ==> prefix[i] == elements[i];
      LoopBodiesSpec(resolve, body, variable, schema, prefix);
    }
  }

  /** Once a prefix of the elements fails, the whole loop fails with the same error. */
  lemma {:induction false} LoopBodiesPrefixErr(resolve: Resolver, body: Value, variable: string, schema: Value,
                                               elements: seq<Value>, n: nat)
    requires n <= |elements|
    requires LoopBodies(resolve, body, variable, schema, elements[..n]).Err?
    ensures LoopBodies(resolve, body, variable, schema, elements)
         == LoopBodies(resolve, body, variable, schema, elements[..n])
    decreases |elements| - n
  {
    if n < |elements| {
      var m := |elements| - 1;
      assert elements[..m][..n] == elements[..n];
      LoopBodiesPrefixErr(resolve, body, variable, schema, elements[..m], n);
    } else {
      assert elements[..n] == elements;
    }
  }

  /** The input checks shared by both versions of `loop`. */
  predicate LoopInputOk(input: Value)
  {
    Has(input, "variable") && Has(input, "over") && Has(input, "in")
  }

  /** `loop`, read as a function of its arguments. */
  function LoopSpec(args: Args): Result<Value>
  {
    if !LoopInputOk(args.input) then
      Err(Resolution("Input to 'loop' " + "must be a " + "dictionary with " + "keys 'variable', " + "'over' and 'in'.", args.keypath))
    else
      match args.resolve(Lookup(args.input, "over").value, AnyListSchema(), [])
      case Err(e) => Err(e)
      case Ok(over) =>
        match Lookup(args.schema, "element_schema")
        case None => Err(KeyError("element_schema"))
        case Some(elementSchema) =>
          var variable := Lookup(args.input, "variable").value;
          if !over.List? || !variable.Str? then Err(AssertionFailed)
          else
            match LoopBodies(args.resolve, Lookup(args.input, "in").value, variable.s, elementSchema, over.items)
            case Err(e) => Err(e)
            case Ok(bodies) => Ok(List(bodies))
  }

  /**
   * `loop`: resolves "over" as a list, then appends one resolved copy of
   * "in" per element, with "variable" bound to the element.
   */
  method Loop(args: Args) returns (r: Result<Value>)
    ensures r == LoopSpec(args)
  {
    if !LoopInputOk(args.input) {
      return Err(Resolution("Input to 'loop' " + "must be a " + "dictionary with " + "keys 'variable', " + "'over' and 'in'.", args.keypath));
    }
    var over := args.resolve(Lookup(args.input, "over").value, AnyListSchema(), []);
    if over.Err? {
      return Err(over.error);
    }
    var elementSchema := Lookup(args.schema, "element_schema");
    if elementSchema.None? {
      return Err(KeyError("element_schema"));
    }
    var variable := Lookup(args.input, "variable").value;
    if !over.value.List? || !variable.Str? {
      return Err(AssertionFailed);
    }
    var bodies := ResolveEach(args.resolve, Lookup(args.input, "in").value, variable.s, elementSchema.value, over.value.items);
    r := if bodies.Err? then Err(bodies.error) else Ok(List(bodies.value));
  }

  /** The for-loop of `loop`: appends one resolved body per element, stopping at the first error. */
  method ResolveEach(resolve: Resolver, body: Value, variable: string, schema: Value, elements: seq<Value>)
    returns (r: Result<seq<Value>>)
    ensures r == LoopBodies(resolve, body, variable, schema, elements)
  {
    var result: seq<Value> := [];
    var i := 0;
    while i < |elements|
      invariant 0 <= i <= |elements|
      invariant LoopBodies(resolve, body, variable, schema, elements[..i]) == Ok(result)
    {
      var resolved := resolve(body, schema, Binding(variable, elements[i]));
      assert elements[..i + 1][..i] == elements[..i];
      if resolved.Err? {
        LoopBodiesPrefixErr(resolve, body, variable, schema, elements, i + 1);
        return Err(resolved.error);
      }
      result := result + [resolved.value];
      i := i + 1;
    }
    assert elements[..i] == elements;
    r := Ok(result);
  }

  /** A successful `loop` yields one resolved body per element of "over", in order. */
  lemma LoopResult(args: Args, i: nat)
    requires LoopSpec(args).Ok?
    ensures LoopInputOk(args.input)
    ensures
      var over := args.resolve(Lookup(args.input, "over").value, AnyListSchema(), []);
      && over.Ok? && over.value.List?
      && Lookup(args.schema, "element_schema").Some?
      && Lookup(args.input, "variable").value.Str?
      && |LoopSpec(args).value.items| == |over.value.items|
      && (i < |over.value.items| ==>
            args.resolve(Lookup(args.input, "in").value, Lookup(args.schema, "element_schema").value,
                         Binding(Lookup(args.input, "variable").value.s, over.value.items[i]))
            == Ok(LoopSpec(args).value.items[i]))
  {
    var over := args.resolve(Lookup(args.input, "over").value, AnyListSchema(), []);
    LoopBodiesSpec(args.resolve, Lookup(args.input, "in").value, Lookup(args.input, "variable").value.s,
                   Lookup(args.schema, "element_schema").value, over.value.items);
  }

  // --------------------------------------------------------------------- filter

  /** The condition of one filter step, resolved as a boolean. */
  function Condition(resolve: Resolver, cond: Value, variable: string, element: Value): Result<Value>
  {
    resolve(cond, TypeSchema("boolean"), Binding(variable, element))
  }

  /**
   * The positions whose condition resolved to a true value, in increasing
   * order; every resolution before position n succeeded.
   */
  function KeptIndices(resolve: Resolver, cond: Value, variable: string, elements: seq<Value>): (idx: seq<nat>)
    requires forall k :: 0 <= k < |elements| ==> Condition(resolve, cond, variable, elements[k]).Ok?
    ensures forall a, b :: 0 <= a < b < |idx| ==> idx[a] < idx[b]
    ensures forall a :: 0 <= a < |idx| ==> idx[a] < |elements|
    ensures forall i :: 0 <= i < |elements| ==>
      (i in idx <==> Truthy(Condition(resolve, cond, variable, elements[i]).value))
    decreases |elements|
  {
    if elements == [] then []
    else
      var n := |elements| - 1;
      var prefix := KeptIndices(resolve, cond, variable, elements[..n]);
      assert forall i :: 0 <= i < n ==> elements[..n][i] == elements[i];
      if Truthy(Condition(resolve, cond, variable, elements[n]).value) then prefix + [n] else prefix
  }

  /**
   * The elements whose condition resolves to a true value, in order; the first
   * failed resolution ends the filter with its error.
   */
  function FilterKept(resolve: Resolver, cond: Value, variable: string, elements: seq<Value>)
    : Result<seq<Value>>
    decreases |elements|
  {
    if elements == [] then Ok([])
    else
      var n := |elements| - 1;
      match FilterKept(resolve, cond, variable, elements[..n])
      case Err(e) => Err(e)
      case Ok(kept) =>
        match Condition(resolve, cond, variable, elements[n])
        case Err(e) => Err(e)
        case Ok(c) => if Truthy(c) then Ok(kept + [elements[n]]) else Ok(kept)
  }

  /**
   * The filter succeeds exactly when every condition resolves, and then keeps
   * the elements at KeptIndices, in order; otherwise it fails with the error
   * of the first condition that did not resolve.
   */
  lemma FilterKeptSpec(resolve: Resolver, cond: Value, variable: string, elements: seq<Value>)
    ensures var r := FilterKept(resolve, cond, variable, elements);
      && (r.Ok? <==> forall k :: 0 <= k < |elements| ==> Condition(resolve, cond, variable, elements[k]).Ok?)
      && (r.Ok? ==>
        var idx := KeptIndices(resolve, cond, variable, elements);
        |r.value| == |idx| && forall a :: 0 <= a < |idx| ==> r.value[a] == elements[idx[a]])
      && (r.Err? ==>
      exists i :: 0 <= i < |elements|
        && Condition(resolve, cond, variable, elements[i]) == Err(r.error)
        && forall k :: 0 <= k < i ==> Condition(resolve, cond, variable, elements[k]).Ok?)
  {
    FilterKeptOk(resolve, cond, variable, elements);
    if FilterKept(resolve, cond, variable, elements).Ok? {
      FilterKeptValues(resolve, cond, variable, elements);
    } else {
      FilterKeptErr(resolve, cond, variable, elements);
    }
  }

  /** The last element dropped: the same conditions on the first n elements. */
  lemma PrefixElements(elements: seq<Value>, n: nat)
    requires n <= |elements|
    ensures |elements[..n]| == n && forall i :: 0 <= i < n ==> elements[..n][i] == elements[i]
  {
  }

  lemma {:induction false} FilterKeptOk(resolve: Resolver, cond: Value, variable: string, elements: seq<Value>)
    ensures FilterKept(resolve, cond, variable, elements).Ok?
            <==> forall k :: 0 <= k < |elements| ==> Condition(resolve, cond, variable, elements[k]).Ok?
    decreases |elements|
  {
    if elements != [] {
      var n := |elements| - 1;
      PrefixElements(elements, n);
      FilterKeptOk(resolve, cond, variable, elements[..n]);
    }
  }

  lemma {:induction false} FilterKeptValues(resolve: Resolver, cond: Value, variable: string, elements: seq<Value>)
    requires forall k :: 0 <= k < |elements| ==> Condition(resolve, cond, variable, elements[k]).Ok?
    ensures var r := FilterKept(resolve, cond, variable, elements);
      var idx := KeptIndices(resolve, cond, variable, elements);
      r.Ok? && |r.value| == |idx| && forall a :: 0 <= a < |idx| ==> r.value[a] == elements[idx[a]]
    decreases |elements|
  {
    if elements != [] {
      var n := |elements| - 1;
      PrefixElements(elements, n);
      FilterKeptValues(resolve, cond, variable, elements[..n]);
    }
  }

  lemma {:induction false} FilterKeptErr(resolve: Resolver, cond: Value, variable: string, elements: seq<Value>)
    ensures var r := FilterKept(resolve, cond, variable, elements);
      r.Err? ==>
      exists i :: 0 <= i < |elements|
        && Condition(resolve, cond, variable, elements[i]) == Err(r.error)
        && forall k :: 0 <= k < i ==> Condition(resolve, cond, variable, elements[k]).Ok?
    decreases |elements|
  {
    if elements != [] {
      var n := |elements| - 1;
      PrefixElements(elements, n);
      FilterKeptErr(resolve, cond, variable, elements[..n]);
      FilterKeptOk(resolve, cond, variable, elements[..n]);
    }
  }

  /** Once a prefix of the elements fails, the whole filter fails with the same error. */
  lemma {:induction false} FilterKeptPrefixErr(resolve: Resolver, cond: Value, variable: string, elements: seq<Value>, n: nat)
    requires n <= |elements|
    requires FilterKept(resolve, cond, variable, elements[..n]).Err?
    ensures FilterKept(resolve, cond, variable, elements) == FilterKept(resolve, cond, variable, elements[..n])
    decreases |elements| - n
  {
    if n < |elements| {
      var m := |elements| - 1;
      assert elements[..m][..n] == elements[..n];
      FilterKeptPrefixErr(resolve, cond, variable, elements[..m], n);
    } else {
      assert elements[..n] == elements;
    }
  }

  predicate FilterInputOk(input: Value)
  {
    Has(input, "iterable") && Has(input, "variable") && Has(input, "condition")
  }

  /** `filter`, read as a function of its arguments. */
  function FilterSpec(args: Args): Result<Value>
  {
    if !FilterInputOk(args.input) then
      Err(Resolution("Input to 'filter' " + "must be a " + "dictionary with " + "keys 'iterable', " + "'variable' and " + "'condition'.", args.keypath))
    else
      match args.resolve(Lookup(args.input, "iterable").value, AnyListSchema(), [])
      case Err(e) => Err(e)
      case Ok(iterable) =>
        var variable := Lookup(args.input, "variable").value;
        if !iterable.List? || !variable.Str? then Err(AssertionFailed)
        else
          match FilterKept(args.resolve, Lookup(args.input, "condition").value, variable.s, iterable.items)
          case Err(e) => Err(e)
          case Ok(kept) => Ok(List(kept))
  }

  /**
   * `filter`: resolves "iterable" as a list and appends each element whose
   * condition, resolved with the variable bound to it, is true.
   */
  method Filter(args: Args) returns (r: Result<Value>)
    ensures r == FilterSpec(args)
  {
    if !FilterInputOk(args.input) {
      return Err(Resolution("Input to 'filter' " + "must be a " + "dictionary with " + "keys 'iterable', " + "'variable' and " + "'condition'.", args.keypath));
    }
    var iterable := args.resolve(Lookup(args.input, "iterable").value, AnyListSchema(), []);
    if iterable.Err? {
      return Err(iterable.error);
    }
    var variable := Lookup(args.input, "variable").value;
    if !iterable.value.List? || !variable.Str? {
      return Err(AssertionFailed);
    }
    var kept := KeepEach(args.resolve, Lookup(args.input, "condition").value, variable.s, iterable.value.items);
    r := if kept.Err? then Err(kept.error) else Ok(List(kept.value));
  }

  /** The for-loop of `filter`: appends each element whose condition is true, stopping at the first error. */
  method KeepEach(resolve: Resolver, cond: Value, variable: string, elements: seq<Value>)
    returns (r: Result<seq<Value>>)
    ensures r == FilterKept(resolve, cond, variable, elements)
  {
    var result: seq<Value> := [];
    var i := 0;
    while i < |elements|
      invariant 0 <= i <= |elements|
      invariant FilterKept(resolve, cond, variable, elements[..i]) == Ok(result)
    {
      var c := resolve(cond, TypeSchema("boolean"), Binding(variable, elements[i]));
      assert elements[..i + 1][..i] == elements[..i];
      if c.Err? {
        FilterKeptPrefixErr(resolve, cond, variable, elements, i + 1);
        return Err(c.error);
      }
      if Truthy(c.value) {
        result := result + [elements[i]];
      }
      i := i + 1;
    }
    assert elements[..i] == elements;
    r := Ok(result);
  }
}
