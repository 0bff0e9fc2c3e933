// The earlier built-ins of src/smartconfig/functions.py. concatenate, zip,
// range, update_shallow and update behave exactly as their counterparts in
// ListFunctions and DictFunctions (same checks, same messages, same results);
// the functions below are the ones that differ or have no counterpart.
module LegacyFunctions {
  import opened Exceptions
  import opened Config
  import opened Calls
  import ListFunctions
  import DictFunctions

  /** `raw`: a string input, whatever its marker kind, becomes a RawString. */
  function Raw(args: Args): (r: Result<Value>)
    ensures r.Ok? <==> args.input.Str?
    ensures r.Ok? ==> r.value == Str(args.input.s, RawText)
    ensures r.Err? ==> r.error == Resolution("Input to 'raw' must " + "be a string.", args.keypath)
  {
    if !args.input.Str? then Err(Resolution("Input to 'raw' must " + "be a string.", args.keypath))
    else Ok(Str(args.input.s, RawText))
  }

  /** `recursive`: a string input becomes a RecursiveString. */
  function Recursive(args: Args): (r: Result<Value>)
    ensures r.Ok? <==> args.input.Str?
    ensures r.Ok? ==> r.value == Str(args.input.s, RecursiveText)
    ensures r.Err? ==> r.error == Resolution("Input to " + "'recursive' must be " + "a string.", args.keypath)
  {
    if !args.input.Str? then Err(Resolution("Input to " + "'recursive' must be " + "a string.", args.keypath))
    else Ok(Str(args.input.s, RecursiveText))
  }

  /**
   * `splice`: a string or a (non-bool) int names a keypath of the root; any
   * failure of the lookup is reported as a missing keypath.
   */
  function Splice(args: Args): (r: Result<Value>)
    ensures !args.input.Str? && !args.input.Int? ==>
      r == Err(Resolution("Input to 'splice' " + "must be a string or " + "int.", args.keypath))
    ensures args.input.Str? || args.input.Int? ==>
      var keypath := if args.input.Str? then args.input.s else IntToString(args.input.i);
      && (r.Ok? <==> args.getKeypath(keypath).Ok?)
      && (r.Ok? ==> r == args.getKeypath(keypath))
      && (r.Err? ==> r.error == Resolution("Keypath '" + keypath + "' does not exist.", args.keypath))
  {
    if !args.input.Str? && !args.input.Int? then
      Err(Resolution("Input to 'splice' " + "must be a string or " + "int.", args.keypath))
    else
      var keypath := if args.input.Str? then args.input.s else IntToString(args.input.i);
      match args.getKeypath(keypath)
      case Ok(v) => Ok(v)
      case Err(_) => Err(Resolution("Keypath '" + keypath + "' does not exist.", args.keypath))
  }

  /** `set(d.keys()) == {"condition", "then", "else"}`. */
  predicate IfKeys(input: Value)
  {
    input.Dict? && KeySet(input.entries) == {"condition", "then", "else"}
  }

  /**
   * `if_`: a dict with exactly the keys condition/then/else; the condition is
   * resolved as a boolean and only the chosen branch is resolved, under the
   * call's own schema.
   */
  function If(args: Args): (r: Result<Value>)
    ensures !args.input.Dict? ==> r == Err(Resolution("Input to 'if' must " + "be a dictionary.", args.keypath))
    ensures args.input.Dict? && !IfKeys(args.input) ==>
      r == Err(Resolution("Input to 'if' must " + "be a dictionary " + "with keys " + "'condition', 'then' " + "and 'else'.", args.keypath))
    ensures IfKeys(args.input) ==>
      var cond := args.resolve(Lookup(args.input, "condition").value, TypeSchema("boolean"), []);
      && (cond.Err? ==> r == Err(cond.error))
      && (cond.Ok? && Truthy(cond.value) ==> r == args.resolve(Lookup(args.input, "then").value, args.schema, []))
      && (cond.Ok? && !Truthy(cond.value) ==> r == args.resolve(Lookup(args.input, "else").value, args.schema, []))
  {
    if !args.input.Dict? then Err(Resolution("Input to 'if' must " + "be a dictionary.", args.keypath))
    else if !IfKeys(args.input) then
      Err(Resolution("Input to 'if' must " + "be a dictionary " + "with keys " + "'condition', 'then' " + "and 'else'.", args.keypath))
    else
      match args.resolve(Lookup(args.input, "condition").value, TypeSchema("boolean"), [])
      case Err(e) => Err(e)
      case Ok(c) =>
        if Truthy(c) then args.resolve(Lookup(args.input, "then").value, args.schema, [])
        else args.resolve(Lookup(args.input, "else").value, args.schema, [])
  }

  /**
   * `let`: "variables" (a dict, before and after resolution under
   * `{"type": "any"}`) become local variables of "in".
   */
  function Let(args: Args): (r: Result<Value>)
    ensures !args.input.Dict? ==> r == Err(Resolution("Input to 'let' must " + "be a dictionary.", args.keypath))
    ensures args.input.Dict? && (!Has(args.input, "in") || !Has(args.input, "variables")) ==>
      r == Err(Resolution("Input to 'let' must " + "be a dictionary " + "with keys " + "'variables' and " + "'in'.", args.keypath))
    ensures Has(args.input, "in") && Has(args.input, "variables") && !Lookup(args.input, "variables").value.Dict? ==>
      r == Err(Resolution("The value of " + "'variables' in " + "'let' must be a " + "dictionary.", args.keypath))
    ensures Has(args.input, "in") && Has(args.input, "variables") && Lookup(args.input, "variables").value.Dict? ==>
      var vars := args.resolve(Lookup(args.input, "variables").value, TypeSchema("any"), []);
      && (vars.Err? ==> r == Err(vars.error))
      && (vars.Ok? && !vars.value.Dict? ==>
            r == Err(Resolution("The value of " + "'variables' in " + "'let' must be a " + "dictionary.", args.keypath)))
      && (vars.Ok? && vars.value.Dict? ==> r == args.resolve(Lookup(args.input, "in").value, args.schema, vars.value.entries))
    ensures r.Ok? ==>
      var vars := args.resolve(Lookup(args.input, "variables").value, TypeSchema("any"), []);
      && Lookup(args.input, "variables").value.Dict?
      && vars.Ok? && vars.value.Dict?
      && r == args.resolve(Lookup(args.input, "in").value, args.schema, vars.value.entries)
  {
    if !args.input.Dict? then Err(Resolution("Input to 'let' must " + "be a dictionary.", args.keypath))
    else if !Has(args.input, "in") || !Has(args.input, "variables") then
      Err(Resolution("Input to 'let' must " + "be a dictionary " + "with keys " + "'variables' and " + "'in'.", args.keypath))
    else if !Lookup(args.input, "variables").value.Dict? then
      Err(Resolution("The value of " + "'variables' in " + "'let' must be a " + "dictionary.", args.keypath))
    else
      match args.resolve(Lookup(args.input, "variables").value, TypeSchema("any"), [])
      case Err(e) => Err(e)
      case Ok(vars) =>
        if !vars.Dict? then Err(Resolution("The value of " + "'variables' in " + "'let' must be a " + "dictionary.", args.keypath))
        else args.resolve(Lookup(args.input, "in").value, args.schema, vars.entries)
  }

  /** The earlier `loop`: a non-list "over" is reported instead of asserted. */
  function LoopSpec(args: Args): Result<Value>
  {
    if !ListFunctions.LoopInputOk(args.input) then
      Err(Resolution("Input to 'loop' " + "must be a " + "dictionary with " + "keys 'variable', " + "'over' and 'in'.", args.keypath))
    else
      match args.resolve(Lookup(args.input, "over").value, AnyListSchema(), [])
      case Err(e) => Err(e)
      case Ok(over) =>
        match Lookup(args.schema, "element_schema")
        case None => Err(KeyError("element_schema"))
        case Some(elementSchema) =>
          var variable := Lookup(args.input, "variable").value;
          if !variable.Str? then Err(AssertionFailed)
          else if !over.List? then Err(Resolution("The value of 'over' " + "in 'loop' must be a " + "list.", args.keypath))
          else
            match ListFunctions.LoopBodies(args.resolve, Lookup(args.input, "in").value, variable.s, elementSchema, over.items)
            case Err(e) => Err(e)
            case Ok(bodies) => Ok(List(bodies))
  }

  method Loop(args: Args) returns (r: Result<Value>)
    ensures r == LoopSpec(args)
  {
    if !ListFunctions.LoopInputOk(args.input) {
      return Err(Resolution("Input to 'loop' " + "must be a " + "dictionary with " + "keys 'variable', " + "'over' and 'in'.", args.keypath));
    }
    var over := args.resolve(Lookup(args.input, "over").value, AnyListSchema(), []);
    if over.Err? {
      return Err(over.error);
    }
    var elementSchema := Lookup(args.schema, "element_schema");
    if elementSchema.None? {
      return Err(KeyError("element_schema"));
    }
    var variable := Lookup(args.input, "variable").value;
    if !variable.Str? {
      return Err(AssertionFailed);
    }
    if !over.value.List? {
      return Err(Resolution("The value of 'over' " + "in 'loop' must be a " + "list.", args.keypath));
    }
    var bodies := ListFunctions.ResolveEach(args.resolve, Lookup(args.input, "in").value, variable.s,
                                            elementSchema.value, over.value.items);
    r := if bodies.Err? then Err(bodies.error) else Ok(List(bodies.value));
  }

  /** "over" must resolve to a list: anything else is reported with the keypath of the call. */
  lemma LoopRejectsNonList(args: Args)
    requires ListFunctions.LoopInputOk(args.input)
    requires args.resolve(Lookup(args.input, "over").value, AnyListSchema(), []).Ok?
    requires !args.resolve(Lookup(args.input, "over").value, AnyListSchema(), []).value.List?
    requires Lookup(args.schema, "element_schema").Some? && Lookup(args.input, "variable").value.Str?
    ensures LoopSpec(args) == Err(Resolution("The value of 'over' " + "in 'loop' must be a " + "list.", args.keypath))
  {
  }

  /** The earlier `filter`: a non-list "iterable" is reported instead of asserted. */
  function FilterSpec(args: Args): Result<Value>
  {
    if !ListFunctions.FilterInputOk(args.input) then
      Err(Resolution("Input to 'filter' " + "must be a " + "dictionary with " + "keys 'iterable', " + "'variable' and " + "'condition'.", args.keypath))
    else
      match args.resolve(Lookup(args.input, "iterable").value, AnyListSchema(), [])
      case Err(e) => Err(e)
      case Ok(iterable) =>
        if !iterable.List? then Err(Resolution("The value of " + "'iterable' in " + "'filter' must be a " + "list.", args.keypath))
        else
          var variable := Lookup(args.input, "variable").value;
          if !variable.Str? then Err(AssertionFailed)
          else
            match ListFunctions.FilterKept(args.resolve, Lookup(args.input, "condition").value, variable.s, iterable.items)
            case Err(e) => Err(e)
            case Ok(kept) => Ok(List(kept))
  }

  method Filter(args: Args) returns (r: Result<Value>)
    ensures r == FilterSpec(args)
  {
    if !ListFunctions.FilterInputOk(args.input) {
      return Err(Resolution("Input to 'filter' " + "must be a " + "dictionary with " + "keys 'iterable', " + "'variable' and " + "'condition'.", args.keypath));
    }
    var iterable := args.resolve(Lookup(args.input, "iterable").value, AnyListSchema(), []);
    if iterable.Err? {
      return Err(iterable.error);
    }
    if !iterable.value.List? {
      return Err(Resolution("The value of " + "'iterable' in " + "'filter' must be a " + "list.", args.keypath));
    }
    var variable := Lookup(args.input, "variable").value;
    if !variable.Str? {
      return Err(AssertionFailed);
    }
    var kept := ListFunctions.KeepEach(args.resolve, Lookup(args.input, "condition").value, variable.s,
                                       iterable.value.items);
    r := if kept.Err? then Err(kept.error) else Ok(List(kept.value));
  }

  /** A successful filter keeps exactly the elements whose condition is true, in order. */
  lemma FilterResult(args: Args)
    requires FilterSpec(args).Ok?
    ensures ListFunctions.FilterInputOk(args.input)
    ensures
      var iterable := args.resolve(Lookup(args.input, "iterable").value, AnyListSchema(), []);
      var cond := Lookup(args.input, "condition").value;
      var variable := Lookup(args.input, "variable").value;
      && iterable.Ok? && iterable.value.List? && variable.Str?
      && (forall k :: 0 <= k < |iterable.value.items| ==>
            ListFunctions.Condition(args.resolve, cond, variable.s, iterable.value.items[k]).Ok?)
      && var idx := ListFunctions.KeptIndices(args.resolve, cond, variable.s, iterable.value.items);
      && |FilterSpec(args).value.items| == |idx|
      && forall a :: 0 <= a < |idx| ==> FilterSpec(args).value.items[a] == iterable.value.items[idx[a]]
  {
    var iterable := args.resolve(Lookup(args.input, "iterable").value, AnyListSchema(), []);
    ListFunctions.FilterKeptSpec(args.resolve, Lookup(args.input, "condition").value,
                                 Lookup(args.input, "variable").value.s, iterable.value.items);
  }

  /** The message every malformed `dict_from_items` input gets. */
  const FromItemsMessage: string :=
    "Input to " + "'dict_from_items' " + "must be a list of " + "dictionaries with " + "keys 'key' and " + "'value'."

  /** One checked step of `dict_from_items`: an item must have exactly the keys key and value. */
  function StoreCheckedItem(dct: Entries, item: Value, keypath: KeyPath): (r: Result<Entries>)
    ensures !item.Dict? || KeySet(item.entries) != {"key", "value"} ==>
      r == Err(Resolution(FromItemsMessage, keypath))
  {
    if !item.Dict? || KeySet(item.entries) != {"key", "value"} then Err(Resolution(FromItemsMessage, keypath))
    else
      var key := Get(item.entries, "key").value;
      if !key.Str? then Err(AssertionFailed)
      else Ok(Put(dct, key.s, Get(item.entries, "value").value))
  }

  function CheckedItemsToDict(items: seq<Value>, keypath: KeyPath): Result<Entries>
  {
    if items == [] then Ok([])
    else
      var n := |items| - 1;
      match CheckedItemsToDict(items[..n], keypath)
      case Err(e) => Err(e)
      case Ok(dct) => StoreCheckedItem(dct, items[n], keypath)
  }

  lemma {:induction false} CheckedItemsPrefixErr(items: seq<Value>, keypath: KeyPath, n: nat)
    requires n <= |items|
    requires CheckedItemsToDict(items[..n], keypath).Err?
    ensures CheckedItemsToDict(items, keypath) == CheckedItemsToDict(items[..n], keypath)
    decreases |items| - n
  {
    if n < |items| {
      var m := |items| - 1;
      assert items[..m][..n] == items[..n];
      CheckedItemsPrefixErr(items[..m], keypath, n);
    } else {
      assert items[..n] == items;
    }
  }

  /** Any item that is not a {key, value} dict makes the whole call fail. */
  lemma {:induction false} CheckedItemsRejectsMalformed(items: seq<Value>, keypath: KeyPath, i: nat)
    requires i < |items|
    requires !items[i].Dict? || KeySet(items[i].entries) != {"key", "value"}
    ensures CheckedItemsToDict(items, keypath).Err?
    decreases |items|
  {
    var n := |items| - 1;
    if i < n {
      assert items[..n][i] == items[i];
      CheckedItemsRejectsMalformed(items[..n], keypath, i);
    }
  }

  /**
   * `dict_from_items`: resolves the input as a list of {key, value} dicts,
   * checks each item's key set, and stores each key's value in order.
   */
  method DictFromItems(args: Args) returns (r: Result<Value>)
    ensures
      var input := args.resolve(args.input, DictFunctions.ItemsSchema(), []);
      && (input.Err? ==> r == Err(input.error))
      && (input.Ok? && !input.value.List? ==> r == Err(Resolution(FromItemsMessage, args.keypath)))
      && (input.Ok? && input.value.List? ==>
            match CheckedItemsToDict(input.value.items, args.keypath)
            case Err(e) => r == Err(e)
            case Ok(dct) => r == Ok(Dict(dct)))
  {
    var input := args.resolve(args.input, DictFunctions.ItemsSchema(), []);
    if input.Err? {
      return Err(input.error);
    }
    if !input.value.List? {
      return Err(Resolution(FromItemsMessage, args.keypath));
    }
    var items := input.value.items;
    var dct: Entries := [];
    var i := 0;
    while i < |items|
      invariant 0 <= i <= |items|
      invariant CheckedItemsToDict(items[..i], args.keypath) == Ok(dct)
    {
      assert items[..i + 1][..i] == items[..i];
      var stored := StoreCheckedItem(dct, items[i], args.keypath);
      if stored.Err? {
        CheckedItemsPrefixErr(items, args.keypath, i + 1);
        return Err(stored.error);
      }
      dct := stored.value;
      i := i + 1;
    }
    assert items[..i] == items;
    r := Ok(Dict(dct));
  }
}
