// The earlier resolution engine of src/smartconfig/_resolve.py: its hard-coded
// recognition of `__name__` function calls, its value nodes with RawString and
// RecursiveString leaves, the two-phase resolution of its container nodes,
// the preserve-type copy of `resolve`, and its parser and function tables.
module OldResolve {
  import opened Exceptions
  import opened Config
  import DictFunctions
  import Utils

  // ------------------------------------------------- function-call recognition

  /** `_is_dunder`: the key starts with "__" and ends with "__" (the two may overlap). */
  predicate IsDunder(key: string)
  {
    |key| >= 2 && key[..2] == "__" && key[|key| - 2..] == "__"
  }

  /** Python's `key[2:-2]`: empty when the key has fewer than five characters' worth to strip. */
  function StripDunder(key: string): string
  {
    if |key| >= 4 then key[2..|key| - 2] else ""
  }

  /** `any(_is_dunder(key) for key in dct.keys())`. */
  predicate HasDunderKey(dct: Entries)
  {
    exists i | 0 <= i < |dct| :: IsDunder(dct[i].0)
  }

  /**
   * `_check_for_function_call`: no dunder key means no call; a dunder key
   * among others is an invalid call; a lone dunder key names the function.
   */
  function CheckForFunctionCall(dct: Entries): (r: Result<Option<string>>)
    ensures r == Ok(None) <==> forall i | 0 <= i < |dct| :: !IsDunder(dct[i].0)
    ensures r.Err? <==> HasDunderKey(dct) && |dct| != 1
    ensures r.Err? ==> r.error == ValueError("Invalid function call.")
    ensures r.Ok? && r.value.Some? ==>
      |dct| == 1 && IsDunder(dct[0].0) && r.value.value == StripDunder(dct[0].0)
  {
    if !HasDunderKey(dct) then Ok(None)
    else if |dct| != 1 then Err(ValueError("Invalid function call."))
    else Ok(Some(StripDunder(dct[0].0)))
  }

  /** A dict with the single key "__name__" is recognised as a call to `name`. */
  lemma CallNameRoundTrip(name: string, input: Value)
    ensures CheckForFunctionCall([("__" + name + "__", input)]) == Ok(Some(name))
  {
    var key := "__" + name + "__";
    var dct := [(key, input)];
    assert key[..2] == "__" && key[|key| - 2..] == "__";
    assert IsDunder(dct[0].0);
    assert HasDunderKey(dct);
    assert key[2..|key| - 2] == name;
    assert StripDunder(dct[0].0) == name;
  }

  /** The keys "__" and "___" are dunder too, and name the empty function name. */
  lemma ShortDunderKeys(input: Value)
    ensures CheckForFunctionCall([("__", input)]) == Ok(Some(""))
    ensures CheckForFunctionCall([("___", input)]) == Ok(Some(""))
  {
    var d2 := [("__", input)];
    var d3 := [("___", input)];
    assert "__"[..2] == "__" && "___"[..2] == "__" && "___"[1..] == "__";
    assert IsDunder(d2[0].0) && IsDunder(d3[0].0);
    assert HasDunderKey(d2) && HasDunderKey(d3);
    assert StripDunder(d2[0].0) == "" && StripDunder(d3[0].0) == "";
  }

  /**
   * `_FunctionNode.from_configuration`: the called function's name and its
   * input `dct["__" + name + "__"]`; a recogniser error, a dict that is not a
   * call and an unregistered name are errors at the node's keypath.
   */
  function FunctionCallOf(dct: Entries, functions: set<string>, keypath: KeyPath): (r: Result<(string, Value)>)
    ensures CheckForFunctionCall(dct).Err? || CheckForFunctionCall(dct) == Ok(None) ==>
      r == Err(Resolution("Invalid function call.", keypath))
    ensures (CheckForFunctionCall(dct).Ok? && CheckForFunctionCall(dct).value.Some? &&
             CheckForFunctionCall(dct).value.value !in functions) ==>
      r == Err(Resolution("Unknown function: " + CheckForFunctionCall(dct).value.value, keypath))
    ensures r.Ok? ==>
      r.value.0 in functions && CheckForFunctionCall(dct) == Ok(Some(r.value.0)) &&
      Get(dct, "__" + r.value.0 + "__") == Some(r.value.1)
  {
    match CheckForFunctionCall(dct)
    case Err(e) => Err(Resolution(e.message, keypath))
    case Ok(None) => Err(Resolution("Invalid function call.", keypath))
    case Ok(Some(name)) =>
      if name !in functions then Err(Resolution("Unknown function: " + name, keypath))
      else
        match Get(dct, "__" + name + "__")
        case None => Err(KeyError("__" + name + "__"))
        case Some(input) => Ok((name, input))
  }

  /** A call written as `{"__name__": input}` to a registered name yields that name and input. */
  lemma FunctionCallOfWritten(name: string, input: Value, functions: set<string>, keypath: KeyPath)
    requires name in functions
    ensures FunctionCallOf([("__" + name + "__", input)], functions, keypath) == Ok((name, input))
  {
    CallNameRoundTrip(name, input);
  }

  // ------------------------------------------------------------ value leaves

  /** `_safely`: a library error becomes a ResolutionError at the node, carrying the error's text. */
  function OldSafely(e: Error, keypath: KeyPath): (r: Error)
    ensures e.InvalidSchema? || e.Resolution? || e.Conversion? ==> r.Resolution? && r.keypath == keypath
    ensures e.Resolution? ==> r.reason == ResolutionMessage(e.reason, e.keypath)
    ensures !(e.InvalidSchema? || e.Resolution? || e.Conversion?) ==> r == e
  {
    match e
    case InvalidSchema(reason, kp) => Resolution(InvalidSchemaMessage(reason, kp), keypath)
    case Resolution(reason, kp) => Resolution(ResolutionMessage(reason, kp), keypath)
    case Conversion(m) => Resolution(m, keypath)
    case _ => e
  }

  /** A RawString leaf: given back untouched when the schema wants a string or anything. */
  function RawLeaf(s: string, typeName: string, keypath: KeyPath): (r: Result<Value>)
    ensures r.Ok? <==> typeName == "string" || typeName == "any"
    ensures r.Ok? ==> r.value == Str(s, RawText)
    ensures r.Err? ==> r.error == Resolution("Schema expected " + "something other " + "than a string.", keypath)
  {
    if typeName != "string" && typeName != "any" then
      Err(Resolution("Schema expected " + "something other " + "than a string.", keypath))
    else Ok(Str(s, RawText))
  }

  /**
   * The RecursiveString loop: interpolate, and again on the result, until a
   * pass leaves the string unchanged. A string that never settles makes the
   * source loop forever; here `fuel` passes are allowed.
   */
  function Settle(interpolate: string -> Result<string>, s: string, keypath: KeyPath, fuel: nat): Result<string>
    decreases fuel
  {
    if fuel == 0 then Err(RecursionLimit)
    else
      match interpolate(s)
      case Err(e) => Err(OldSafely(e, keypath))
      case Ok(t) => if t == s then Ok(t) else Settle(interpolate, t, keypath, fuel - 1)
  }

  /** What the loop settles on is a fixpoint of interpolation. */
  lemma {:induction false} SettleIsFixpoint(interpolate: string -> Result<string>, s: string, keypath: KeyPath, fuel: nat)
    requires Settle(interpolate, s, keypath, fuel).Ok?
    ensures interpolate(Settle(interpolate, s, keypath, fuel).value) == Ok(Settle(interpolate, s, keypath, fuel).value)
    decreases fuel
  {
    var t := interpolate(s).value;
    if t != s {
      SettleIsFixpoint(interpolate, t, keypath, fuel - 1);
    }
  }

  /** A string interpolation leaves unchanged settles at once, on itself. */
  lemma SettleOnFixpoint(interpolate: string -> Result<string>, s: string, keypath: KeyPath, fuel: nat)
    requires interpolate(s) == Ok(s) && fuel > 0
    ensures Settle(interpolate, s, keypath, fuel) == Ok(s)
  {
  }

  /** What `_parse` gives: the type's parser applied, or an error when there is none. */
  function ParseLeaf(parsers: map<string, Value -> Result<Value>>, v: Value, typeName: string, keypath: KeyPath): (r: Result<Value>)
    ensures typeName !in parsers ==>
      r == Err(Resolution("No parser provided " + "for type: '" + typeName + "'.", keypath))
    ensures typeName in parsers ==> r == parsers[typeName](v)
  {
    if typeName !in parsers then Err(Resolution("No parser provided " + "for type: '" + typeName + "'.", keypath))
    else parsers[typeName](v)
  }

  /**
   * The value of a leaf that is not a RawString: a RecursiveString settled,
   * a plain string interpolated once, anything else as it is; then a
   * nullable null stays null and everything else is parsed, through `_safely`.
   */
  function LeafValue(value: Value, typeName: string, nullable: bool, keypath: KeyPath,
                     interpolate: string -> Result<string>, parsers: map<string, Value -> Result<Value>>,
                     fuel: nat): Result<Value>
  {
    var s :=
      if value.Str? && value.kind == RecursiveText then
        (match Settle(interpolate, value.s, keypath, fuel)
         case Ok(t) => Ok(Text(t))
         case Err(e) => Err(e))
      else if value.Str? then
        (match interpolate(value.s)
         case Ok(t) => Ok(Text(t))
         case Err(e) => Err(OldSafely(e, keypath)))
      else Ok(value);
    if s.Err? then Err(s.error)
    else if nullable && value.Null? then Ok(Null)
    else
      match ParseLeaf(parsers, s.value, typeName, keypath)
      case Ok(v) => Ok(v)
      case Err(e) => Err(OldSafely(e, keypath))
  }

  /** A leaf with no parser for its type fails, the message wrapped once more by `_safely`. */
  lemma NoParserDoubleWrapped(value: Value, typeName: string, keypath: KeyPath,
                              interpolate: string -> Result<string>, parsers: map<string, Value -> Result<Value>>,
                              fuel: nat)
    requires !value.Str? && !value.Null? && typeName !in parsers
    ensures LeafValue(value, typeName, false, keypath, interpolate, parsers, fuel) ==
      Err(Resolution(ResolutionMessage("No parser provided " + "for type: '" + typeName + "'.", keypath), keypath))
  {
  }

  /** A nullable null leaf is null, whatever the parsers. */
  lemma NullableNullLeaf(typeName: string, keypath: KeyPath,
                         interpolate: string -> Result<string>, parsers: map<string, Value -> Result<Value>>,
                         fuel: nat)
    ensures LeafValue(Null, typeName, true, keypath, interpolate, parsers, fuel) == Ok(Null)
  {
  }

  /**
   * The `_resolved` field: None (not yet discovered, and also what a leaf
   * that resolved to None goes back to), the pending sentinel, or the value.
   */
  datatype LeafState = Undiscovered | Pending | Cached(value: Value)

  /** A leaf node of the earlier engine. */
  class OldValueNode {
    const value: Value
    const typeName: string
    const keypath: KeyPath
    const nullable: bool
    var resolved: LeafState

    constructor(value: Value, typeName: string, keypath: KeyPath, nullable: bool)
      ensures this.value == value && this.typeName == typeName && this.keypath == keypath
      ensures this.nullable == nullable && resolved == Undiscovered
    {
      this.value := value;
      this.typeName := typeName;
      this.keypath := keypath;
      this.nullable := nullable;
      resolved := Undiscovered;
    }

    /** A RawString leaf is not cached and ignores the pending sentinel. */
    predicate IsRaw()
      reads this
    {
      value.Str? && value.kind == RawText
    }

    /**
     * `_ValueNode.resolve`. Interpolation is the parameter `interpolate`
     * (Jinja over the root namespace, which may re-enter the tree).
     */
    method Resolve(interpolate: string -> Result<string>, parsers: map<string, Value -> Result<Value>>, fuel: nat)
      returns (r: Result<Value>)
      modifies this
      ensures IsRaw() ==> r == RawLeaf(value.s, typeName, keypath) && resolved == old(resolved)
      ensures !IsRaw() && old(resolved) == Pending ==>
        r == Err(Resolution("Circular reference", keypath)) && resolved == Pending
      ensures !IsRaw() && old(resolved).Cached? ==> r == Ok(old(resolved).value) && resolved == old(resolved)
      ensures !IsRaw() && old(resolved) == Undiscovered ==>
        r == LeafValue(value, typeName, nullable, keypath, interpolate, parsers, fuel) &&
        resolved == (if r.Err? then Pending else if r.value.Null? then Undiscovered else Cached(r.value))
    {
      if IsRaw() {
        return RawLeaf(value.s, typeName, keypath);
      }
      if resolved == Pending {
        return Err(Resolution("Circular reference", keypath));
      }
      if resolved.Cached? {
        return Ok(resolved.value);
      }
      resolved := Pending;
      var s: Value := value;
      if value.Str? && value.kind == RecursiveText {
        var t := value.s;
        var changed := true;
        var f: nat := fuel;
        while changed
          invariant f <= fuel
          invariant Settle(interpolate, value.s, keypath, fuel) ==
            (if changed then Settle(interpolate, t, keypath, f) else Ok(t))
          decreases f, changed
        {
          if f == 0 {
            return Err(RecursionLimit);
          }
          var next := interpolate(t);
          if next.Err? {
            return Err(OldSafely(next.error, keypath));
          }
          changed := next.value != t;
          t := next.value;
          if changed {
            f := f - 1;
          }
        }
        s := Text(t);
      } else if value.Str? {
        var next := interpolate(value.s);
        if next.Err? {
          return Err(OldSafely(next.error, keypath));
        }
        s := Text(next.value);
      }
      if nullable && value.Null? {
        r := Ok(Null);
      } else {
        r := ParseLeaf(parsers, s, typeName, keypath);
        if r.Err? {
          return Err(OldSafely(r.error, keypath));
        }
      }
      resolved := if r.value.Null? then Undiscovered else Cached(r.value);
    }
  }

  /** A leaf resolved once answers from its cache the second time, with the same value. */
  method ResolveTwice(node: OldValueNode, interpolate: string -> Result<string>,
                      parsers: map<string, Value -> Result<Value>>, fuel: nat)
    returns (first: Result<Value>, second: Result<Value>)
    requires node.resolved == Undiscovered
    modifies node
    ensures first.Ok? && !first.value.Null? ==> second == first
    ensures first.Err? && !node.IsRaw() ==> second == Err(Resolution("Circular reference", node.keypath))
  {
    first := node.Resolve(interpolate, parsers, fuel);
    second := node.Resolve(interpolate, parsers, fuel);
  }

  // ----------------------------------------------------- container nodes

  /**
   * What the first phase leaves in the children's places, left to right: a
   * call evaluated, anything else as it is; the first failure stops it.
   */
  function EvaluateAll<N>(children: seq<N>, isCall: N -> bool, evaluate: N -> Result<N>): (r: Result<seq<N>>)
    ensures r.Ok? ==> |r.value| == |children|
  {
    if children == [] then Ok([])
    else
      var last := children[|children| - 1];
      match EvaluateAll(children[..|children| - 1], isCall, evaluate)
      case Err(e) => Err(e)
      case Ok(done) =>
        var x := if isCall(last) then evaluate(last) else Ok(last);
        if x.Err? then Err(x.error) else Ok(done + [x.value])
  }

  /** The second phase: every child resolved in order; a child still a call fails the assertion. */
  function ResolveAll<N>(children: seq<N>, isCall: N -> bool, resolve: N -> Result<Value>): (r: Result<seq<Value>>)
    ensures r.Ok? ==> |r.value| == |children|
  {
    if children == [] then Ok([])
    else
      var last := children[|children| - 1];
      match ResolveAll(children[..|children| - 1], isCall, resolve)
      case Err(e) => Err(e)
      case Ok(done) =>
        var x := if isCall(last) then Err(AssertionFailed) else resolve(last);
        if x.Err? then Err(x.error) else Ok(done + [x.value])
  }

  /** After the first phase no child is a call that evaluated, and each is what its original gave. */
  lemma {:induction false} EvaluateAllAt<N>(children: seq<N>, isCall: N -> bool, evaluate: N -> Result<N>, i: nat)
    requires EvaluateAll(children, isCall, evaluate).Ok? && i < |children|
    ensures isCall(children[i]) ==> evaluate(children[i]).Ok?
    ensures EvaluateAll(children, isCall, evaluate).value[i] ==
      (if isCall(children[i]) then evaluate(children[i]).value else children[i])
  {
    var init := children[..|children| - 1];
    if i < |children| - 1 {
      EvaluateAllAt(init, isCall, evaluate, i);
    }
  }

  /** After the second phase each result is its child resolved, and no child was a call. */
  lemma {:induction false} ResolveAllAt<N>(children: seq<N>, isCall: N -> bool, resolve: N -> Result<Value>, i: nat)
    requires ResolveAll(children, isCall, resolve).Ok? && i < |children|
    ensures !isCall(children[i]) && resolve(children[i]).Ok?
    ensures ResolveAll(children, isCall, resolve).value[i] == resolve(children[i]).value
  {
    var init := children[..|children| - 1];
    if i < |children| - 1 {
      ResolveAllAt(init, isCall, resolve, i);
    }
  }

  /** An error in evaluating a prefix is the error of evaluating the whole. */
  lemma {:induction false} EvaluateAllPrefixErr<N>(children: seq<N>, isCall: N -> bool, evaluate: N -> Result<N>, n: nat)
    requires n <= |children| && EvaluateAll(children[..n], isCall, evaluate).Err?
    ensures EvaluateAll(children, isCall, evaluate) == EvaluateAll(children[..n], isCall, evaluate)
  {
    if n < |children| {
      var init := children[..|children| - 1];
      assert init[..n] == children[..n];
      EvaluateAllPrefixErr(init, isCall, evaluate, n);
    } else {
      assert children[..n] == children;
    }
  }

  /** An error in resolving a prefix is the error of resolving the whole. */
  lemma {:induction false} ResolveAllPrefixErr<N>(children: seq<N>, isCall: N -> bool, resolve: N -> Result<Value>, n: nat)
    requires n <= |children| && ResolveAll(children[..n], isCall, resolve).Err?
    ensures ResolveAll(children, isCall, resolve) == ResolveAll(children[..n], isCall, resolve)
  {
    if n < |children| {
      var init := children[..|children| - 1];
      assert init[..n] == children[..n];
      ResolveAllPrefixErr(init, isCall, resolve, n);
    } else {
      assert children[..n] == children;
    }
  }

  /**
   * `_DictNode.resolve` and `_ListNode.resolve` on the children (of a dict,
   * in key order): first every function-call child is replaced in place by
   * what it evaluates to, then every child is resolved in order.
   */
  method ResolveContainer<N>(children: array<N>, isCall: N -> bool, evaluate: N -> Result<N>,
                             resolve: N -> Result<Value>) returns (r: Result<seq<Value>>)
    modifies children
    ensures r == (match EvaluateAll(old(children[..]), isCall, evaluate)
                  case Err(e) => Err(e)
                  case Ok(evaluated) => ResolveAll(evaluated, isCall, resolve))
    ensures EvaluateAll(old(children[..]), isCall, evaluate).Ok? ==>
      children[..] == EvaluateAll(old(children[..]), isCall, evaluate).value
    ensures forall i | 0 <= i < children.Length ::
      children[i] == old(children[i]) || (isCall(old(children[i])) && evaluate(old(children[i])) == Ok(children[i]))
  {
    ghost var before := children[..];
    var i := 0;
    while i < children.Length
      invariant 0 <= i <= children.Length
      invariant children[i..] == before[i..]
      invariant EvaluateAll(before[..i], isCall, evaluate) == Ok(children[..i])
      invariant forall j | 0 <= j < children.Length ::
        children[j] == before[j] || (isCall(before[j]) && evaluate(before[j]) == Ok(children[j]))
    {
      assert before[..i + 1][..i] == before[..i];
      if isCall(children[i]) {
        var e := evaluate(children[i]);
        if e.Err? {
          EvaluateAllPrefixErr(before, isCall, evaluate, i + 1);
          return Err(e.error);
        }
        children[i] := e.value;
      }
      assert children[..i + 1] == children[..i] + [children[i]];
      assert children[i + 1..] == before[i + 1..];
      i := i + 1;
    }
    assert before[..i] == before && children[..i] == children[..];
    var out: seq<Value> := [];
    var j := 0;
    while j < children.Length
      invariant 0 <= j <= children.Length
      invariant ResolveAll(children[..j], isCall, resolve) == Ok(out)
    {
      assert children[..j + 1][..j] == children[..j];
      if isCall(children[j]) {
        ResolveAllPrefixErr(children[..], isCall, resolve, j + 1);
        return Err(AssertionFailed);
      }
      var v := resolve(children[j]);
      if v.Err? {
        ResolveAllPrefixErr(children[..], isCall, resolve, j + 1);
        return Err(v.error);
      }
      out := out + [v.value];
      j := j + 1;
    }
    assert children[..j] == children[..];
    r := Ok(out);
  }

  // ------------------------------------------------ the preserve-type copy

  /** `src[key]` for a dict key or a list index, as Python's subscript does it. */
  function SubscriptKey(src: Value, key: string): (r: Result<Value>)
    ensures src.Dict? ==> (r.Ok? <==> key in KeySet(src.entries))
    ensures src.Dict? && r.Ok? ==> Get(src.entries, key) == Some(r.value)
  {
    match src
    case Dict(e) => (match Get(e, key) case Some(v) => Ok(v) case None => Err(KeyError(key)))
    case List(_) => Err(TypeError("list indices must " + "be integers or " + "slices, not str"))
    case Str(_, _) => Err(TypeError("string indices must " + "be integers, not " + "'str'"))
    case _ => Err(TypeError("'" + TypeName(src) + "' object is not " + "subscriptable"))
  }

  function SubscriptIndex(src: Value, i: nat): (r: Result<Value>)
    ensures src.List? ==> (r.Ok? <==> i < |src.items|)
    ensures src.List? && r.Ok? ==> r.value == src.items[i]
  {
    match src
    case List(items) => if i < |items| then Ok(items[i]) else Err(IndexError("list index out of range"))
    case Str(s, _) => if i < |s| then Ok(Text([s[i]])) else Err(IndexError("string index out of " + "range"))
    case Dict(_) => Err(KeyError(NatToString(i)))
    case _ => Err(TypeError("'" + TypeName(src) + "' object is not " + "subscriptable"))
  }

  /** `_is_leaf`. */
  predicate IsLeaf(v: Value)
  {
    !v.Dict? && !v.List?
  }

  /**
   * `_copy_into(dst, src)` on values: dst must be a dict or list; each of
   * its keys (or indices) takes src's leaf at the same place, or, where src
   * has a container, is copied into recursively.
   */
  function CopyInto(dst: Value, src: Value): (r: Result<Value>)
    ensures IsLeaf(dst) ==> r == Err(ValueError("The destination " + "must be a " + "dictionary or list."))
    ensures r.Ok? && dst.Dict? ==> r.value.Dict? && Keys(r.value.entries) == Keys(dst.entries)
    ensures r.Ok? && dst.List? ==> r.value.List? && |r.value.items| == |dst.items|
    decreases Depth(dst), 1
  {
    match dst
    case Dict(e) =>
      (match CopyEntries(e, src, 0) case Ok(e2) => (assert e[0..] == e; Ok(Dict(e2))) case Err(err) => Err(err))
    case List(items) =>
      (match CopyItems(items, src, 0) case Ok(i2) => Ok(List(i2)) case Err(err) => Err(err))
    case _ => Err(ValueError("The destination " + "must be a " + "dictionary or list."))
  }

  /** The loop over a dict destination: the copied entries i, i+1, ... in order. */
  function CopyEntries(e: Entries, src: Value, i: nat): (r: Result<Entries>)
    requires i <= |e|
    ensures r.Ok? ==> Keys(r.value) == Keys(e[i..])
    decreases Depth(Dict(e)), 0, |e| - i
  {
    if i == |e| then Ok([])
    else
      match SubscriptKey(src, e[i].0)
      case Err(err) => Err(err)
      case Ok(x) =>
        var c := if IsLeaf(x) then Ok(x) else (DepthEntry(e, i); CopyInto(e[i].1, x));
        if c.Err? then Err(c.error)
        else
          match CopyEntries(e, src, i + 1)
          case Err(err) => Err(err)
          case Ok(rest) =>
            assert e[i..] == [e[i]] + e[i + 1..];
            Ok([(e[i].0, c.value)] + rest)
  }

  /** The loop over a list destination: the copied items i, i+1, ... in order. */
  function CopyItems(items: seq<Value>, src: Value, i: nat): (r: Result<seq<Value>>)
    requires i <= |items|
    ensures r.Ok? ==> |r.value| == |items| - i
    decreases Depth(List(items)), 0, |items| - i
  {
    if i == |items| then Ok([])
    else
      match SubscriptIndex(src, i)
      case Err(err) => Err(err)
      case Ok(x) =>
        var c := if IsLeaf(x) then Ok(x) else (DepthItem(items, i); CopyInto(items[i], x));
        if c.Err? then Err(c.error)
        else
          match CopyItems(items, src, i + 1)
          case Err(err) => Err(err)
          case Ok(rest) => Ok([c.value] + rest)
  }

  /**
   * The resolved value fits the raw copy: where it has a dict, the copy has
   * a dict with the same keys (its own distinct); where it has a list, a list
   * of the same length; anything fits under a leaf.
   */
  predicate Fits(dst: Value, src: Value)
    decreases src
  {
    match src
    case Dict(se) =>
      dst.Dict? && Keys(dst.entries) == Keys(se) && UniqueKeys(se) &&
      forall i | 0 <= i < |se| :: Fits(dst.entries[i].1, se[i].1)
    case List(si) =>
      dst.List? && |dst.items| == |si| && forall i | 0 <= i < |si| :: Fits(dst.items[i], si[i])
    case _ => true
  }

  /** In a dict with distinct keys, each key finds its own entry. */
  lemma {:induction false} GetUnique(e: Entries, i: nat)
    requires UniqueKeys(e) && i < |e|
    ensures Get(e, e[i].0) == Some(e[i].1)
  {
    if i > 0 {
      assert e[0].0 != e[i].0;
      assert e[1..][i - 1] == e[i];
      GetUnique(e[1..], i - 1);
    }
  }

  /** Copying a resolved value into a raw copy it fits gives back the resolved value. */
  lemma {:induction false} CopyIntoFits(dst: Value, src: Value)
    requires Fits(dst, src) && !IsLeaf(src)
    ensures CopyInto(dst, src) == Ok(src)
    decreases src, 2
  {
    if src.Dict? {
      CopyEntriesFits(dst.entries, src, 0);
      assert src.entries[0..] == src.entries;
    } else {
      CopyItemsFits(dst.items, src, 0);
      assert src.items[0..] == src.items;
    }
  }

  lemma {:induction false} CopyEntriesFits(e: Entries, src: Value, i: nat)
    requires src.Dict? && Fits(Dict(e), src) && i <= |e|
    ensures CopyEntries(e, src, i) == Ok(src.entries[i..])
    decreases src, 1, |e| - i
  {
    if i < |e| {
      var se := src.entries;
      var x := se[i].1;
      EntryFits(e, src, i);
      if !IsLeaf(x) {
        assert se[i] in se;
        CopyIntoFits(e[i].1, x);
      }
      CopyEntriesFits(e, src, i + 1);
      CopyEntriesStep(e, src, i);
    } else {
      assert |Keys(e)| == |Keys(src.entries)|;
      assert src.entries[i..] == [];
    }
  }

  /** Entry i of a fitting destination has the source's key, which finds the source's value. */
  lemma EntryFits(e: Entries, src: Value, i: nat)
    requires src.Dict? && Fits(Dict(e), src) && i < |e|
    ensures i < |src.entries| && e[i].0 == src.entries[i].0
    ensures SubscriptKey(src, e[i].0) == Ok(src.entries[i].1)
    ensures Fits(e[i].1, src.entries[i].1)
  {
    var se := src.entries;
    assert Keys(e)[i] == Keys(se)[i];
    GetUnique(se, i);
  }

  /** One more entry copied back: the source's entries from i on. */
  lemma CopyEntriesStep(e: Entries, src: Value, i: nat)
    requires src.Dict? && i < |e| && i < |src.entries| && e[i].0 == src.entries[i].0
    requires SubscriptKey(src, e[i].0) == Ok(src.entries[i].1)
    requires !IsLeaf(src.entries[i].1) ==> CopyInto(e[i].1, src.entries[i].1) == Ok(src.entries[i].1)
    requires CopyEntries(e, src, i + 1) == Ok(src.entries[i + 1..])
    ensures CopyEntries(e, src, i) == Ok(src.entries[i..])
  {
    var se := src.entries;
    var x := se[i].1;
    var c := if IsLeaf(x) then Ok(x) else CopyInto(e[i].1, x);
    assert c == Ok(x);
    assert CopyEntries(e, src, i) == Ok([(e[i].0, x)] + se[i + 1..]);
    assert se[i..] == [se[i]] + se[i + 1..];
  }

  lemma {:induction false} CopyItemsFits(items: seq<Value>, src: Value, i: nat)
    requires src.List? && Fits(List(items), src) && i <= |items|
    ensures CopyItems(items, src, i) == Ok(src.items[i..])
    decreases src, 1, |items| - i
  {
    if i < |items| {
      var si := src.items;
      if !IsLeaf(si[i]) {
        assert si[i] in si;
        CopyIntoFits(items[i], si[i]);
      }
      CopyItemsFits(items, src, i + 1);
      assert si[i..] == [si[i]] + si[i + 1..];
    }
  }

  // ------------------------------------------------------ parser and function tables

  /** The parsers `DEFAULT_PARSERS` names, one per leaf type. */
  datatype DefaultParser =
    | ArithmeticInt | ArithmeticFloat | ToText | LogicParser | SmartDate | SmartDatetime | Identity

  /** `DEFAULT_PARSERS`: the leaf type names and the parser each starts with. */
  function DefaultParsers(): (m: map<string, DefaultParser>)
    ensures m.Keys == {"integer", "float", "string", "boolean", "date", "datetime", "any"}
  {
    map["integer" := ArithmeticInt, "float" := ArithmeticFloat, "string" := ToText,
        "boolean" := LogicParser, "date" := SmartDate, "datetime" := SmartDatetime,
        "any" := Identity]
  }

  /** The parser table after the overrides, applied in their order, each replacing its type's entry. */
  function Overridden<P>(parsers: map<string, P>, overrides: seq<(string, P)>): map<string, P>
  {
    if overrides == [] then parsers
    else
      var last := overrides[|overrides| - 1];
      Overridden(parsers, overrides[..|overrides| - 1])[last.0 := last.1]
  }

  /** The last parser the overrides give for `t`, if they give one. */
  function LastOverride<P>(overrides: seq<(string, P)>, t: string): Option<P>
  {
    if overrides == [] then None
    else if overrides[|overrides| - 1].0 == t then Some(overrides[|overrides| - 1].1)
    else LastOverride(overrides[..|overrides| - 1], t)
  }

  /**
   * The overridden table has the types of the defaults and of the overrides,
   * and a type's parser is its last override, or its default when it has none.
   */
  lemma {:induction false} OverriddenGet<P>(parsers: map<string, P>, overrides: seq<(string, P)>, t: string)
    ensures var m := Overridden(parsers, overrides);
      && (t in m <==> t in parsers || LastOverride(overrides, t).Some?)
      && (LastOverride(overrides, t).Some? ==> m[t] == LastOverride(overrides, t).value)
      && (LastOverride(overrides, t).None? && t in parsers ==> m[t] == parsers[t])
  {
    if overrides != [] {
      OverriddenGet(parsers, overrides[..|overrides| - 1], t);
    }
  }

  /**
   * `_update_parsers`: a copy of the defaults with every override written
   * over it in order; no overrides leaves the defaults as they are.
   */
  method UpdateParsers<P>(defaults: map<string, P>, overrides: Option<seq<(string, P)>>)
    returns (parsers: map<string, P>)
    ensures overrides.None? ==> parsers == defaults
    ensures overrides.Some? ==> parsers == Overridden(defaults, overrides.value)
  {
    parsers := defaults;
    if overrides.Some? {
      var ov := overrides.value;
      var i := 0;
      while i < |ov|
        invariant 0 <= i <= |ov|
        invariant parsers == Overridden(defaults, ov[..i])
      {
        assert ov[..i + 1][..i] == ov[..i];
        parsers := parsers[ov[i].0 := ov[i].1];
        i := i + 1;
      }
      assert ov[..i] == ov;
    }
  }

  /** Overriding a type's parser leaves every default type in the table. */
  lemma OverriddenKeepsDefaults(overrides: seq<(string, DefaultParser)>)
    ensures DefaultParsers().Keys <= Overridden(DefaultParsers(), overrides).Keys
  {
    forall t | t in DefaultParsers()
      ensures t in Overridden(DefaultParsers(), overrides)
    {
      OverriddenGet(DefaultParsers(), overrides, t);
    }
  }

  /** The functions `DEFAULT_FUNCTIONS` can map a name to. */
  datatype Builtin = RawFn | SpliceFn | UpdateShallowFn | UpdateFn | ConcatenateFn

  /** The name each function is published under in the functions module. */
  function BuiltinName(b: Builtin): string
  {
    match b
    case RawFn => "raw"
    case SpliceFn => "splice"
    case UpdateShallowFn => "update_shallow"
    case UpdateFn => "update"
    case ConcatenateFn => "concatenate"
  }

  /** `DEFAULT_FUNCTIONS` as written: the name "update" is bound to `update_shallow`. */
  function DefaultFunctionsAsWritten(): map<string, Builtin>
  {
    map["raw" := RawFn, "splice" := SpliceFn, "update_shallow" := UpdateShallowFn,
        "update" := UpdateShallowFn, "concatenate" := ConcatenateFn]
  }

  /** The table with "update" bound to the recursive `update`. */
  function DefaultFunctions(): map<string, Builtin>
  {
    map["raw" := RawFn, "splice" := SpliceFn, "update_shallow" := UpdateShallowFn,
        "update" := UpdateFn, "concatenate" := ConcatenateFn]
  }

  /** What the two update functions make of a non-empty list of dicts. */
  function Merged(b: Builtin, dicts: seq<Entries>): (r: Entries)
    requires dicts != [] && (b == UpdateShallowFn || b == UpdateFn)
  {
    if b == UpdateShallowFn then DictFunctions.ShallowUpdate(dicts) else Utils.DeepUpdate(dicts)
  }

  /**
   * As written, `__update__` through the default table is the shallow merge:
   * merging `{"a": {"x": 1}}` with `{"a": {"y": 2}}` loses "x", where the
   * recursive `update` keeps it.
   */
  lemma DefaultUpdateAsWrittenIsShallow()
    ensures BuiltinName(DefaultFunctionsAsWritten()["update"]) != "update"
    ensures var dicts := [[("a", Dict([("x", Int(1))]))], [("a", Dict([("y", Int(2))]))]];
      && Merged(DefaultFunctionsAsWritten()["update"], dicts) == [("a", Dict([("y", Int(2))]))]
      && Merged(UpdateFn, dicts) == [("a", Dict([("x", Int(1)), ("y", Int(2))]))]
  {
    var dicts := [[("a", Dict([("x", Int(1))]))], [("a", Dict([("y", Int(2))]))]];
    assert dicts[..1] == [dicts[0]];
    assert Utils.MergeInto([("x", Int(1))], [("y", Int(2))], 0) == [("x", Int(1)), ("y", Int(2))];
  }

  /**
   * In the corrected table every name is bound to the function of that name,
   * so `__update__` keeps the keys nested dicts have on either side.
   */
  lemma DefaultFunctionsByName(dicts: seq<Entries>)
    requires dicts != []
    ensures forall n | n in DefaultFunctions() :: BuiltinName(DefaultFunctions()[n]) == n
    ensures KeySet(Merged(DefaultFunctions()["update"], dicts)) == Utils.AllKeys(dicts)
    ensures Merged(DefaultFunctions()["update"], dicts) == Utils.DeepUpdate(dicts)
  {
    Utils.DeepUpdateKeys(dicts);
  }
}
