// The dict built-ins of src/smartconfig/stdlib/dict.py: update_shallow,
// update and from_items.
module DictFunctions {
  import opened Exceptions
  import opened Config
  import opened Calls
  import Utils

  /** The dicts of a list of dicts. */
  function Dicts(v: Value): (dicts: seq<Entries>)
    requires ListOfDicts(v)
    ensures |dicts| == |v.items|
    ensures forall j :: 0 <= j < |dicts| ==> dicts[j] == v.items[j].entries
  {
    seq(|v.items|, j requires 0 <= j < |v.items| => v.items[j].entries)
  }

  /** The input check of update_shallow and update; `name` is the function's name. */
  function CheckDictList(input: Value, name: string, keypath: KeyPath): (o: Outcome)
    ensures o == Pass <==> ListOfDicts(input) && input.items != []
  {
    if !ListOfDicts(input) then
      Fail(Resolution("Input to '" + name + "' must be a list of " + "dictionaries.", keypath))
    else if |input.items| == 0 then
      Fail(Resolution("Input to '" + name + "' must be a " + "non-empty list of " + "dictionaries.", keypath))
    else Pass
  }

  // ------------------------------------------------------------- update_shallow

  /** `acc.update(upd[i:])`: every entry of upd written into acc, in order. */
  function UpdateFrom(acc: Entries, upd: Entries, i: nat): Entries
    requires i <= |upd|
    decreases |upd| - i
  {
    if i == |upd| then acc else UpdateFrom(Put(acc, upd[i].0, upd[i].1), upd, i + 1)
  }

  lemma {:induction false} UpdateFromOtherKey(acc: Entries, upd: Entries, i: nat, k: string)
    requires i <= |upd|
    requires forall j :: i <= j < |upd| ==> upd[j].0 != k
    decreases |upd| - i
    ensures Get(UpdateFrom(acc, upd, i), k) == Get(acc, k)
  {
    if i < |upd| {
      UpdateFromOtherKey(Put(acc, upd[i].0, upd[i].1), upd, i + 1, k);
    }
  }

  lemma {:induction false} UpdateFromKeys(acc: Entries, upd: Entries, i: nat)
    requires i <= |upd|
    decreases |upd| - i
    ensures KeySet(UpdateFrom(acc, upd, i)) == KeySet(acc) + KeySet(upd[i..])
  {
    if i < |upd| {
      UpdateFromKeys(Put(acc, upd[i].0, upd[i].1), upd, i + 1);
      assert upd[i..] == [upd[i]] + upd[i + 1..];
    }
  }

  /**
   * `dict.update`: a key of `upd` (whose keys are distinct) takes `upd`'s
   * value, any other key keeps `acc`'s; the keys are those of both.
   */
  lemma UpdateGet(acc: Entries, upd: Entries, k: string)
    requires UniqueKeys(upd)
    ensures Get(UpdateFrom(acc, upd, 0), k) == if k in KeySet(upd) then Get(upd, k) else Get(acc, k)
    ensures KeySet(UpdateFrom(acc, upd, 0)) == KeySet(acc) + KeySet(upd)
  {
    UpdateFromKeys(acc, upd, 0);
    assert upd[0..] == upd;
    KeySetIndex(upd, k);
    if k !in KeySet(upd) {
      UpdateFromOtherKey(acc, upd, 0, k);
    } else {
      GetEntry(upd, k);
      var i :| 0 <= i < |upd| && upd[i] == (k, Get(upd, k).value);
      UpdateFromAt(acc, upd, 0, i);
    }
  }

  lemma {:induction false} UpdateFromAt(acc: Entries, upd: Entries, j: nat, i: nat)
    requires UniqueKeys(upd)
    requires j <= i < |upd|
    decreases i - j
    ensures Get(UpdateFrom(acc, upd, j), upd[i].0) == Some(upd[i].1)
  {
    var next := Put(acc, upd[j].0, upd[j].1);
    if j == i {
      UpdateFromOtherKey(next, upd, i + 1, upd[i].0);
    } else {
      UpdateFromAt(next, upd, j + 1, i);
    }
  }

  /** The left fold of `dict.update` over a non-empty list of dicts. */
  function ShallowUpdate(dicts: seq<Entries>): Entries
    requires |dicts| > 0
  {
    if |dicts| == 1 then dicts[0]
    else UpdateFrom(ShallowUpdate(dicts[..|dicts| - 1]), dicts[|dicts| - 1], 0)
  }

  /** The value of k in the last dict that has it. */
  function LastGet(dicts: seq<Entries>, k: string): Option<Value>
  {
    if dicts == [] then None
    else if k in KeySet(dicts[|dicts| - 1]) then Get(dicts[|dicts| - 1], k)
    else LastGet(dicts[..|dicts| - 1], k)
  }

  /**
   * Later dicts replace whole top-level values: every key holds its value from
   * the last dict that has it, and the keys are the union of all keys.
   */
  lemma {:induction false} ShallowUpdateGet(dicts: seq<Entries>, k: string)
    requires |dicts| > 0
    requires forall j :: 0 <= j < |dicts| ==> UniqueKeys(dicts[j])
    ensures Get(ShallowUpdate(dicts), k) == LastGet(dicts, k)
    ensures KeySet(ShallowUpdate(dicts)) == Utils.AllKeys(dicts)
  {
    var n := |dicts| - 1;
    if n == 0 {
      assert dicts[..0] == [];
      assert LastGet(dicts[..0], k) == None;
    } else {
      var prefix := dicts[..n];
      ShallowUpdateGet(prefix, k);
      UpdateGet(ShallowUpdate(prefix), dicts[n], k);
    }
  }

  /**
   * `update_shallow` as written: deep-copy the first dict, then `update` it
   * with each later one. The inputs are values, so none is mutated.
   */
  method UpdateShallow(args: Args) returns (r: Result<Value>)
    ensures CheckDictList(args.input, "update_shallow", args.keypath).Fail? ==>
      r == Err(CheckDictList(args.input, "update_shallow", args.keypath).error)
    ensures CheckDictList(args.input, "update_shallow", args.keypath).Pass? ==>
      r == Ok(Dict(ShallowUpdate(Dicts(args.input))))
  {
    var check := CheckDictList(args.input, "update_shallow", args.keypath);
    if check.Fail? {
      return Err(check.error);
    }
    var dicts := Dicts(args.input);
    var first := dicts[0];
    var j := 1;
    while j < |dicts|
      invariant 1 <= j <= |dicts|
      invariant first == ShallowUpdate(dicts[..j])
    {
      assert dicts[..j + 1][..j] == dicts[..j];
      first := UpdateFrom(first, dicts[j], 0);
      j := j + 1;
    }
    assert dicts[..j] == dicts;
    r := Ok(Dict(first));
  }

  // --------------------------------------------------------------------- update

  /** `update`: the same input checks, then the recursive merge `deep_update`. */
  function Update(args: Args): (r: Result<Value>)
    ensures CheckDictList(args.input, "update", args.keypath).Fail? ==>
      r == Err(CheckDictList(args.input, "update", args.keypath).error)
    ensures CheckDictList(args.input, "update", args.keypath).Pass? ==> r.Ok?
    ensures r.Ok? ==>
      && ListOfDicts(args.input) && args.input.items != []
      && r.value == Dict(Utils.DeepUpdate(Dicts(args.input)))
      && KeySet(r.value.entries) == Utils.AllKeys(Dicts(args.input))
  {
    match CheckDictList(args.input, "update", args.keypath)
    case Fail(e) => Err(e)
    case Pass =>
      Utils.DeepUpdateKeys(Dicts(args.input));
      Ok(Dict(Utils.DeepUpdate(Dicts(args.input))))
  }

  // ----------------------------------------------------------------- from_items

  /** `{"type": "list", "element_schema": {"type": "dict", "required_keys": {"key": any, "value": any}}}`. */
  function ItemsSchema(): Value
  {
    Dict([("type", Text("list")),
          ("element_schema", Dict([("type", Text("dict")),
                                   ("required_keys", Dict([("key", TypeSchema("any")),
                                                           ("value", TypeSchema("any"))]))]))])
  }

  /**
   * The dict built from items[..] by writing item["key"] -> item["value"] in
   * order; an item that is not a dict or whose key is not a string trips an
   * assertion, a missing "key" or "value" is a KeyError.
   */
  function ItemsToDict(items: seq<Value>): Result<Entries>
  {
    if items == [] then Ok([])
    else
      var n := |items| - 1;
      match ItemsToDict(items[..n])
      case Err(e) => Err(e)
      case Ok(dct) => StoreItem(dct, items[n])
  }

  /** One step of the from_items loop. */
  function StoreItem(dct: Entries, item: Value): Result<Entries>
  {
    if !item.Dict? then Err(AssertionFailed)
    else match Get(item.entries, "key")
      case None => Err(KeyError("key"))
      case Some(key) =>
        if !key.Str? then Err(AssertionFailed)
        else match Get(item.entries, "value")
          case None => Err(KeyError("value"))
          case Some(value) => Ok(Put(dct, key.s, value))
  }

  /** The value of the last item whose key is k. */
  function LastItemValue(items: seq<Value>, k: string): Option<Value>
  {
    if items == [] then None
    else
      var item := items[|items| - 1];
      if IsKeyText(item, k) then Get(item.entries, "value")
      else LastItemValue(items[..|items| - 1], k)
  }

  /** The item's "key" is the string k, whatever its marker kind. */
  predicate IsKeyText(item: Value, k: string)
  {
    item.Dict? && Get(item.entries, "key").Some? && IsText(Get(item.entries, "key").value, k)
  }

  /** A later duplicate key overwrites an earlier one: each key maps to its last item's value. */
  lemma {:induction false} ItemsToDictGet(items: seq<Value>, k: string)
    requires ItemsToDict(items).Ok?
    ensures Get(ItemsToDict(items).value, k) == LastItemValue(items, k)
  {
    if items != [] {
      var n := |items| - 1;
      ItemsToDictGet(items[..n], k);
    }
  }

  /**
   * `from_items`: resolves the input as a list of {key, value} dicts, then
   * stores each key's value in order.
   */
  method FromItems(args: Args) returns (r: Result<Value>)
    ensures r.Ok? <==>
      && args.resolve(args.input, ItemsSchema(), []).Ok?
      && args.resolve(args.input, ItemsSchema(), []).value.List?
      && ItemsToDict(args.resolve(args.input, ItemsSchema(), []).value.items).Ok?
    ensures r.Ok? ==>
      r.value == Dict(ItemsToDict(args.resolve(args.input, ItemsSchema(), []).value.items).value)
  {
    var input := args.resolve(args.input, ItemsSchema(), []);
    if input.Err? {
      return Err(input.error);
    }
    if !input.value.List? {
      return Err(AssertionFailed);
    }
    var items := input.value.items;
    var dct: Entries := [];
    var i := 0;
    while i < |items|
      invariant 0 <= i <= |items|
      invariant ItemsToDict(items[..i]) == Ok(dct)
    {
      assert items[..i + 1][..i] == items[..i];
      var stored := StoreItem(dct, items[i]);
      if stored.Err? {
        ItemsToDictPrefixErr(items, i + 1);
        return Err(stored.error);
      }
      dct := stored.value;
      i := i + 1;
    }
    assert items[..i] == items;
    r := Ok(Dict(dct));
  }

  lemma {:induction false} ItemsToDictPrefixErr(items: seq<Value>, n: nat)
    requires n <= |items|
    requires ItemsToDict(items[..n]).Err?
    ensures ItemsToDict(items) == ItemsToDict(items[..n])
    decreases |items| - n
  {
    if n < |items| {
      var m := |items| - 1;
      assert items[..m][..n] == items[..n];
      ItemsToDictPrefixErr(items[..m], n);
    } else {
      assert items[..n] == items;
    }
  }
}
