// The recursive dictionary merge of src/smartconfig/_utils.py.
module Utils {
  import opened Exceptions
  import opened Config

  /**
   * Merging `upd[i..]` into `acc`, entry by entry: when both the stored value
   * and the new value are dicts they are merged recursively, otherwise the new
   * value replaces the stored one (or is appended under a new key).
   */
  function MergeInto(acc: Entries, upd: Entries, i: nat): Entries
    requires i <= |upd|
    decreases Depth(Dict(upd)), |upd| - i
  {
    if i == |upd| then acc
    else MergeInto(MergeEntry(acc, upd, i), upd, i + 1)
  }

  /** The effect of one entry upd[i] on `acc`. */
  function MergeEntry(acc: Entries, upd: Entries, i: nat): Entries
    requires i < |upd|
    decreases Depth(Dict(upd)), 0
  {
    var (key, value) := upd[i];
    match Get(acc, key)
    case Some(Dict(stored)) =>
      if value.Dict? then
        DepthEntry(upd, i);
        Put(acc, key, Dict(MergeInto(stored, value.entries, 0)))
      else Put(acc, key, value)
    case _ => Put(acc, key, value)
  }

  /** `deep_update`: the left fold of the merge over a non-empty list of dicts. */
  function DeepUpdate(dicts: seq<Entries>): Entries
    requires |dicts| > 0
  {
    if |dicts| == 1 then dicts[0]
    else MergeInto(DeepUpdate(dicts[..|dicts| - 1]), dicts[|dicts| - 1], 0)
  }

  /** The largest depth among the dicts after the first; the recursive merges lower it. */
  function LaterDepth(dicts: seq<Entries>): nat
  {
    if |dicts| <= 1 then 0
    else
      var d := Depth(Dict(dicts[|dicts| - 1]));
      var rest := LaterDepth(dicts[..|dicts| - 1]);
      if d > rest then d else rest
  }

  lemma LaterDepthBound(dicts: seq<Entries>, j: nat)
    requires 1 <= j < |dicts|
    ensures Depth(Dict(dicts[j])) <= LaterDepth(dicts)
  {
    if j < |dicts| - 1 {
      LaterDepthBound(dicts[..|dicts| - 1], j);
    }
  }

  /**
   * `deep_update` as the source writes it: copy the first dict, then write
   * every entry of every later dict into the copy, recursing where both
   * sides are dicts. The arguments are values, so they are not mutated.
   */
  method DeepUpdateLoop(dictionaries: seq<Entries>) returns (first: Entries)
    requires |dictionaries| > 0
    ensures first == DeepUpdate(dictionaries)
    decreases LaterDepth(dictionaries)
  {
    first := dictionaries[0];
    var j := 1;
    while j < |dictionaries|
      invariant 1 <= j <= |dictionaries|
      invariant first == DeepUpdate(dictionaries[..j])
    {
      var dct := dictionaries[j];
      ghost var start := first;
      var i := 0;
      while i < |dct|
        invariant 0 <= i <= |dct|
        invariant MergeInto(first, dct, i) == MergeInto(start, dct, 0)
      {
        var (key, value) := dct[i];
        var current := Get(first, key);
        if value.Dict? && current.Some? && current.value.Dict? {
          DepthEntry(dct, i);
          LaterDepthBound(dictionaries, j);
          ghost var pair := [current.value.entries, value.entries];
          assert pair[..1] == [current.value.entries];
          assert LaterDepth(pair) == Depth(value);
          var merged := DeepUpdateLoop([current.value.entries, value.entries]);
          first := Put(first, key, Dict(merged));
        } else {
          first := Put(first, key, value);
        }
        i := i + 1;
      }
      assert dictionaries[..j + 1][..j] == dictionaries[..j];
      j := j + 1;
    }
    assert dictionaries[..|dictionaries|] == dictionaries;
  }

  /** The keys of the merge are the keys of `acc` and of upd[i..]. */
  lemma {:induction false} MergeIntoKeys(acc: Entries, upd: Entries, i: nat)
    requires i <= |upd|
    decreases |upd| - i
    ensures KeySet(MergeInto(acc, upd, i)) == KeySet(acc) + KeySet(upd[i..])
  {
    if i < |upd| {
      MergeIntoKeys(MergeEntry(acc, upd, i), upd, i + 1);
      assert upd[i..] == [upd[i]] + upd[i + 1..];
    }
  }

  /** The union of the key sets of dicts[..n]. */
  function AllKeys(dicts: seq<Entries>): set<string>
  {
    if dicts == [] then {} else AllKeys(dicts[..|dicts| - 1]) + KeySet(dicts[|dicts| - 1])
  }

  /** The result's key set is the union of the key sets of all the input dicts. */
  lemma {:induction false} DeepUpdateKeys(dicts: seq<Entries>)
    requires |dicts| > 0
    ensures KeySet(DeepUpdate(dicts)) == AllKeys(dicts)
  {
    if |dicts| == 1 {
      assert dicts[..0] == [];
    } else {
      DeepUpdateKeys(dicts[..|dicts| - 1]);
      MergeIntoKeys(DeepUpdate(dicts[..|dicts| - 1]), dicts[|dicts| - 1], 0);
      assert dicts[|dicts| - 1][0..] == dicts[|dicts| - 1];
    }
  }

  /** Merging entries whose keys all differ from k leaves k's value alone. */
  lemma {:induction false} MergeIntoOtherKey(acc: Entries, upd: Entries, i: nat, k: string)
    requires i <= |upd|
    requires forall j :: i <= j < |upd| ==> upd[j].0 != k
    decreases |upd| - i
    ensures Get(MergeInto(acc, upd, i), k) == Get(acc, k)
  {
    if i < |upd| {
      MergeIntoOtherKey(MergeEntry(acc, upd, i), upd, i + 1, k);
    }
  }

  /** What one entry with value v makes of the stored value. */
  function Merged(stored: Option<Value>, v: Value): Value
  {
    if v.Dict? && stored.Some? && stored.value.Dict?
    then Dict(MergeInto(stored.value.entries, v.entries, 0))
    else v
  }

  lemma MergeEntryGet(acc: Entries, upd: Entries, i: nat, k: string)
    requires i < |upd|
    ensures Get(MergeEntry(acc, upd, i), k) ==
      if upd[i].0 == k then Some(Merged(Get(acc, k), upd[i].1)) else Get(acc, k)
  {
  }

  /** Merging from the entry i of key k on stores k's merged value: later entries have other keys. */
  lemma MergeIntoGetAt(acc: Entries, upd: Entries, i: nat)
    requires UniqueKeys(upd)
    requires i < |upd|
    ensures Get(MergeInto(acc, upd, i), upd[i].0) == Some(Merged(Get(acc, upd[i].0), upd[i].1))
  {
    var k := upd[i].0;
    var m := MergeEntry(acc, upd, i);
    MergeEntryGet(acc, upd, i, k);
    assert MergeInto(acc, upd, i) == MergeInto(m, upd, i + 1);
    assert forall l :: i + 1 <= l < |upd| ==> upd[l].0 != k;
    MergeIntoOtherKey(m, upd, i + 1, k);
  }

  lemma {:induction false} MergeIntoGetFrom(acc: Entries, upd: Entries, j: nat, i: nat)
    requires UniqueKeys(upd)
    requires j <= i < |upd|
    decreases i - j
    ensures Get(MergeInto(acc, upd, j), upd[i].0) == Some(Merged(Get(acc, upd[i].0), upd[i].1))
  {
    if j == i {
      MergeIntoGetAt(acc, upd, i);
    } else {
      assert upd[j].0 != upd[i].0;
      MergeIntoSkip(acc, upd, j, upd[i].0);
      MergeIntoGetFrom(MergeEntry(acc, upd, j), upd, j + 1, i);
    }
  }

  /** An entry of another key than k passes k by. */
  lemma MergeIntoSkip(acc: Entries, upd: Entries, j: nat, k: string)
    requires j < |upd| && upd[j].0 != k
    ensures Get(MergeEntry(acc, upd, j), k) == Get(acc, k)
    ensures MergeInto(acc, upd, j) == MergeInto(MergeEntry(acc, upd, j), upd, j + 1)
  {
    MergeEntryGet(acc, upd, j, k);
  }

  /**
   * For a key k of a dict `upd` (whose keys are distinct, as in any Python
   * dict), merging `upd` into `acc` stores the recursive merge when both
   * values are dicts and `upd`'s value otherwise. Keys `upd` does not mention
   * keep `acc`'s value.
   */
  lemma MergeIntoGet(acc: Entries, upd: Entries, k: string)
    requires UniqueKeys(upd)
    ensures k !in KeySet(upd) ==> Get(MergeInto(acc, upd, 0), k) == Get(acc, k)
    ensures k in KeySet(upd) ==>
      Get(MergeInto(acc, upd, 0), k) == Some(Merged(Get(acc, k), Get(upd, k).value))
  {
    KeySetIndex(upd, k);
    if k !in KeySet(upd) {
      MergeIntoOtherKey(acc, upd, 0, k);
    } else {
      GetEntry(upd, k);
      var i :| 0 <= i < |upd| && upd[i] == (k, Get(upd, k).value);
      MergeIntoGetFrom(acc, upd, 0, i);
    }
  }

  /** `deep_update([{"a": {"x": 1, "y": 2}}, {"a": {"y": 3}}]) == {"a": {"x": 1, "y": 3}}`. */
  lemma DeepUpdateExample()
    ensures DeepUpdate([[("a", Dict([("x", Int(1)), ("y", Int(2))]))], [("a", Dict([("y", Int(3))]))]])
         == [("a", Dict([("x", Int(1)), ("y", Int(3))]))]
  {
    var inner := [("x", Int(1)), ("y", Int(2))];
    var upd := [("y", Int(3))];
    assert MergeInto(inner, upd, 0) == [("x", Int(1)), ("y", Int(3))] by {
      assert MergeEntry(inner, upd, 0) == [("x", Int(1)), ("y", Int(3))];
    }
    var dicts := [[("a", Dict(inner))], [("a", Dict(upd))]];
    assert dicts[..1] == [[("a", Dict(inner))]];
    assert MergeEntry(dicts[0], dicts[1], 0) == [("a", Dict([("x", Int(1)), ("y", Int(3))]))];
  }
}
