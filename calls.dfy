// The calling convention of configuration functions (FunctionArgs and the
// Resolver protocol of src/smartconfig/types.py), shared by the built-ins.
module Calls {
  import opened Exceptions
  import opened Config

  /**
   * `args.resolve(configuration, schema, local_variables)`: builds a node from
   * a raw configuration under a schema, with extra local variables visible to
   * interpolation, and resolves it. Where the source omits the schema, the
   * calling function's own schema is passed.
   */
  type Resolver = (Value, Value, Entries) -> Result<Value>

  /**
   * The arguments of a call: the (possibly unresolved) input, the keypath of
   * the call, the schema its result must meet, the resolver, and
   * `root.get_keypath` on the lazily resolved root.
   */
  datatype Args = Args(
    input: Value,
    keypath: KeyPath,
    schema: Value,
    resolve: Resolver,
    getKeypath: string -> Result<Value>)

  /** A schema written as a literal dict. */
  function TypeSchema(t: string): Value
  {
    Dict([("type", Text(t))])
  }

  /** `{"type": "list", "element_schema": {"type": "any"}}`. */
  function AnyListSchema(): Value
  {
    Dict([("type", Text("list")), ("element_schema", TypeSchema("any"))])
  }

  /** `dict.get(key)` on a value that must be a dict; anything else has no entry. */
  function Lookup(v: Value, key: string): Option<Value>
  {
    if v.Dict? then Get(v.entries, key) else None
  }

  /** `key in v` for a dict value. */
  predicate Has(v: Value, key: string)
  {
    v.Dict? && key in KeySet(v.entries)
  }

  /** Every element of a list value is a list. */
  predicate ListOfLists(v: Value)
  {
    v.List? && forall i :: 0 <= i < |v.items| ==> v.items[i].List?
  }

  /** Every element of a list value is a dict. */
  predicate ListOfDicts(v: Value)
  {
    v.List? && forall i :: 0 <= i < |v.items| ==> v.items[i].Dict?
  }
}
