// `make_node` of src/smartconfig/_internals.py and its `_populate_*`
// helpers: how a raw configuration and a schema become a tree of dict, list,
// value and function-call nodes, with the schema enforced on the way.
//
// Python builds the node objects while it checks; an error abandons the
// nodes made so far. Here the checks produce a `Tree` value, which the
// resolution engine (module Engine) then places into its node arena, so the
// outcome of a call is the same.
module Nodes {
  import opened Exceptions
  import opened Config
  import Schemas

  /** `ResolutionMode`. */
  datatype Mode = Raw | Standard | Full

  /** What `check_for_function_call` says about a dict. */
  datatype Recognition =
    | NotACall
    | CallOf(name: string, input: Value)
    | InvalidCall(message: string)  // it raised ValueError(message)

  /**
   * The parts of the resolution context `make_node` uses: the function-call
   * recognizer (given the registry) and the calling of a dynamic schema,
   * named by the Callable that stands for it, on a configuration and keypath.
   */
  datatype Builder = Builder(
    recognize: Entries -> Recognition,
    dynamic: (string, Value, KeyPath) -> Value)

  /** The node tree `make_node` builds. */
  datatype Tree =
    | TDict(children: Children)
    | TList(items: seq<Tree>)
    | TValue(value: Value, typeName: string, nullable: bool, keypath: KeyPath)
    | TCall(name: string, input: Value, schema: Value, keypath: KeyPath)

  type Children = seq<(string, Tree)>

  function ChildKeys(c: Children): set<string>
  {
    if c == [] then {} else {c[0].0} + ChildKeys(c[1..])
  }

  /** `children[k]`: the first child under k, None when there is none. */
  function ChildAt(c: Children, k: string): (r: Option<Tree>)
    ensures r.None? <==> k !in ChildKeys(c)
  {
    if c == [] then None else if c[0].0 == k then Some(c[0].1) else ChildAt(c[1..], k)
  }

  /** `children[k] = t`: replaces the child under k in place, or appends it. */
  function SetChild(c: Children, k: string, t: Tree): (r: Children)
    ensures ChildKeys(r) == ChildKeys(c) + {k}
    ensures ChildAt(r, k) == Some(t)
    ensures forall k' | k' != k :: ChildAt(r, k') == ChildAt(c, k')
  {
    if c == [] then [(k, t)]
    else if c[0].0 == k then [(k, t)] + c[1..]
    else [c[0]] + SetChild(c[1..], k, t)
  }

  // ------------------------------------------------------------------ schemas

  /** `schema[k]` of a mapping schema, None when absent. */
  function Field(schema: Entries, k: string): Option<Value>
  {
    Get(schema, k)
  }

  /** A null passes a schema that is nullable or of type "any". */
  predicate NullAllowed(schema: Entries)
  {
    (Field(schema, "nullable").Some? && Truthy(Field(schema, "nullable").value))
    || (Field(schema, "type").Some? && IsText(Field(schema, "type").value, "any"))
  }

  function AnyNullable(): Value
  {
    Dict([("type", Text("any")), ("nullable", Bool(true))])
  }

  /** The schema a dict node uses for a schema of type "any". */
  function AnyDictSchema(): Entries
  {
    [("type", Text("dict")), ("extra_keys_schema", AnyNullable())]
  }

  /** The schema a list node uses for a schema of type "any". */
  function AnyListSchema(): Entries
  {
    [("type", Text("list")), ("element_schema", AnyNullable())]
  }

  /** `dict_schema.get(section, {})`, whose `.items()` must exist. */
  function Section(schema: Entries, section: string): Result<Entries>
  {
    match Field(schema, section)
    case None => Ok([])
    case Some(v) => if v.Dict? then Ok(v.entries) else Err(AttributeError("object has no " + "attribute 'items'"))
  }

  /** The name of a leaf type, as the converters are keyed. */
  function LeafTypeName(t: Value): string
  {
    if t.Str? then t.s else Show(t)
  }

  /** Calling a dynamic schema and validating what it returns. */
  function CallDynamic(b: Builder, name: string, cfg: Value, keypath: KeyPath,
                       validatedAt: KeyPath, allowDefault: bool): (r: Result<Value>)
    ensures r.Ok? ==> r.value == b.dynamic(name, cfg, keypath)
  {
    var actual := b.dynamic(name, cfg, keypath);
    match Schemas.ValidateSchema(actual, validatedAt, allowDefault, true)
    case Fail(e) => Err(e)
    case Pass => Ok(actual)
  }

  // --------------------------------------------------------------- make_node

  /**
   * `make_node(cfg, schema, ..., keypath, mode)`. Python's recursion limit is
   * the fuel: a schema whose defaults or dynamic schemas nest without end
   * exhausts it.
   */
  function Build(b: Builder, cfg: Value, schema: Value, keypath: KeyPath, mode: Mode, fuel: nat): (r: Result<Tree>)
    ensures mode.Raw? && r.Ok? ==> !r.value.TCall?
    ensures cfg.Null? && r.Ok? ==> r.value == TValue(Null, "any", true, keypath)
    ensures cfg.List? && r.Ok? ==> r.value.TList? && |r.value.items| == |cfg.items|
    ensures r.Ok? && r.value.TValue? ==> r.value.value == cfg && r.value.keypath == keypath
    decreases fuel, 3
  {
    if fuel == 0 then Err(RecursionLimit)
    else if schema.Callable? then
      match CallDynamic(b, schema.name, cfg, keypath, [], false)
      case Err(e) => Err(e)
      case Ok(actual) => BuildUnder(b, cfg, actual, keypath, mode, fuel)
    else BuildUnder(b, cfg, schema, keypath, mode, fuel)
  }

  /** `make_node` once any dynamic schema has been called. */
  function BuildUnder(b: Builder, cfg: Value, schema: Value, keypath: KeyPath, mode: Mode, fuel: nat): (r: Result<Tree>)
    requires fuel > 0
    ensures mode.Raw? && r.Ok? ==> !r.value.TCall?
    ensures cfg.Null? && schema.Dict? ==> (r.Ok? <==> NullAllowed(schema.entries))
    ensures cfg.Null? && schema.Dict? && !NullAllowed(schema.entries) ==>
      r == Err(Resolution("Unexpectedly null.", keypath))
    ensures cfg.Null? && r.Ok? ==> r.value == TValue(Null, "any", true, keypath)
    ensures cfg.Dict? && !mode.Raw? && schema.Dict? && b.recognize(cfg.entries).InvalidCall? ==>
      r == Err(Resolution("Invalid function call: " + b.recognize(cfg.entries).message, keypath))
    ensures cfg.Dict? && !mode.Raw? && schema.Dict? && b.recognize(cfg.entries).CallOf? ==>
      r == Ok(TCall(b.recognize(cfg.entries).name, b.recognize(cfg.entries).input, schema, keypath))
    ensures cfg.List? && r.Ok? ==> r.value.TList? && |r.value.items| == |cfg.items|
    ensures r.Ok? && r.value.TValue? ==> r.value.value == cfg && r.value.keypath == keypath
    decreases fuel, 2
  {
    if !schema.Dict? then Err(TypeError("schema is not a mapping"))
    else if cfg.Null? then
      if NullAllowed(schema.entries) then Ok(TValue(Null, "any", true, keypath))
      else Err(Resolution("Unexpectedly null.", keypath))
    else if cfg.Dict? then
      var rec := if mode.Raw? then NotACall else b.recognize(cfg.entries);
      match rec
      case InvalidCall(m) => Err(Resolution("Invalid function call: " + m, keypath))
      case CallOf(name, input) => Ok(TCall(name, input, schema, keypath))
      case NotACall => BuildDict(b, cfg.entries, schema.entries, keypath, mode, fuel)
    else if cfg.List? then BuildList(b, cfg.items, schema.entries, keypath, mode, fuel)
    else
      match Field(schema.entries, "type")
      case None => Err(KeyError("'type'"))
      case Some(t) =>
        if IsText(t, "any") then Ok(TValue(cfg, "any", true, keypath))
        else
          var nullable := Field(schema.entries, "nullable");
          Ok(TValue(cfg, LeafTypeName(t), nullable.Some? && Truthy(nullable.value), keypath))
  }

  /** The schema a dict node is built under: "any" becomes a dict of nullable anything. */
  function DictSchemaOf(schema: Entries): Result<Entries>
  {
    match Field(schema, "type")
    case None => Err(KeyError("'type'"))
    case Some(t) => Ok(if IsText(t, "any") then AnyDictSchema() else schema)
  }

  /** The keys of `dct`, in order, that the schema neither requires nor makes optional. */
  function ExtraKeys(keys: seq<string>, expected: set<string>): (r: seq<string>)
    ensures forall k :: k in r <==> k in keys && k !in expected
  {
    if keys == [] then []
    else (if keys[0] in expected then [] else [keys[0]]) + ExtraKeys(keys[1..], expected)
  }

  /** `_DictNode.from_configuration`: required, then optional, then extra children. */
  function BuildDict(b: Builder, dct: Entries, schema: Entries, keypath: KeyPath, mode: Mode, fuel: nat): (r: Result<Tree>)
    requires fuel > 0
    ensures r.Ok? ==> r.value.TDict?
    decreases fuel, 1
  {
    match DictSchemaOf(schema)
    case Err(e) => Err(e)
    case Ok(s) =>
      match Section(s, "required_keys")
      case Err(e) => Err(e)
      case Ok(required) =>
        match Section(s, "optional_keys")
        case Err(e) => Err(e)
        case Ok(optional) =>
          match RequiredChildren(b, dct, required, keypath, mode, fuel, 0, [])
          case Err(e) => Err(e)
          case Ok(c1) =>
            match OptionalChildren(b, dct, optional, keypath, mode, fuel, 0, c1)
            case Err(e) => Err(e)
            case Ok(c2) =>
              var extras := ExtraKeys(Keys(dct), KeySet(required) + KeySet(optional));
              KeysInKeySet(dct);
              match ExtraChildren(b, dct, extras, Field(s, "extra_keys_schema"), keypath, mode, fuel, 0, c2)
              case Err(e) => Err(e)
              case Ok(c3) => Ok(TDict(c3))
  }

  lemma KeysInKeySet(e: Entries)
    ensures forall k :: k in Keys(e) <==> k in KeySet(e)
  {
    forall k
      ensures k in Keys(e) <==> k in KeySet(e)
    {
      KeySetIndex(e, k);
      if k in KeySet(e) {
        var i :| 0 <= i < |e| && e[i].0 == k;
        assert Keys(e)[i] == k;
      }
    }
  }

  function MissingKeyMessage(k: string): string
  {
    "Dictionary is " + "missing required " + "key \"" + k + "\"."
  }

  function ExtraKeyMessage(k: string): string
  {
    "Dictionary contains " + "unexpected extra " + "key \"" + k + "\"."
  }

  /** `_populate_required_children` from the i-th required key on. */
  function RequiredChildren(b: Builder, dct: Entries, required: Entries, keypath: KeyPath, mode: Mode,
                            fuel: nat, i: nat, acc: Children): (r: Result<Children>)
    requires fuel > 0 && i <= |required|
    ensures r.Ok? ==> ChildKeys(r.value) == ChildKeys(acc) + KeySet(required[i..])
    ensures r.Ok? ==> forall j :: i <= j < |required| ==> required[j].0 in KeySet(dct)
    ensures r.Ok? ==> forall k | ChildAt(r.value, k) != ChildAt(acc, k) ::
      exists j | i <= j < |required| :: required[j].0 == k &&
        Build(b, Get(dct, k).value, required[j].1, keypath + [k], mode, fuel - 1) == Ok(ChildAt(r.value, k).value)
    decreases fuel, 0, |required| - i
  {
    if i == |required| then Ok(acc)
    else
      var k := required[i].0;
      assert required[i..] == [required[i]] + required[i + 1..];
      match Get(dct, k)
      case None => Err(Resolution(MissingKeyMessage(k), keypath + [k]))
      case Some(v) =>
        match Build(b, v, required[i].1, keypath + [k], mode, fuel - 1)
        case Err(e) => Err(e)
        case Ok(t) => RequiredChildren(b, dct, required, keypath, mode, fuel, i + 1, SetChild(acc, k, t))
  }

  /**
   * What `_populate_optional_children` builds for one optional key: the
   * present value under the key's schema, or else the default of the key's
   * (possibly dynamic) schema under that schema, or nothing.
   */
  function OptionalValue(b: Builder, dct: Entries, k: string, ks: Value, keypath: KeyPath): (r: Result<Option<(Value, Value)>>)
    ensures k in KeySet(dct) ==> r == Ok(Some((Get(dct, k).value, ks)))
    ensures k !in KeySet(dct) && ks.Dict? && Get(ks.entries, "default").Some? ==>
      r == Ok(Some((Get(ks.entries, "default").value, ks)))
    ensures k !in KeySet(dct) && ks.Dict? && Get(ks.entries, "default").None? ==> r == Ok(None)
  {
    match Get(dct, k)
    case Some(v) => Ok(Some((v, ks)))
    case None =>
      var resolved :=
        if ks.Callable? then CallDynamic(b, ks.name, Null, keypath + [k], keypath + [k], true)
        else Ok(ks);
      match resolved
      case Err(e) => Err(e)
      case Ok(s) =>
        if !s.Dict? then Err(TypeError("argument is not iterable"))
        else
          match Get(s.entries, "default")
          case None => Ok(None)
          case Some(d) => Ok(Some((d, s)))
  }

  /** The optional keys from the i-th on that get a child: present, or with a default. */
  function Supplied(b: Builder, dct: Entries, optional: Entries, keypath: KeyPath, i: nat): set<string>
    requires i <= |optional|
    decreases |optional| - i
  {
    if i == |optional| then {}
    else
      var o := OptionalValue(b, dct, optional[i].0, optional[i].1, keypath);
      (if o.Ok? && o.value.Some? then {optional[i].0} else {}) + Supplied(b, dct, optional, keypath, i + 1)
  }

  /** The child an optional key got: its present value, or its default, built under its schema. */
  predicate OptionalBuilt(b: Builder, dct: Entries, o: (string, Value), keypath: KeyPath, mode: Mode, fuel: nat,
                          child: Option<Tree>)
    requires fuel > 0
    decreases fuel - 1, 4
  {
    var v := OptionalValue(b, dct, o.0, o.1, keypath);
    v.Ok? && v.value.Some? && child.Some? &&
    Build(b, v.value.value.0, v.value.value.1, keypath + [o.0], mode, fuel - 1) == Ok(child.value)
  }

  /** `_populate_optional_children` from the i-th optional key on. */
  function OptionalChildren(b: Builder, dct: Entries, optional: Entries, keypath: KeyPath, mode: Mode,
                            fuel: nat, i: nat, acc: Children): (r: Result<Children>)
    requires fuel > 0 && i <= |optional|
    ensures r.Ok? ==> ChildKeys(r.value) == ChildKeys(acc) + Supplied(b, dct, optional, keypath, i)
    ensures r.Ok? ==> forall k | ChildAt(r.value, k) != ChildAt(acc, k) ::
      exists j | i <= j < |optional| :: optional[j].0 == k && OptionalBuilt(b, dct, optional[j], keypath, mode, fuel, ChildAt(r.value, k))
    decreases fuel, 0, |optional| - i
  {
    if i == |optional| then Ok(acc)
    else
      var k := optional[i].0;
      match OptionalValue(b, dct, k, optional[i].1, keypath)
      case Err(e) => Err(e)
      case Ok(None) => OptionalChildren(b, dct, optional, keypath, mode, fuel, i + 1, acc)
      case Ok(Some(pair)) =>
        match Build(b, pair.0, pair.1, keypath + [k], mode, fuel - 1)
        case Err(e) => Err(e)
        case Ok(t) => OptionalChildren(b, dct, optional, keypath, mode, fuel, i + 1, SetChild(acc, k, t))
  }

  /** `_populate_extra_children` from the i-th extra key on. */
  function ExtraChildren(b: Builder, dct: Entries, extras: seq<string>, extraSchema: Option<Value>,
                         keypath: KeyPath, mode: Mode, fuel: nat, i: nat, acc: Children): (r: Result<Children>)
    requires fuel > 0 && i <= |extras|
    requires forall k :: k in extras ==> k in KeySet(dct)
    ensures r.Ok? ==> ChildKeys(r.value) == ChildKeys(acc) + Elems(extras[i..])
    ensures i == 0 && extras != [] && extraSchema.None? ==>
      r == Err(Resolution(ExtraKeyMessage(extras[0]), keypath + [extras[0]]))
    ensures r.Ok? ==> forall k | ChildAt(r.value, k) != ChildAt(acc, k) ::
      k in extras[i..] && extraSchema.Some? &&
      Build(b, Get(dct, k).value, extraSchema.value, keypath + [k], mode, fuel - 1) == Ok(ChildAt(r.value, k).value)
    decreases fuel, 0, |extras| - i
  {
    if i == |extras| then Ok(acc)
    else if extraSchema.None? then Err(Resolution(ExtraKeyMessage(extras[0]), keypath + [extras[0]]))
    else
      var k := extras[i];
      assert extras[i..] == [k] + extras[i + 1..];
      match Build(b, Get(dct, k).value, extraSchema.value, keypath + [k], mode, fuel - 1)
      case Err(e) => Err(e)
      case Ok(t) => ExtraChildren(b, dct, extras, extraSchema, keypath, mode, fuel, i + 1, SetChild(acc, k, t))
  }

  /**
   * The element schema `_ListNode.from_configuration` reads: the schema's
   * own, or a nullable `any` when the schema's type is `any`; a missing
   * `type` or `element_schema` is a KeyError.
   */
  function ElementSchema(schema: Entries): (r: Result<Value>)
    ensures Field(schema, "type").None? ==> r == Err(KeyError("'type'"))
    ensures Field(schema, "type").Some? && IsText(Field(schema, "type").value, "any") ==> r == Ok(AnyNullable())
    ensures Field(schema, "type").Some? && !IsText(Field(schema, "type").value, "any") ==>
      r == (if Field(schema, "element_schema").Some? then Ok(Field(schema, "element_schema").value)
            else Err(KeyError("'element_schema'")))
  {
    match Field(schema, "type")
    case None => Err(KeyError("'type'"))
    case Some(t) =>
      var s := if IsText(t, "any") then AnyListSchema() else schema;
      match Field(s, "element_schema")
      case None => Err(KeyError("'element_schema'"))
      case Some(es) => Ok(es)
  }

  /** `_ListNode.from_configuration`: one child per element, in order, each under the element schema. */
  function BuildList(b: Builder, items: seq<Value>, schema: Entries, keypath: KeyPath, mode: Mode, fuel: nat): (r: Result<Tree>)
    requires fuel > 0
    ensures r.Ok? ==> r.value.TList? && |r.value.items| == |items|
    ensures ElementSchema(schema).Err? ==> r == Err(ElementSchema(schema).error)
    ensures ElementSchema(schema).Ok? ==>
      var es := ElementSchema(schema).value;
      (r.Ok? <==> forall j | 0 <= j < |items| :: Build(b, items[j], es, keypath + [NatToString(j)], mode, fuel - 1).Ok?) &&
      (r.Ok? ==> forall j | 0 <= j < |items| ::
        Build(b, items[j], es, keypath + [NatToString(j)], mode, fuel - 1) == Ok(r.value.items[j]))
    decreases fuel, 1
  {
    match ElementSchema(schema)
    case Err(e) => Err(e)
    case Ok(es) =>
      match ListItems(b, items, es, keypath, mode, fuel, 0, [])
      case Err(e) => Err(e)
      case Ok(ts) => Ok(TList(ts))
  }

  /** The children of a list node from the i-th element on, each at keypath + (str(i),). */
  function ListItems(b: Builder, items: seq<Value>, es: Value, keypath: KeyPath, mode: Mode,
                     fuel: nat, i: nat, acc: seq<Tree>): (r: Result<seq<Tree>>)
    requires fuel > 0 && i <= |items| && |acc| == i
    ensures r.Ok? ==> |r.value| == |items| && r.value[..i] == acc
    ensures r.Ok? ==> forall j | i <= j < |items| ::
      Build(b, items[j], es, keypath + [NatToString(j)], mode, fuel - 1) == Ok(r.value[j])
    ensures r.Err? ==> exists j | i <= j < |items| ::
      Build(b, items[j], es, keypath + [NatToString(j)], mode, fuel - 1) == Err(r.error)
    decreases fuel, 0, |items| - i
  {
    if i == |items| then Ok(acc)
    else
      var c := Build(b, items[i], es, keypath + [NatToString(i)], mode, fuel - 1);
      if c.Err? then Err(c.error)
      else
        var rest := ListItems(b, items, es, keypath, mode, fuel, i + 1, acc + [c.value]);
        assert rest.Ok? ==> rest.value[..i] == acc && rest.value[i] == c.value by {
          if rest.Ok? {
            assert rest.value[..i] == rest.value[..i + 1][..i];
            assert rest.value[i] == rest.value[..i + 1][i];
          }
        }
        rest
  }

  // ------------------------------------------------------- what a dict node holds

  /**
   * A dict node has a child for every required key, for every optional key
   * that is present or has a default, and for every other key of the
   * configuration; every required key is present; and without an
   * `extra_keys_schema` there is no other key.
   */
  lemma DictChildKeys(b: Builder, dct: Entries, schema: Entries, keypath: KeyPath, mode: Mode, fuel: nat,
                      s: Entries, required: Entries, optional: Entries)
    requires fuel > 0
    requires DictSchemaOf(schema) == Ok(s)
    requires Section(s, "required_keys") == Ok(required) && Section(s, "optional_keys") == Ok(optional)
    requires BuildDict(b, dct, schema, keypath, mode, fuel).Ok?
    ensures KeySet(required) <= KeySet(dct)
    ensures ChildKeys(BuildDict(b, dct, schema, keypath, mode, fuel).value.children) ==
      KeySet(required) + Supplied(b, dct, optional, keypath, 0) + (KeySet(dct) - KeySet(required) - KeySet(optional))
    ensures Field(s, "extra_keys_schema").None? ==> KeySet(dct) <= KeySet(required) + KeySet(optional)
  {
    KeysInKeySet(dct);
    var c1, c2, extras, c3 := DictSteps(b, dct, schema, keypath, mode, fuel, s, required, optional);
    var expected := KeySet(required) + KeySet(optional);
    assert required[0..] == required;
    forall k | k in KeySet(required)
      ensures k in KeySet(dct)
    {
      KeySetIndex(required, k);
    }
    assert Elems(extras) == KeySet(dct) - expected;
    assert extras[0..] == extras;
  }

  /**
   * Every child of a dict node is built, at the key's own keypath, from
   * the configuration's value under a required key's schema, from an
   * optional key's value or default under its schema, or from an extra
   * key's value under the `extra_keys_schema`.
   */
  lemma DictChildrenBuilt(b: Builder, dct: Entries, schema: Entries, keypath: KeyPath, mode: Mode, fuel: nat,
                          s: Entries, required: Entries, optional: Entries, k: string)
    requires fuel > 0
    requires DictSchemaOf(schema) == Ok(s)
    requires Section(s, "required_keys") == Ok(required) && Section(s, "optional_keys") == Ok(optional)
    requires BuildDict(b, dct, schema, keypath, mode, fuel).Ok?
    requires ChildAt(BuildDict(b, dct, schema, keypath, mode, fuel).value.children, k).Some?
    ensures var child := ChildAt(BuildDict(b, dct, schema, keypath, mode, fuel).value.children, k);
      (exists j | 0 <= j < |required| :: required[j].0 == k &&
         Build(b, Get(dct, k).value, required[j].1, keypath + [k], mode, fuel - 1) == Ok(child.value)) ||
      (exists j | 0 <= j < |optional| :: optional[j].0 == k && OptionalBuilt(b, dct, optional[j], keypath, mode, fuel, child)) ||
      (k in KeySet(dct) && k !in KeySet(required) + KeySet(optional) && Field(s, "extra_keys_schema").Some? &&
       Build(b, Get(dct, k).value, Field(s, "extra_keys_schema").value, keypath + [k], mode, fuel - 1) == Ok(child.value))
  {
    KeysInKeySet(dct);
    var c1, c2, extras, c3 := DictSteps(b, dct, schema, keypath, mode, fuel, s, required, optional);
    if ChildAt(c3, k) != ChildAt(c2, k) {
      assert extras[0..] == extras;
    } else if ChildAt(c2, k) == ChildAt(c1, k) {
      assert ChildAt(c1, k) != ChildAt([], k);
    }
  }

  /** The stages of a dict built without error: required, optional, then extra children. */
  lemma DictSteps(b: Builder, dct: Entries, schema: Entries, keypath: KeyPath, mode: Mode, fuel: nat,
                  s: Entries, required: Entries, optional: Entries)
    returns (c1: Children, c2: Children, extras: seq<string>, c3: Children)
    requires fuel > 0
    requires DictSchemaOf(schema) == Ok(s)
    requires Section(s, "required_keys") == Ok(required) && Section(s, "optional_keys") == Ok(optional)
    requires BuildDict(b, dct, schema, keypath, mode, fuel).Ok?
    requires forall k :: k in Keys(dct) ==> k in KeySet(dct)
    ensures RequiredChildren(b, dct, required, keypath, mode, fuel, 0, []) == Ok(c1)
    ensures OptionalChildren(b, dct, optional, keypath, mode, fuel, 0, c1) == Ok(c2)
    ensures extras == ExtraKeys(Keys(dct), KeySet(required) + KeySet(optional))
    ensures ExtraChildren(b, dct, extras, Field(s, "extra_keys_schema"), keypath, mode, fuel, 0, c2) == Ok(c3)
    ensures BuildDict(b, dct, schema, keypath, mode, fuel) == Ok(TDict(c3))
  {
    c1 := RequiredChildren(b, dct, required, keypath, mode, fuel, 0, []).value;
    c2 := OptionalChildren(b, dct, optional, keypath, mode, fuel, 0, c1).value;
    extras := ExtraKeys(Keys(dct), KeySet(required) + KeySet(optional));
    c3 := ExtraChildren(b, dct, extras, Field(s, "extra_keys_schema"), keypath, mode, fuel, 0, c2).value;
  }

  /** A required key the configuration lacks makes the dict fail; the first one is named. */
  lemma MissingRequiredKey(b: Builder, dct: Entries, schema: Entries, keypath: KeyPath, mode: Mode, fuel: nat,
                           s: Entries, required: Entries, optional: Entries)
    requires fuel > 0
    requires DictSchemaOf(schema) == Ok(s)
    requires Section(s, "required_keys") == Ok(required) && Section(s, "optional_keys") == Ok(optional)
    requires !(KeySet(required) <= KeySet(dct))
    ensures BuildDict(b, dct, schema, keypath, mode, fuel).Err?
    ensures required[0].0 !in KeySet(dct) ==>
      BuildDict(b, dct, schema, keypath, mode, fuel) ==
        Err(Resolution(MissingKeyMessage(required[0].0), keypath + [required[0].0]))
  {
    if BuildDict(b, dct, schema, keypath, mode, fuel).Ok? {
      DictChildKeys(b, dct, schema, keypath, mode, fuel, s, required, optional);
    }
  }

  /**
   * Without an `extra_keys_schema`, once the required and optional children
   * are built, an unexpected key is reported at its own keypath.
   */
  lemma ExtraKeyRejected(b: Builder, dct: Entries, schema: Entries, keypath: KeyPath, mode: Mode, fuel: nat,
                         s: Entries, required: Entries, optional: Entries, c1: Children, c2: Children)
    requires fuel > 0
    requires DictSchemaOf(schema) == Ok(s) && Field(s, "extra_keys_schema").None?
    requires Section(s, "required_keys") == Ok(required) && Section(s, "optional_keys") == Ok(optional)
    requires RequiredChildren(b, dct, required, keypath, mode, fuel, 0, []) == Ok(c1)
    requires OptionalChildren(b, dct, optional, keypath, mode, fuel, 0, c1) == Ok(c2)
    requires !(KeySet(dct) <= KeySet(required) + KeySet(optional))
    ensures ExtraKeys(Keys(dct), KeySet(required) + KeySet(optional)) != []
    ensures var k := ExtraKeys(Keys(dct), KeySet(required) + KeySet(optional))[0];
      k in KeySet(dct) && k !in KeySet(required) + KeySet(optional) &&
      BuildDict(b, dct, schema, keypath, mode, fuel) == Err(Resolution(ExtraKeyMessage(k), keypath + [k]))
  {
    var expected := KeySet(required) + KeySet(optional);
    KeysInKeySet(dct);
    var k :| k in KeySet(dct) && k !in expected;
    assert k in ExtraKeys(Keys(dct), expected);
  }

  /** A dict under the schema {"type": "any"} keeps every key it has. */
  lemma AnyDictKeepsAll(b: Builder, dct: Entries, schema: Entries, keypath: KeyPath, mode: Mode, fuel: nat)
    requires fuel > 0
    requires Field(schema, "type") == Some(Text("any"))
    requires BuildDict(b, dct, schema, keypath, mode, fuel).Ok?
    ensures ChildKeys(BuildDict(b, dct, schema, keypath, mode, fuel).value.children) == KeySet(dct)
  {
    var s := AnyDictSchema();
    assert DictSchemaOf(schema) == Ok(s);
    assert Section(s, "required_keys") == Ok([]);
    assert Section(s, "optional_keys") == Ok([]);
    DictChildKeys(b, dct, schema, keypath, mode, fuel, s, [], []);
  }
}
