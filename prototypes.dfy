// Prototypes (src/smartconfig/_prototypes.py): configuration schemas written
// as classes with annotated fields. Python's typing reflection is replaced by a
// datatype of type hints, a prototype class by its ordered list of fields
// (inherited ones included, as `get_type_hints` lists them), and an instance by
// the value or absence of each defined field plus the names of its other
// attributes.
module Prototypes {
  import opened Exceptions
  import opened Config
  import Strings
  import Schemas
  import SchemaGrammar

  // ------------------------------------------------------------------ hints

  /** The keys of `_TYPE_MAP`. */
  datatype BuiltinType = StrType | IntType | FloatType | BoolType | DateType | DatetimeType

  /** `_TYPE_MAP`: the schema type each builtin class stands for. */
  function TypeMap(t: BuiltinType): (name: string)
    ensures name in Schemas.ValueTypes
  {
    match t
    case StrType => "string"
    case IntType => "integer"
    case FloatType => "float"
    case BoolType => "boolean"
    case DateType => "date"
    case DatetimeType => "datetime"
  }

  /** A type hint as `typing.get_origin` / `typing.get_args` take it apart. */
  datatype Hint =
    | Builtin(t: BuiltinType)
    | AnyHint                     // typing.Any
    | NoneHint                    // type(None)
    | PrototypeBase               // the class Prototype itself
    | ProtoSub(cls: ProtoClass)   // a subclass of Prototype
    | OtherType(name: string)     // any other class, bare `list` and `dict` included
    | ListOf(args: seq<Hint>)     // list[...]
    | DictOf(args: seq<Hint>)     // dict[...]
    | Union(args: seq<Hint>)      // T | U, Optional[T]
    | NotRequiredOf(inner: Hint)  // NotRequired[T]

  /** A prototype class: its name and its annotated fields in definition order. */
  datatype ProtoClass = ProtoClass(name: string, fields: seq<Field>)

  /** An annotated field; `default` is None when the class gives it no value (`_MISSING`). */
  datatype Field = Field(name: string, hint: Hint, default: Option<Obj>)

  /**
   * A Python value a prototype field can hold: a configuration value, a list or
   * dict that may hold prototype instances, or an instance. An instance keeps,
   * per defined field, its value or its absence, and the names of the
   * attributes it has beyond the defined fields.
   */
  datatype Obj =
    | Val(v: Value)
    | ListObj(items: seq<Obj>)
    | DictObj(entries: seq<(string, Obj)>)
    | Instance(cls: ProtoClass, present: seq<Option<Obj>>, extras: set<string>)

  /** What `is_prototype_class` may be given: a class, or any other object. */
  datatype PyObject = TypeObject(hint: Hint) | ValueObject(value: Obj)

  /** An instance has a slot for every defined field, and its extra attributes are not fields. */
  predicate Shaped(o: Obj)
  {
    o.Instance? ==>
      |o.present| == |o.cls.fields| &&
      forall i | 0 <= i < |o.cls.fields| :: o.cls.fields[i].name !in o.extras
  }

  /** The names of a class's fields are distinct (they are the keys of a dict of annotations). */
  predicate DistinctNames(c: ProtoClass)
  {
    forall i, j | 0 <= i < j < |c.fields| :: c.fields[i].name != c.fields[j].name
  }

  /** `is_prototype_class`: a class, a subclass of Prototype, and not Prototype itself. */
  predicate IsPrototypeClass(x: PyObject)
  {
    x.TypeObject? && x.hint.ProtoSub?
  }

  /** The class of a configuration value, as a hint. */
  function PlainType(v: Value): Hint
  {
    match v
    case Null => NoneHint
    case Bool(_) => Builtin(BoolType)
    case Int(_) => Builtin(IntType)
    case Float(_) => Builtin(FloatType)
    case Str(_, kind) => if kind == StrKind.Plain then Builtin(StrType) else OtherType(TypeName(v))
    case Date(_) => Builtin(DateType)
    case DateTime(_) => Builtin(DatetimeType)
    case _ => OtherType(TypeName(v))
  }

  /** `type(o)`. */
  function TypeOf(o: Obj): (t: PyObject)
    ensures t.TypeObject?
  {
    match o
    case Val(v) => TypeObject(PlainType(v))
    case ListObj(_) => TypeObject(OtherType("list"))
    case DictObj(_) => TypeObject(OtherType("dict"))
    case Instance(c, _, _) => TypeObject(ProtoSub(c))
  }

  /**
   * `is_prototype_class` holds of the subclasses and of nothing else: not of
   * Prototype, not of other classes, not of instances; and the class of an
   * object is a prototype class exactly when the object is an instance.
   */
  lemma PrototypeClasses(c: ProtoClass, h: Hint, o: Obj)
    ensures IsPrototypeClass(TypeObject(ProtoSub(c)))
    ensures !IsPrototypeClass(TypeObject(PrototypeBase))
    ensures !IsPrototypeClass(ValueObject(o))
    ensures IsPrototypeClass(TypeObject(h)) <==> h.ProtoSub?
    ensures IsPrototypeClass(TypeOf(o)) <==> o.Instance?
  {
  }

  // ------------------------------------------------------------- unwrapping

  /** `_is_nullable_type`: a union of exactly two members, exactly one of them None. */
  predicate IsNullable(h: Hint)
  {
    h.Union? && |h.args| == 2 && (h.args[0] == NoneHint) != (h.args[1] == NoneHint)
  }

  /** `_unwrap_nullable`: the member of a nullable union that is not None. */
  function NonNull(h: Hint): (r: Hint)
    requires IsNullable(h)
    ensures r != NoneHint && (r == h.args[0] || r == h.args[1])
  {
    if h.args[0] != NoneHint then h.args[0] else h.args[1]
  }

  /** `_unwrap_type_hint`: NotRequired[T] to T, then T | None to T. */
  function Unwrap(h: Hint): (r: Hint)
    ensures !h.NotRequiredOf? && !IsNullable(h) ==> r == h
    ensures h.NotRequiredOf? && !IsNullable(h.inner) ==> r == h.inner
  {
    var t := if h.NotRequiredOf? then h.inner else h;
    if IsNullable(t) then NonNull(t) else t
  }

  /** `_is_supported_type_hint`, on the unwrapped hint. */
  predicate IsSupported(h: Hint)
    decreases h, 1
  {
    SupportedCore(Unwrap(h))
  }

  /**
   * The forms a field may take once unwrapped: a prototype class, `list[T]`,
   * `dict[str, T]` with T supported, a builtin, or Any.
   */
  predicate SupportedCore(h: Hint)
    decreases h, 0
  {
    match h
    case ProtoSub(_) => true
    case ListOf(args) => |args| == 1 && IsSupported(args[0])
    case DictOf(args) => |args| == 2 && args[0] == Builtin(StrType) && IsSupported(args[1])
    case Builtin(_) => true
    case AnyHint => true
    case _ => false
  }

  /**
   * Only one NotRequired and one `| None` are unwrapped, in that order: a
   * nullable NotRequired, a doubly wrapped hint and a union of anything else
   * are rejected.
   */
  lemma UnsupportedWrappings(t: Hint, u: Hint)
    ensures IsSupported(NotRequiredOf(Union([Builtin(IntType), NoneHint])))
    ensures !IsSupported(Union([NotRequiredOf(Builtin(IntType)), NoneHint]))
    ensures !IsSupported(NotRequiredOf(NotRequiredOf(Builtin(IntType))))
    ensures NoneHint !in {t, u} ==> !IsSupported(Union([t, u]))
    ensures !IsSupported(DictOf([Builtin(IntType), Builtin(IntType)]))
    ensures !IsSupported(OtherType("list")) && !IsSupported(PrototypeBase) && !IsSupported(NoneHint)
  {
  }

  /**
   * What `__init_subclass__` has checked of a class and of every prototype
   * class its fields mention: each field's hint is supported and the field
   * names are distinct.
   */
  predicate ClassDefined(c: ProtoClass)
    decreases c, 2
  {
    DistinctNames(c) &&
    forall i | 0 <= i < |c.fields| :: HintDefined(c.fields[i].hint)
  }

  /** A supported hint whose prototype classes are all defined. */
  predicate HintDefined(h: Hint)
    decreases h, 1
  {
    DefinedCore(Unwrap(h))
  }

  predicate DefinedCore(h: Hint)
    decreases h, 0
  {
    match h
    case ProtoSub(c) => ClassDefined(c)
    case ListOf(args) => |args| == 1 && HintDefined(args[0])
    case DictOf(args) => |args| == 2 && args[0] == Builtin(StrType) && HintDefined(args[1])
    case Builtin(_) => true
    case AnyHint => true
    case _ => false
  }

  /** A defined hint is one `_is_supported_type_hint` accepts. */
  lemma {:induction false} DefinedIsSupported(h: Hint)
    requires HintDefined(h)
    ensures IsSupported(h)
    decreases h
  {
    var u := Unwrap(h);
    match u
    case ListOf(args) => DefinedIsSupported(args[0]);
    case DictOf(args) => DefinedIsSupported(args[1]);
    case _ =>
  }

  // ------------------------------------------------------------ to a schema

  /** NotRequired[T] to T, the only unwrapping `_type_to_schema` does up front. */
  function StripNotRequired(h: Hint): Hint
  {
    if h.NotRequiredOf? then h.inner else h
  }

  /**
   * `_type_to_schema` for a defined hint: builtins and Any become value
   * schemas, a prototype class its class schema, `list[T]` and `dict[str, T]`
   * list and dict schemas, and `T | None` the schema of T marked nullable.
   */
  function TypeToSchema(h: Hint): (s: Value)
    requires HintDefined(h)
    ensures s.Dict? && Get(s.entries, "type").Some?
    decreases h, 2
  {
    var t := StripNotRequired(h);
    StrippedDefined(h);
    match t
    case Builtin(b) => Dict([("type", Text(TypeMap(b)))])
    case AnyHint => Dict([("type", Text("any"))])
    case ProtoSub(c) => ClassSchema(c)
    case ListOf(args) => Dict([("type", Text("list")), ("element_schema", TypeToSchema(args[0]))])
    case DictOf(args) => Dict([("type", Text("dict")), ("extra_keys_schema", TypeToSchema(args[1]))])
    case Union(args) =>
      var n := NonNull(t);
      assert n in args;
      var inner := TypeToSchema(n);
      Dict(Put(inner.entries, "nullable", Bool(true)))
    case _ => assert false; Dict([])
  }

  /**
   * What a defined hint looks like once NotRequired is stripped: a defined
   * core form, or a nullable union whose other member is a defined hint.
   */
  lemma StrippedDefined(h: Hint)
    requires HintDefined(h)
    ensures !StripNotRequired(h).NotRequiredOf?
    ensures IsNullable(StripNotRequired(h)) ==> HintDefined(NonNull(StripNotRequired(h)))
    ensures !IsNullable(StripNotRequired(h)) ==> DefinedCore(StripNotRequired(h))
  {
    var t := StripNotRequired(h);
    assert Unwrap(h) == if IsNullable(t) then NonNull(t) else t;
    if IsNullable(t) {
      var n := NonNull(t);
      assert DefinedCore(n);
      assert !n.NotRequiredOf? && !n.Union?;
      assert Unwrap(n) == n;
    }
  }

  /** A field lands under "optional_keys" when it has a default or is NotRequired. */
  predicate IsOptional(f: Field)
  {
    f.default.Some? || f.hint.NotRequiredOf?
  }

  /**
   * The schema of one field: its hint's schema, with its default (in dict form)
   * under "default" when it has one.
   */
  function FieldSchema(f: Field): (s: Value)
    requires HintDefined(f.hint)
    ensures s.Dict?
    decreases f.hint, 3
  {
    var s := TypeToSchema(f.hint).entries;
    if f.default.Some? then Dict(Put(s, "default", ToDictValue(f.default.value))) else Dict(s)
  }

  /** The entries of the first n fields that are optional (or, with `optional` false, required). */
  function FieldSchemas(c: ProtoClass, n: nat, optional: bool): (e: Entries)
    requires n <= |c.fields| && ClassDefined(c)
    decreases c, 0, n
  {
    if n == 0 then []
    else
      var f := c.fields[n - 1];
      var rest := FieldSchemas(c, n - 1, optional);
      if IsOptional(f) == optional then rest + [(f.name, FieldSchema(f))] else rest
  }

  /** One more field: its entry joins the section it belongs to. */
  lemma FieldSchemasSnoc(c: ProtoClass, i: nat, optional: bool)
    requires ClassDefined(c) && i < |c.fields|
    ensures FieldSchemas(c, i + 1, optional) ==
      if IsOptional(c.fields[i]) == optional
      then FieldSchemas(c, i, optional) + [(c.fields[i].name, FieldSchema(c.fields[i]))]
      else FieldSchemas(c, i, optional)
  {
  }

  /** The section named `key`, left out when it would be empty. */
  function Section(key: string, e: Entries): Entries
  {
    if e == [] then [] else [(key, Dict(e))]
  }

  /** `Prototype._schema`: a dict schema with the required and the optional fields. */
  function ClassSchema(c: ProtoClass): (s: Value)
    requires ClassDefined(c)
    ensures s.Dict? && Get(s.entries, "type") == Some(Text("dict"))
    decreases c, 1
  {
    Dict([("type", Text("dict"))]
      + Section("required_keys", FieldSchemas(c, |c.fields|, false))
      + Section("optional_keys", FieldSchemas(c, |c.fields|, true)))
  }

  /** `Prototype._schema`, building the two sections in one pass over the fields. */
  method Schema(c: ProtoClass) returns (s: Value)
    requires ClassDefined(c)
    ensures s == ClassSchema(c)
  {
    var required: Entries := [];
    var optional: Entries := [];
    var i := 0;
    while i < |c.fields|
      invariant 0 <= i <= |c.fields|
      invariant required == FieldSchemas(c, i, false)
      invariant optional == FieldSchemas(c, i, true)
    {
      var f := c.fields[i];
      var fieldSchema := TypeToSchema(f.hint).entries;
      if f.default.Some? {
        fieldSchema := Put(fieldSchema, "default", ToDictValue(f.default.value));
      }
      assert Dict(fieldSchema) == FieldSchema(f);
      FieldSchemasSnoc(c, i, false);
      FieldSchemasSnoc(c, i, true);
      if f.default.Some? || f.hint.NotRequiredOf? {
        optional := optional + [(f.name, Dict(fieldSchema))];
      } else {
        required := required + [(f.name, Dict(fieldSchema))];
      }
      i := i + 1;
    }
    var result: Entries := [("type", Text("dict"))];
    if required != [] {
      result := result + [("required_keys", Dict(required))];
    }
    if optional != [] {
      result := result + [("optional_keys", Dict(optional))];
    }
    s := Dict(result);
  }

  // -------------------------------------------------------------- to a dict

  /** `_to_dict_value`: instances become their dicts, through lists and dicts. */
  function ToDictValue(o: Obj): Value
    decreases o, 2, 0
  {
    match o
    case Val(v) => v
    case ListObj(items) => List(seq(|items|, i requires 0 <= i < |items| => ToDictValue(items[i])))
    case DictObj(e) => Dict(seq(|e|, i requires 0 <= i < |e| => (e[i].0, ToDictValue(e[i].1))))
    case Instance(c, _, _) => Dict(AsDictOf(o, |c.fields|))
  }

  /** Whether an instance has the i-th defined field set. */
  predicate Has(o: Obj, i: nat)
    requires o.Instance?
  {
    i < |o.present| && o.present[i].Some?
  }

  /** The entries `_as_dict` makes of the first n fields: the present ones, in dict form. */
  function AsDictOf(o: Obj, n: nat): Entries
    requires o.Instance? && n <= |o.cls.fields|
    decreases o, 1, n
  {
    if n == 0 then []
    else
      var rest := AsDictOf(o, n - 1);
      if Has(o, n - 1) then rest + [(o.cls.fields[n - 1].name, ToDictValue(o.present[n - 1].value))]
      else rest
  }

  /** `Prototype._as_dict`. */
  method AsDict(self: Obj) returns (r: Entries)
    requires self.Instance?
    ensures r == AsDictOf(self, |self.cls.fields|)
  {
    r := [];
    var i := 0;
    while i < |self.cls.fields|
      invariant 0 <= i <= |self.cls.fields|
      invariant r == AsDictOf(self, i)
    {
      if i < |self.present| && self.present[i].Some? {
        r := r + [(self.cls.fields[i].name, ToDictValue(self.present[i].value))];
      }
      i := i + 1;
    }
  }

  // ------------------------------------------------------------- __init__

  function MissingFieldMessage(name: string): string
  {
    "missing required field '" + name + "'"
  }

  /** A field `__init__` cannot fill: not given, no default, and not NotRequired. */
  predicate Missing(f: Field, kwargs: map<string, Obj>)
  {
    f.name !in kwargs && f.default.None? && !f.hint.NotRequiredOf?
  }

  /** What `__init__` sets a field to: the keyword argument, else the default, else nothing. */
  function Supplied(f: Field, kwargs: map<string, Obj>): Option<Obj>
  {
    if f.name in kwargs then Some(kwargs[f.name]) else f.default
  }

  /** The slots `__init__` fills for `fields`, in order; the first missing field stops it. */
  function InitFields(fields: seq<Field>, kwargs: map<string, Obj>): (r: Result<seq<Option<Obj>>>)
  {
    if fields == [] then Ok([])
    else
      var f := fields[|fields| - 1];
      match InitFields(fields[..|fields| - 1], kwargs)
      case Err(e) => Err(e)
      case Ok(slots) =>
        if Missing(f, kwargs) then Err(TypeError(MissingFieldMessage(f.name)))
        else Ok(slots + [Supplied(f, kwargs)])
  }

  /** `cls(**kwargs)`: an instance with no extra attributes, or the missing-field error. */
  function Construct(c: ProtoClass, kwargs: map<string, Obj>): (r: Result<Obj>)
  {
    match InitFields(c.fields, kwargs)
    case Err(e) => Err(e)
    case Ok(slots) => Ok(Instance(c, slots, {}))
  }

  /** An error on a prefix of the fields is the error on all of them. */
  lemma {:induction false} InitFieldsPrefixErr(fields: seq<Field>, kwargs: map<string, Obj>, n: nat)
    requires n <= |fields| && InitFields(fields[..n], kwargs).Err?
    ensures InitFields(fields, kwargs) == InitFields(fields[..n], kwargs)
  {
    if n < |fields| {
      var init := fields[..|fields| - 1];
      assert init[..n] == fields[..n];
      InitFieldsPrefixErr(init, kwargs, n);
    } else {
      assert fields[..n] == fields;
    }
  }

  /**
   * `__init__` succeeds exactly when no field is missing; then every field
   * holds its keyword argument, else its default, and a NotRequired field
   * with neither is left unset. Otherwise it names the first missing field.
   */
  lemma {:induction false} InitFieldsSpec(fields: seq<Field>, kwargs: map<string, Obj>)
    ensures InitFields(fields, kwargs).Ok? <==> forall i | 0 <= i < |fields| :: !Missing(fields[i], kwargs)
    ensures InitFields(fields, kwargs).Ok? ==>
      |InitFields(fields, kwargs).value| == |fields| &&
      forall i | 0 <= i < |fields| :: InitFields(fields, kwargs).value[i] == Supplied(fields[i], kwargs)
    ensures InitFields(fields, kwargs).Err? ==>
      exists i | 0 <= i < |fields| ::
        && Missing(fields[i], kwargs)
        && (forall j | 0 <= j < i :: !Missing(fields[j], kwargs))
        && InitFields(fields, kwargs).error == TypeError(MissingFieldMessage(fields[i].name))
  {
    if fields != [] {
      var init := fields[..|fields| - 1];
      InitFieldsSpec(init, kwargs);
      assert forall i | 0 <= i < |init| :: init[i] == fields[i];
    }
  }

  /** `Prototype.__init__`: sets each defined field from the keyword arguments or its default. */
  method Init(c: ProtoClass, kwargs: map<string, Obj>) returns (r: Result<Obj>)
    ensures r == Construct(c, kwargs)
  {
    var slots: seq<Option<Obj>> := [];
    var i := 0;
    while i < |c.fields|
      invariant 0 <= i <= |c.fields|
      invariant InitFields(c.fields[..i], kwargs) == Ok(slots)
    {
      var f := c.fields[i];
      assert c.fields[..i + 1][..i] == c.fields[..i];
      if f.name in kwargs {
        slots := slots + [Some(kwargs[f.name])];
      } else if f.default.Some? {
        slots := slots + [f.default];
      } else if f.hint.NotRequiredOf? {
        slots := slots + [None];
      } else {
        InitFieldsPrefixErr(c.fields, kwargs, i + 1);
        return Err(TypeError(MissingFieldMessage(f.name)));
      }
      i := i + 1;
    }
    assert c.fields[..i] == c.fields;
    r := Ok(Instance(c, slots, {}));
  }

  /** An instance `__init__` builds is shaped, and its class is the one called. */
  lemma ConstructShaped(c: ProtoClass, kwargs: map<string, Obj>)
    ensures Construct(c, kwargs).Ok? ==>
      Shaped(Construct(c, kwargs).value) && Construct(c, kwargs).value.cls == c &&
      Construct(c, kwargs).value.extras == {}
  {
    InitFieldsSpec(c.fields, kwargs);
  }

  // --------------------------------------------------------------- __eq__

  /**
   * `Prototype.__eq__`: the other object is an instance of the same class,
   * every defined field is set in both or in neither and set to equal values,
   * and both have the same extra attribute names. For shaped instances this is
   * exactly equality of the model's values.
   */
  method Eq(self: Obj, other: Obj) returns (r: bool)
    requires self.Instance? && Shaped(self) && Shaped(other)
    ensures r <==> self == other
    ensures r ==> IsPrototypeClass(TypeOf(other))
  {
    if !IsPrototypeClass(TypeOf(other)) {
      return false;
    }
    if other.cls != self.cls {
      return false;
    }
    var i := 0;
    while i < |self.cls.fields|
      invariant 0 <= i <= |self.cls.fields|
      invariant forall j | 0 <= j < i :: self.present[j] == other.present[j]
    {
      var selfHas := self.present[i].Some?;
      var otherHas := other.present[i].Some?;
      if selfHas != otherHas {
        return false;
      }
      if selfHas && self.present[i].value != other.present[i].value {
        return false;
      }
      i := i + 1;
    }
    assert self.present == other.present;
    r := self.extras == other.extras;
  }

  // ------------------------------------------------------------- __repr__

  /** `repr(o)`; configuration values as Python writes them, instances by `__repr__`. */
  function ReprObj(o: Obj): string
    decreases o, 2, 0
  {
    match o
    case Val(v) => Repr(v)
    case ListObj(items) =>
      "[" + Strings.Join(seq(|items|, i requires 0 <= i < |items| => ReprObj(items[i])), ", ") + "]"
    case DictObj(e) =>
      "{" + Strings.Join(seq(|e|, i requires 0 <= i < |e| => Repr(Text(e[i].0)) + ": " + ReprObj(e[i].1)), ", ") + "}"
    case Instance(c, _, _) => c.name + "(" + Strings.Join(FieldReprs(o, |c.fields|), ", ") + ")"
  }

  /** `name=repr(value)` for each of the first n fields that is set. */
  function FieldReprs(o: Obj, n: nat): seq<string>
    requires o.Instance? && n <= |o.cls.fields|
    decreases o, 1, n
  {
    if n == 0 then []
    else
      var rest := FieldReprs(o, n - 1);
      if Has(o, n - 1) then rest + [o.cls.fields[n - 1].name + "=" + ReprObj(o.present[n - 1].value)]
      else rest
  }

  /** `Prototype.__repr__`. */
  method ReprInstance(self: Obj) returns (r: string)
    requires self.Instance?
    ensures r == ReprObj(self)
  {
    var fieldStrs: seq<string> := [];
    var i := 0;
    while i < |self.cls.fields|
      invariant 0 <= i <= |self.cls.fields|
      invariant fieldStrs == FieldReprs(self, i)
    {
      if i < |self.present| && self.present[i].Some? {
        fieldStrs := fieldStrs + [self.cls.fields[i].name + "=" + ReprObj(self.present[i].value)];
      }
      i := i + 1;
    }
    r := self.cls.name + "(" + Strings.Join(fieldStrs, ", ") + ")";
  }

  // ------------------------------------------------------------ _from_dict

  /** `for item in v`: a list's items, a string's characters, a dict's keys. */
  function Iterate(v: Value): (r: Result<seq<Value>>)
    ensures v.List? ==> r == Ok(v.items)
    ensures r.Err? <==> !v.List? && !v.Str? && !v.Dict?
  {
    match v
    case List(items) => Ok(items)
    case Str(s, _) => Ok(seq(|s|, i requires 0 <= i < |s| => Text([s[i]])))
    case Dict(e) => Ok(seq(|e|, i requires 0 <= i < |e| => Text(e[i].0)))
    case _ => Err(TypeError("'" + TypeName(v) + "' object is not iterable"))
  }

  /** `v.items()`, which only a dict has. */
  function ItemsOf(v: Value): (r: Result<Entries>)
    ensures r.Ok? <==> v.Dict?
  {
    if v.Dict? then Ok(v.entries)
    else Err(AttributeError("'" + TypeName(v) + "' object has no " + "attribute 'items'"))
  }

  /** A comprehension's results: all the values, or the first error. */
  function AllOk(rs: seq<Result<Obj>>): (r: Result<seq<Obj>>)
    ensures r.Ok? ==> |r.value| == |rs|
  {
    if rs == [] then Ok([])
    else
      match AllOk(rs[..|rs| - 1])
      case Err(e) => Err(e)
      case Ok(done) =>
        if rs[|rs| - 1].Err? then Err(rs[|rs| - 1].error) else Ok(done + [rs[|rs| - 1].value])
  }

  /**
   * `_convert_value`: a prototype class rebuilds its instance from a dict,
   * `list[T]` and `dict[str, T]` convert their elements, anything else is kept.
   * With `unwrap` false this is the code as written, which does not look
   * through NotRequired[T] or T | None; with `unwrap` true it first removes
   * NotRequired and, for a value that is not None, the `| None`.
   */
  function Converted(h: Hint, v: Value, unwrap: bool): (r: Result<Obj>)
    decreases h, 1
  {
    if unwrap && h.NotRequiredOf? then Converted(h.inner, v, unwrap)
    else if unwrap && IsNullable(h) then
      (if v.Null? then Ok(Val(Null)) else Converted(NonNull(h), v, unwrap))
    else
      match h
      case ProtoSub(c) => FromDictWith(c, v, unwrap)
      case ListOf(args) =>
        if |args| != 1 then Err(AssertionFailed)
        else
          (match Iterate(v)
           case Err(e) => Err(e)
           case Ok(xs) =>
             var rs := AllOk(seq(|xs|, i requires 0 <= i < |xs| => Converted(args[0], xs[i], unwrap)));
             if rs.Err? then Err(rs.error) else Ok(ListObj(rs.value)))
      case DictOf(args) =>
        if |args| != 2 then Err(AssertionFailed)
        else
          (match ItemsOf(v)
           case Err(e) => Err(e)
           case Ok(e) =>
             var rs := AllOk(seq(|e|, i requires 0 <= i < |e| => Converted(args[1], e[i].1, unwrap)));
             if rs.Err? then Err(rs.error)
             else Ok(DictObj(seq(|e|, i requires 0 <= i < |e| => (e[i].0, rs.value[i])))))
      case _ => Ok(Val(v))
  }

  /** The keyword arguments `_from_dict` collects from the first n fields: those `data` has, converted. */
  function KwargsFrom(c: ProtoClass, data: Entries, n: nat, unwrap: bool): (r: Result<map<string, Obj>>)
    requires n <= |c.fields|
    decreases c, 1, n
  {
    if n == 0 then Ok(map[])
    else
      match KwargsFrom(c, data, n - 1, unwrap)
      case Err(e) => Err(e)
      case Ok(kwargs) =>
        var f := c.fields[n - 1];
        if f.name !in KeySet(data) then Ok(kwargs)
        else
          match Converted(f.hint, Get(data, f.name).value, unwrap)
          case Err(e) => Err(e)
          case Ok(x) => Ok(kwargs[f.name := x])
  }

  /** `cls._from_dict(data)`: the converted fields `data` has, given to `cls(**kwargs)`. */
  function FromDictWith(c: ProtoClass, data: Value, unwrap: bool): (r: Result<Obj>)
    decreases c, 2
  {
    if !data.Dict? then Err(TypeError(NotADictMessage(data)))
    else
      match KwargsFrom(c, data.entries, |c.fields|, unwrap)
      case Err(e) => Err(e)
      case Ok(kwargs) => Construct(c, kwargs)
  }

  function NotADictMessage(data: Value): string
  {
    "'" + TypeName(data) + "' object is not a " + "dictionary"
  }

  /** An error on the first n fields is the error on the first m, for every m >= n. */
  lemma {:induction false} KwargsPrefixErr(c: ProtoClass, data: Entries, n: nat, m: nat, unwrap: bool)
    requires n <= m <= |c.fields| && KwargsFrom(c, data, n, unwrap).Err?
    ensures KwargsFrom(c, data, m, unwrap) == KwargsFrom(c, data, n, unwrap)
    decreases m
  {
    if m > n {
      KwargsPrefixErr(c, data, n, m - 1, unwrap);
    }
  }

  /** `Prototype._from_dict`, looking through NotRequired and `| None` when it converts a field. */
  method FromDict(c: ProtoClass, data: Value) returns (r: Result<Obj>)
    ensures r == FromDictWith(c, data, true)
  {
    if !data.Dict? {
      return Err(TypeError(NotADictMessage(data)));
    }
    var kwargs: map<string, Obj> := map[];
    var i := 0;
    while i < |c.fields|
      invariant 0 <= i <= |c.fields|
      invariant KwargsFrom(c, data.entries, i, true) == Ok(kwargs)
    {
      var f := c.fields[i];
      if f.name in KeySet(data.entries) {
        var x := Converted(f.hint, Get(data.entries, f.name).value, true);
        if x.Err? {
          KwargsPrefixErr(c, data.entries, i + 1, |c.fields|, true);
          return Err(x.error);
        }
        kwargs := kwargs[f.name := x.value];
      }
      i := i + 1;
    }
    r := Init(c, kwargs);
  }

  // -------------------------------------------------- what the outputs hold

  /** Looking a key up after appending an entry. */
  lemma {:induction false} GetSnoc(e: Entries, k: string, v: Value, j: string)
    ensures Get(e + [(k, v)], j) ==
      if j in KeySet(e) then Get(e, j) else if j == k then Some(v) else None
  {
    if e == [] {
      assert [(k, v)][1..] == [];
    } else {
      assert (e + [(k, v)])[1..] == e[1..] + [(k, v)];
      GetSnoc(e[1..], k, v, j);
    }
  }

  /** The names of the first n fields an instance has set, in definition order. */
  function SetNames(o: Obj, n: nat): seq<string>
    requires o.Instance? && n <= |o.cls.fields|
  {
    if n == 0 then []
    else SetNames(o, n - 1) + (if Has(o, n - 1) then [o.cls.fields[n - 1].name] else [])
  }

  /**
   * `_as_dict` holds a field exactly when the instance has it set, under the
   * field's name, with the field's value in dict form.
   */
  lemma {:induction false} AsDictAt(o: Obj, n: nat, i: nat)
    requires o.Instance? && DistinctNames(o.cls) && n <= |o.cls.fields| && i < |o.cls.fields|
    ensures Get(AsDictOf(o, n), o.cls.fields[i].name) ==
      if i < n && Has(o, i) then Some(ToDictValue(o.present[i].value)) else None
    decreases n
  {
    if n > 0 {
      AsDictAt(o, n - 1, i);
      var rest := AsDictOf(o, n - 1);
      if Has(o, n - 1) {
        GetSnoc(rest, o.cls.fields[n - 1].name, ToDictValue(o.present[n - 1].value), o.cls.fields[i].name);
      }
    }
  }

  /** The keys of `_as_dict` are the set fields' names, in definition order. */
  lemma {:induction false} AsDictKeys(o: Obj, n: nat)
    requires o.Instance? && n <= |o.cls.fields|
    ensures Keys(AsDictOf(o, n)) == SetNames(o, n)
  {
    if n > 0 {
      AsDictKeys(o, n - 1);
      var rest := AsDictOf(o, n - 1);
      if Has(o, n - 1) {
        var p := (o.cls.fields[n - 1].name, ToDictValue(o.present[n - 1].value));
        assert Keys(rest + [p]) == Keys(rest) + [p.0];
      }
    }
  }

  /** `__repr__` lists one `name=...` per set field, in definition order. */
  lemma {:induction false} ReprListsSetFields(o: Obj, n: nat)
    requires o.Instance? && n <= |o.cls.fields|
    ensures |FieldReprs(o, n)| == |SetNames(o, n)|
    ensures forall k | 0 <= k < |FieldReprs(o, n)| ::
      SetNames(o, n)[k] + "=" <= FieldReprs(o, n)[k]
  {
    if n > 0 {
      ReprListsSetFields(o, n - 1);
      if Has(o, n - 1) {
        var name := o.cls.fields[n - 1].name;
        var s := name + "=" + ReprObj(o.present[n - 1].value);
        assert name + "=" <= s;
      }
    }
  }

  /** A field's schema sits in the section its optionality picks, under its name. */
  lemma {:induction false} FieldSchemasAt(c: ProtoClass, n: nat, optional: bool, i: nat)
    requires ClassDefined(c) && n <= |c.fields| && i < |c.fields|
    ensures Get(FieldSchemas(c, n, optional), c.fields[i].name) ==
      if i < n && IsOptional(c.fields[i]) == optional then Some(FieldSchema(c.fields[i])) else None
    decreases n
  {
    if n > 0 {
      FieldSchemasAt(c, n - 1, optional, i);
      var f := c.fields[n - 1];
      if IsOptional(f) == optional {
        GetSnoc(FieldSchemas(c, n - 1, optional), f.name, FieldSchema(f), c.fields[i].name);
      }
    }
  }

  /** A section is empty exactly when no field has its optionality. */
  lemma {:induction false} FieldSchemasEmpty(c: ProtoClass, n: nat, optional: bool)
    requires ClassDefined(c) && n <= |c.fields|
    ensures FieldSchemas(c, n, optional) == [] <==>
      forall i | 0 <= i < n :: IsOptional(c.fields[i]) != optional
  {
    if n > 0 {
      FieldSchemasEmpty(c, n - 1, optional);
    }
  }

  /** The class schema: "type" first, then each section when it is not empty. */
  lemma ClassSchemaGet(c: ProtoClass)
    requires ClassDefined(c)
    ensures var s := ClassSchema(c).entries;
      var r := FieldSchemas(c, |c.fields|, false);
      var o := FieldSchemas(c, |c.fields|, true);
      && Get(s, "required_keys") == (if r == [] then None else Some(Dict(r)))
      && Get(s, "optional_keys") == (if o == [] then None else Some(Dict(o)))
      && KeySet(s) <= {"type", "required_keys", "optional_keys"}
  {
    var r := FieldSchemas(c, |c.fields|, false);
    var o := FieldSchemas(c, |c.fields|, true);
    var s := ClassSchema(c).entries;
    var t := ("type", Text("dict"));
    if r == [] && o == [] {
      assert s == [t];
    } else if r == [] {
      assert s == [t, ("optional_keys", Dict(o))];
    } else if o == [] {
      assert s == [t, ("required_keys", Dict(r))];
    } else {
      assert s == [t, ("required_keys", Dict(r)), ("optional_keys", Dict(o))];
      assert s[1..][1..] == [("optional_keys", Dict(o))];
      assert s[1..][1..][1..] == [];
      assert Get(s[1..][1..], "optional_keys") == Some(Dict(o));
      assert Get(s[1..], "optional_keys") == Some(Dict(o));
    }
  }

  /**
   * `_schema` puts a field under "optional_keys" when it has a default or is
   * NotRequired and under "required_keys" otherwise, never under both, with
   * its hint's schema; a section no field belongs to is left out.
   */
  lemma FieldPlacement(c: ProtoClass, i: nat)
    requires ClassDefined(c) && i < |c.fields|
    ensures var s := ClassSchema(c).entries;
      var f := c.fields[i];
      var home := if IsOptional(f) then "optional_keys" else "required_keys";
      var other := if IsOptional(f) then "required_keys" else "optional_keys";
      && Get(s, home).Some? && Get(s, home).value.Dict?
      && Get(Get(s, home).value.entries, f.name) == Some(FieldSchema(f))
      && (Get(s, other).Some? ==> Get(s, other).value.Dict? && f.name !in KeySet(Get(s, other).value.entries))
  {
    ClassSchemaGet(c);
    var f := c.fields[i];
    FieldSchemasAt(c, |c.fields|, IsOptional(f), i);
    FieldSchemasAt(c, |c.fields|, !IsOptional(f), i);
  }

  /** "required_keys" is there exactly when some field is required, "optional_keys" when some is optional. */
  lemma SectionsPresent(c: ProtoClass)
    requires ClassDefined(c)
    ensures Get(ClassSchema(c).entries, "required_keys").Some? <==>
      exists i | 0 <= i < |c.fields| :: !IsOptional(c.fields[i])
    ensures Get(ClassSchema(c).entries, "optional_keys").Some? <==>
      exists i | 0 <= i < |c.fields| :: IsOptional(c.fields[i])
  {
    ClassSchemaGet(c);
    FieldSchemasEmpty(c, |c.fields|, false);
    FieldSchemasEmpty(c, |c.fields|, true);
  }

  /**
   * A required field's schema has no "default"; a defaulted field's schema
   * carries the default in dict form.
   */
  lemma FieldSchemaDefault(f: Field)
    requires HintDefined(f.hint)
    ensures f.default.None? ==> FieldSchema(f) == TypeToSchema(f.hint)
    ensures f.default.Some? ==>
      Get(FieldSchema(f).entries, "default") == Some(ToDictValue(f.default.value))
  {
  }

  // ------------------------------------------------------------- round trip

  /**
   * A value that fits its hint as `resolve` would build it: an instance of the
   * hinted class, lists and dicts of fitting elements, configuration values
   * for builtins and Any, None where the hint is nullable.
   */
  predicate Conforms(h: Hint, o: Obj)
    decreases h, 1
  {
    if h.NotRequiredOf? then Conforms(h.inner, o)
    else if IsNullable(h) then o == Val(Null) || Conforms(NonNull(h), o)
    else
      match h
      case ProtoSub(c) => InstanceConforms(c, o)
      case ListOf(args) =>
        |args| == 1 && o.ListObj? && forall i | 0 <= i < |o.items| :: Conforms(args[0], o.items[i])
      case DictOf(args) =>
        |args| == 2 && o.DictObj? && forall i | 0 <= i < |o.entries| :: Conforms(args[1], o.entries[i].1)
      case _ => o.Val?
  }

  /**
   * An instance of `c` as `__init__` leaves it, with fitting values: a field
   * is unset only when it is NotRequired without a default, and nothing was
   * set beyond the defined fields.
   */
  predicate InstanceConforms(c: ProtoClass, o: Obj)
    decreases c, 2
  {
    o.Instance? && o.cls == c && DistinctNames(c) && |o.present| == |c.fields| && o.extras == {} &&
    forall i | 0 <= i < |c.fields| ::
      if o.present[i].None? then c.fields[i].default.None? && c.fields[i].hint.NotRequiredOf?
      else Conforms(c.fields[i].hint, o.present[i].value)
  }

  lemma {:induction false} AllOkOfOks(rs: seq<Result<Obj>>, xs: seq<Obj>)
    requires |rs| == |xs| && forall i | 0 <= i < |rs| :: rs[i] == Ok(xs[i])
    ensures AllOk(rs) == Ok(xs)
  {
    if rs != [] {
      var n := |rs| - 1;
      AllOkOfOks(rs[..n], xs[..n]);
      assert xs[..n] + [xs[n]] == xs;
    }
  }

  /** Converting a fitting value's dict form gives the value back. */
  lemma {:induction false} ConvertedRoundTrip(h: Hint, o: Obj)
    requires Conforms(h, o)
    ensures Converted(h, ToDictValue(o), true) == Ok(o)
    decreases h, 1
  {
    if h.NotRequiredOf? {
      ConvertedRoundTrip(h.inner, o);
    } else if IsNullable(h) {
      if o != Val(Null) {
        assert !ToDictValue(o).Null?;
        ConvertedRoundTrip(NonNull(h), o);
      }
    } else {
      match h
      case ProtoSub(c) =>
        FromDictRoundTrip(c, o);
      case ListOf(args) =>
        var items := o.items;
        var xs := seq(|items|, i requires 0 <= i < |items| => ToDictValue(items[i]));
        assert ToDictValue(o) == List(xs);
        var rs := seq(|xs|, i requires 0 <= i < |xs| => Converted(args[0], xs[i], true));
        forall i | 0 <= i < |xs|
          ensures rs[i] == Ok(items[i])
        {
          ConvertedRoundTrip(args[0], items[i]);
        }
        AllOkOfOks(rs, items);
      case DictOf(args) =>
        var e := o.entries;
        var de := seq(|e|, i requires 0 <= i < |e| => (e[i].0, ToDictValue(e[i].1)));
        assert ToDictValue(o) == Dict(de);
        var rs := seq(|de|, i requires 0 <= i < |de| => Converted(args[1], de[i].1, true));
        var vs := seq(|e|, i requires 0 <= i < |e| => e[i].1);
        forall i | 0 <= i < |de|
          ensures rs[i] == Ok(vs[i])
        {
          ConvertedRoundTrip(args[1], e[i].1);
        }
        AllOkOfOks(rs, vs);
        assert seq(|de|, i requires 0 <= i < |de| => (de[i].0, vs[i])) == e;
      case _ =>
    }
  }

  /**
   * The keyword arguments `_from_dict` collects from an instance's dict form
   * are the instance's set fields with their values.
   */
  lemma {:induction false} KwargsRoundTrip(c: ProtoClass, o: Obj, n: nat)
    requires InstanceConforms(c, o) && n <= |c.fields|
    ensures var r := KwargsFrom(c, AsDictOf(o, |c.fields|), n, true);
      && r.Ok?
      && forall i | 0 <= i < |c.fields| ::
           && (c.fields[i].name in r.value <==> i < n && o.present[i].Some?)
           && (i < n && o.present[i].Some? ==> r.value[c.fields[i].name] == o.present[i].value)
    decreases c, 1, n
  {
    if n > 0 {
      KwargsRoundTrip(c, o, n - 1);
      var data := AsDictOf(o, |c.fields|);
      var f := c.fields[n - 1];
      AsDictAt(o, |c.fields|, n - 1);
      if o.present[n - 1].Some? {
        ConvertedRoundTrip(f.hint, o.present[n - 1].value);
      }
    }
  }

  /**
   * The round trip of `_as_dict` and `_from_dict` (unwrapping NotRequired and
   * `| None`): rebuilding an instance from its dict gives the instance back.
   */
  lemma {:induction false} FromDictRoundTrip(c: ProtoClass, o: Obj)
    requires InstanceConforms(c, o)
    ensures FromDictWith(c, ToDictValue(o), true) == Ok(o)
    decreases c, 2
  {
    var data := AsDictOf(o, |c.fields|);
    assert ToDictValue(o) == Dict(data);
    KwargsRoundTrip(c, o, |c.fields|);
    var kwargs := KwargsFrom(c, data, |c.fields|, true).value;
    InitFieldsSpec(c.fields, kwargs);
    forall i | 0 <= i < |c.fields|
      ensures !Missing(c.fields[i], kwargs) && Supplied(c.fields[i], kwargs) == o.present[i]
    {
    }
    assert InitFields(c.fields, kwargs).value == o.present;
  }

  /** An advisor with a name, and a student whose advisor is NotRequired. */
  function AdvisorClass(): ProtoClass
  {
    ProtoClass("Advisor", [Field("name", Builtin(StrType), None)])
  }

  function StudentClass(): ProtoClass
  {
    ProtoClass("Student", [Field("advisor", NotRequiredOf(ProtoSub(AdvisorClass())), None)])
  }

  /** A student whose advisor, Dr. Smith, is set. */
  function StudentExample(): Obj
  {
    Instance(StudentClass(), [Some(Instance(AdvisorClass(), [Some(Val(Text("Dr. Smith")))], {}))], {})
  }

  /** The student is a well-formed instance of a defined class. */
  lemma StudentExampleConforms()
    ensures ClassDefined(StudentClass()) && InstanceConforms(StudentClass(), StudentExample())
  {
  }

  /** As written, the advisor comes back as the dict `{"name": "Dr. Smith"}`. */
  lemma StudentExampleFlat()
    ensures FromDictWith(StudentClass(), ToDictValue(StudentExample()), false) ==
      Ok(Instance(StudentClass(), [Some(Val(Dict([("name", Text("Dr. Smith"))])))], {}))
  {
    var advisor := Instance(AdvisorClass(), [Some(Val(Text("Dr. Smith")))], {});
    var inner := [("name", Text("Dr. Smith"))];
    assert AsDictOf(advisor, 1) == inner;
    assert ToDictValue(advisor) == Dict(inner);
    assert AsDictOf(StudentExample(), 1) == [("advisor", Dict(inner))];
    var kwargs := map["advisor" := Val(Dict(inner))];
    assert KwargsFrom(StudentClass(), [("advisor", Dict(inner))], 1, false) == Ok(kwargs);
    var fs := StudentClass().fields;
    InitFieldsSpec(fs, kwargs);
    assert !Missing(fs[0], kwargs) && Supplied(fs[0], kwargs) == Some(Val(Dict(inner)));
    assert InitFields(fs, kwargs).value == [Some(Val(Dict(inner)))];
  }

  /**
   * `_from_dict` as written does not look through NotRequired: a student
   * whose NotRequired advisor is set comes back from its own `_as_dict` with
   * the advisor as a plain dict, so the round trip fails where the unwrapping
   * conversion restores the instance.
   */
  lemma FromDictAsWrittenLosesNested()
    ensures ClassDefined(StudentClass()) && InstanceConforms(StudentClass(), StudentExample())
    ensures FromDictWith(StudentClass(), ToDictValue(StudentExample()), false) != Ok(StudentExample())
    ensures FromDictWith(StudentClass(), ToDictValue(StudentExample()), true) == Ok(StudentExample())
  {
    StudentExampleConforms();
    StudentExampleFlat();
    var flat := Instance(StudentClass(), [Some(Val(Dict([("name", Text("Dr. Smith"))])))], {});
    assert flat.present[0] != StudentExample().present[0];
    FromDictRoundTrip(StudentClass(), StudentExample());
  }

  // ------------------------------------------------ the schemas are valid

  /** Marking a schema nullable, or giving it a default where defaults are allowed, keeps it valid. */
  lemma PutKeepsWellFormed(e: Entries, k: string, v: Value, allowDefault: bool)
    requires SchemaGrammar.WellFormed(Dict(e), allowDefault, false)
    requires k == "nullable" || (k == "default" && allowDefault)
    ensures SchemaGrammar.WellFormed(Dict(Put(e, k, v)), allowDefault, false)
  {
    var e2 := Put(e, k, v);
    assert Get(e2, "type") == Get(e, "type");
    assert Get(e2, "required_keys") == Get(e, "required_keys");
    assert Get(e2, "optional_keys") == Get(e, "optional_keys");
    assert Get(e2, "extra_keys_schema") == Get(e, "extra_keys_schema");
    assert Get(e2, "element_schema") == Get(e, "element_schema");
  }

  /** `_type_to_schema` of a defined hint is a schema `validate_schema` accepts. */
  lemma {:induction false} TypeToSchemaWellFormed(h: Hint, allowDefault: bool)
    requires HintDefined(h)
    ensures SchemaGrammar.WellFormed(TypeToSchema(h), allowDefault, false)
    decreases h, 2
  {
    var t := StripNotRequired(h);
    match t
    case Builtin(b) =>
    case AnyHint =>
    case ProtoSub(c) =>
      ClassSchemaWellFormed(c, allowDefault);
    case ListOf(args) =>
      TypeToSchemaWellFormed(args[0], allowDefault);
      ListSchemaWellFormed(TypeToSchema(args[0]), allowDefault);
    case DictOf(args) =>
      TypeToSchemaWellFormed(args[1], false);
      DictSchemaWellFormed(TypeToSchema(args[1]), allowDefault);
    case Union(_) =>
      NullableSchemaWellFormed(h, allowDefault);
    case _ => assert false;
  }

  /** The schema of an `Optional[...]` hint is its inner schema made nullable. */
  lemma {:induction false} NullableSchemaWellFormed(h: Hint, allowDefault: bool)
    requires HintDefined(h) && StripNotRequired(h).Union?
    ensures SchemaGrammar.WellFormed(TypeToSchema(h), allowDefault, false)
    decreases h, 1
  {
    var t := StripNotRequired(h);
    assert IsNullable(t) && Unwrap(h) == NonNull(t);
    assert DefinedCore(NonNull(t));
    assert !NonNull(t).NotRequiredOf? && !NonNull(t).Union?;
    TypeToSchemaWellFormed(NonNull(t), allowDefault);
    PutKeepsWellFormed(TypeToSchema(NonNull(t)).entries, "nullable", Bool(true), allowDefault);
  }

  /** A list schema over a valid element schema is valid. */
  lemma ListSchemaWellFormed(inner: Value, allowDefault: bool)
    requires SchemaGrammar.WellFormed(inner, allowDefault, false)
    ensures SchemaGrammar.WellFormed(Dict([("type", Text("list")), ("element_schema", inner)]), allowDefault, false)
  {
    var e := [("type", Text("list")), ("element_schema", inner)];
    assert e[1..][1..] == [];
    assert KeySet(e[1..]) == {"element_schema"};
    assert KeySet(e) == {"type", "element_schema"};
  }

  /** A dict schema whose extra keys follow a valid schema (without defaults) is valid. */
  lemma DictSchemaWellFormed(inner: Value, allowDefault: bool)
    requires SchemaGrammar.WellFormed(inner, false, false)
    ensures SchemaGrammar.WellFormed(Dict([("type", Text("dict")), ("extra_keys_schema", inner)]), allowDefault, false)
  {
    var e := [("type", Text("dict")), ("extra_keys_schema", inner)];
    assert e[1..][1..] == [];
    assert KeySet(e[1..]) == {"extra_keys_schema"};
    assert KeySet(e) == {"type", "extra_keys_schema"};
  }

  /** A field's schema is valid, with a default only where defaults are allowed. */
  lemma {:induction false} FieldSchemaWellFormed(f: Field, allowDefault: bool)
    requires HintDefined(f.hint) && (f.default.Some? ==> allowDefault)
    ensures SchemaGrammar.WellFormed(FieldSchema(f), allowDefault, false)
    decreases f.hint, 3
  {
    TypeToSchemaWellFormed(f.hint, allowDefault);
    if f.default.Some? {
      PutKeepsWellFormed(TypeToSchema(f.hint).entries, "default", ToDictValue(f.default.value), allowDefault);
    }
  }

  /** Every field schema of a section is valid; optional ones may carry defaults. */
  lemma {:induction false} FieldSchemasWellFormed(c: ProtoClass, n: nat, optional: bool)
    requires ClassDefined(c) && n <= |c.fields|
    ensures SchemaGrammar.ChildrenWellFormed(FieldSchemas(c, n, optional), optional, false)
    decreases c, 0, n
  {
    if n > 0 {
      FieldSchemasWellFormed(c, n - 1, optional);
      var f := c.fields[n - 1];
      if IsOptional(f) == optional {
        FieldSchemaWellFormed(f, optional);
        var rest := FieldSchemas(c, n - 1, optional);
        var all := rest + [(f.name, FieldSchema(f))];
        forall i | 0 <= i < |all|
          ensures SchemaGrammar.WellFormed(all[i].1, optional, false)
        {
          if i < |rest| {
            assert all[i] == rest[i];
          }
        }
      }
    }
  }

  /** `Prototype._schema` of a defined class passes `validate_schema`. */
  lemma {:induction false} ClassSchemaWellFormed(c: ProtoClass, allowDefault: bool)
    requires ClassDefined(c)
    ensures SchemaGrammar.WellFormed(ClassSchema(c), allowDefault, false)
    decreases c, 1
  {
    ClassSchemaGet(c);
    FieldSchemasWellFormed(c, |c.fields|, false);
    FieldSchemasWellFormed(c, |c.fields|, true);
  }
}
