// The schema grammar validator (src/smartconfig/_schemas.py). A schema is a
// configuration value; a callable schema (a dynamic schema) is a `Callable`.
module Schemas {
  import opened Exceptions
  import opened Config

  const ValueTypes: set<string> := {"string", "integer", "float", "boolean", "date", "datetime"}
  const DictSections: set<string> := {"required_keys", "optional_keys", "extra_keys_schema", "nullable"}

  /** The keys a schema may carry: required, optional and, when allowed, "default". */
  function Allowed(required: seq<string>, optional: set<string>, allowDefault: bool): set<string>
  {
    Elems(required) + optional + (if allowDefault then {"default"} else {})
  }

  /** The first element of `keys`, in order, that is not in `allowed`. */
  function FirstOutside(keys: seq<string>, allowed: set<string>): (r: Option<string>)
    ensures r.None? <==> forall k :: k in keys ==> k in allowed
    ensures r.Some? ==> r.value in keys && r.value !in allowed
  {
    if keys == [] then None
    else if keys[0] !in allowed then Some(keys[0])
    else FirstOutside(keys[1..], allowed)
  }

  /**
   * `_check_keys`: an unexpected key is reported before a missing one, each at
   * keypath + (offending key,) (CheckKeysReports).
   */
  function CheckKeys(provided: seq<string>, required: seq<string>, optional: set<string>,
                     keypath: KeyPath, allowDefault: bool): (r: Outcome)
    ensures r.Pass? <==>
      Elems(provided) <= Allowed(required, optional, allowDefault) &&
      Elems(required) <= Elems(provided)
    ensures r.Fail? ==>
      r.error.InvalidSchema? && |r.error.keypath| == |keypath| + 1 &&
      r.error.keypath[..|keypath|] == keypath
  {
    var allowed := Allowed(required, optional, allowDefault);
    match FirstOutside(provided, allowed)
    case Some(k) => Fail(InvalidSchema("Unexpected key.", keypath + [k]))
    case None =>
      match FirstOutside(required, Elems(provided))
      case Some(k) => Fail(InvalidSchema("Missing key.", keypath + [k]))
      case None => Pass
  }

  /**
   * Which key `_check_keys` reports: an unexpected one whenever there is one,
   * otherwise a missing one.
   */
  lemma CheckKeysReports(provided: seq<string>, required: seq<string>, optional: set<string>,
                         keypath: KeyPath, allowDefault: bool)
    ensures var r := CheckKeys(provided, required, optional, keypath, allowDefault);
      r.Fail? ==>
        var k := r.error.keypath[|keypath|];
        if exists x :: x in provided && x !in Allowed(required, optional, allowDefault) then
          r.error.reason == "Unexpected key." && k in provided && k !in Allowed(required, optional, allowDefault)
        else
          r.error.reason == "Missing key." && k in required && k !in provided
  {
  }

  /** A key that a passed check requires is among the schema's keys. */
  lemma PassedKeyPresent(e: Entries, required: seq<string>, optional: set<string>,
                         keypath: KeyPath, allowDefault: bool, k: string)
    requires CheckKeys(Keys(e), required, optional, keypath, allowDefault).Pass?
    requires k in required
    ensures k in KeySet(e)
  {
    assert k in Elems(required);
    assert k in Keys(e);
    var i :| 0 <= i < |Keys(e)| && Keys(e)[i] == k;
    KeySetIndex(e, k);
  }

  /**
   * `validate_schema`: a callable is accepted exactly when dynamic schemas are
   * allowed; anything else must be a mapping with a "type", and is then
   * checked by the validator for that type.
   */
  function ValidateSchema(schema: Value, keypath: KeyPath, allowDefault: bool, allowDynamic: bool): (r: Outcome)
    decreases Depth(schema), 2, 0
    ensures schema.Callable? ==> (r.Pass? <==> allowDynamic)
    ensures schema.Callable? && !allowDynamic ==>
      r == Fail(InvalidSchema("Dynamic schemas are " + "not allowed.", keypath))
    ensures !schema.Callable? && !schema.Dict? ==>
      r == Fail(InvalidSchema("Schema must be a " + "mapping.", keypath))
    ensures schema.Dict? && "type" !in KeySet(schema.entries) ==>
      r == Fail(InvalidSchema("Required key missing.", keypath + ["type"]))
    ensures r.Fail? ==> r.error.InvalidSchema? || r.error.AttributeError?
    ensures r.Fail? && r.error.InvalidSchema? ==>
      |keypath| <= |r.error.keypath| && r.error.keypath[..|keypath|] == keypath
  {
    if schema.Callable? then
      if allowDynamic then Pass else Fail(InvalidSchema("Dynamic schemas are " + "not allowed.", keypath))
    else if !schema.Dict? then
      Fail(InvalidSchema("Schema must be a " + "mapping.", keypath))
    else
      var e := schema.entries;
      match Get(e, "type")
      case None => Fail(InvalidSchema("Required key missing.", keypath + ["type"]))
      case Some(t) =>
        if IsText(t, "any") then
          CheckKeys(Keys(e), ["type"], {"nullable"}, keypath, allowDefault)
        else if IsText(t, "dict") then
          ValidateDictSchema(e, keypath, allowDefault, allowDynamic)
        else if IsText(t, "list") then
          ValidateListSchema(e, keypath, allowDefault, allowDynamic)
        else
          ValidateValueSchema(e, keypath, allowDefault)
  }

  /** `_validate_value_schema`: the type must name one of the six leaf types. */
  function ValidateValueSchema(e: Entries, keypath: KeyPath, allowDefault: bool): (r: Outcome)
    requires "type" in KeySet(e)
    ensures r.Fail? ==>
      r.error.InvalidSchema? && |keypath| <= |r.error.keypath| && r.error.keypath[..|keypath|] == keypath
  {
    var c := CheckKeys(Keys(e), ["type"], {"nullable"}, keypath, allowDefault);
    if c.Fail? then c
    else
      var t := Get(e, "type").value;
      if t.Str? && t.s in ValueTypes then Pass
      else Fail(InvalidSchema("Invalid type: " + Show(t) + ".", keypath + ["type"]))
  }

  /** `_validate_list_schema`: "element_schema" is required and validated recursively. */
  function ValidateListSchema(e: Entries, keypath: KeyPath, allowDefault: bool, allowDynamic: bool): (r: Outcome)
    decreases Depth(Dict(e)), 1, 0
    ensures r.Fail? ==> r.error.InvalidSchema? || r.error.AttributeError?
    ensures r.Fail? && r.error.InvalidSchema? ==>
      |keypath| <= |r.error.keypath| && r.error.keypath[..|keypath|] == keypath
  {
    var c := CheckKeys(Keys(e), ["type", "element_schema"], {"nullable"}, keypath, allowDefault);
    if c.Fail? then c
    else
      PassedKeyPresent(e, ["type", "element_schema"], {"nullable"}, keypath, allowDefault, "element_schema");
      DepthGet(e, "element_schema");
      var r := ValidateSchema(Get(e, "element_schema").value, keypath + ["element_schema"], allowDefault, allowDynamic);
      assert r.Fail? && r.error.InvalidSchema? ==> r.error.keypath[..|keypath|] == keypath by {
        if r.Fail? && r.error.InvalidSchema? {
          assert r.error.keypath[..|keypath|] == r.error.keypath[..|keypath| + 1][..|keypath|];
        }
      }
      r
  }

  /**
   * `_validate_dict_schema`: required children are validated without
   * defaults, optional children with defaults allowed, then the extra keys
   * schema.
   */
  function ValidateDictSchema(e: Entries, keypath: KeyPath, allowDefault: bool, allowDynamic: bool): (r: Outcome)
    decreases Depth(Dict(e)), 1, 0
    ensures r.Fail? ==> r.error.InvalidSchema? || r.error.AttributeError?
    ensures r.Fail? && r.error.InvalidSchema? ==>
      |keypath| <= |r.error.keypath| && r.error.keypath[..|keypath|] == keypath
  {
    var c := CheckKeys(Keys(e), ["type"], DictSections, keypath, allowDefault);
    if c.Fail? then c
    else
      var req := ValidateSection(e, "required_keys", keypath, false, allowDynamic);
      if req.Fail? then req
      else
        var opt := ValidateSection(e, "optional_keys", keypath, true, allowDynamic);
        if opt.Fail? then opt
        else
          match Get(e, "extra_keys_schema")
          case None => Pass
          case Some(x) =>
            DepthGet(e, "extra_keys_schema");
            var r := ValidateSchema(x, keypath + ["extra_keys_schema"], false, allowDynamic);
            assert r.Fail? && r.error.InvalidSchema? ==> r.error.keypath[..|keypath|] == keypath by {
              if r.Fail? && r.error.InvalidSchema? {
                assert r.error.keypath[..|keypath|] == r.error.keypath[..|keypath| + 1][..|keypath|];
              }
            }
            r
  }

  /**
   * Validates every child schema of `schema.get(section, {})`, in order. A
   * section that is not a dict has no `.items()`: AttributeError.
   */
  function ValidateSection(e: Entries, section: string, keypath: KeyPath, allowDefault: bool, allowDynamic: bool): (r: Outcome)
    decreases Depth(Dict(e)), 0, 0
    ensures r.Fail? ==> r.error.InvalidSchema? || r.error.AttributeError?
    ensures r.Fail? && r.error.InvalidSchema? ==>
      |keypath| <= |r.error.keypath| && r.error.keypath[..|keypath|] == keypath
  {
    match Get(e, section)
    case None => Pass
    case Some(v) =>
      if !v.Dict? then Fail(AttributeError("'" + TypeName(v) + "' object has no " + "attribute 'items'"))
      else
        DepthGet(e, section);
        ValidateChildren(v.entries, 0, keypath, section, allowDefault, allowDynamic)
  }

  /** Validates the child schemas children[i..] at keypath + (section, key). */
  function ValidateChildren(children: Entries, i: nat, keypath: KeyPath, section: string,
                            allowDefault: bool, allowDynamic: bool): (r: Outcome)
    requires i <= |children|
    decreases Depth(Dict(children)), 1, |children| - i
    ensures r.Fail? ==> r.error.InvalidSchema? || r.error.AttributeError?
    ensures r.Fail? && r.error.InvalidSchema? ==>
      |keypath| <= |r.error.keypath| && r.error.keypath[..|keypath|] == keypath
  {
    if i == |children| then Pass
    else
      DepthEntry(children, i);
      var here := keypath + [section, children[i].0];
      var r := ValidateSchema(children[i].1, here, allowDefault, allowDynamic);
      if r.Fail? then
        assert r.error.InvalidSchema? ==> r.error.keypath[..|keypath|] == keypath by {
          if r.error.InvalidSchema? {
            assert r.error.keypath[..|keypath|] == r.error.keypath[..|here|][..|keypath|];
          }
        }
        r
      else ValidateChildren(children, i + 1, keypath, section, allowDefault, allowDynamic)
  }
}

module SchemaGrammar {
  import opened Exceptions
  import opened Config
  import opened Schemas

  /**
   * The schema grammar of the validators' docstrings, as one predicate that
   * says nothing about the order in which problems are found:
   *   ANY   = {"type": "any", ["nullable"]}
   *   DICT  = {"type": "dict", ["required_keys": {k: SCHEMA}],
   *            ["optional_keys": {k: SCHEMA or SCHEMA with "default"}],
   *            ["extra_keys_schema": SCHEMA], ["nullable"]}
   *   LIST  = {"type": "list", "element_schema": SCHEMA, ["nullable"]}
   *   VALUE = {"type": string|integer|float|boolean|date|datetime, ["nullable"]}
   * plus "default" wherever defaults are allowed, and callables when dynamic
   * schemas are allowed.
   */
  predicate WellFormed(schema: Value, allowDefault: bool, allowDynamic: bool)
    decreases Depth(schema), 2
  {
    if schema.Callable? then allowDynamic
    else
      schema.Dict? && "type" in KeySet(schema.entries) &&
      var e := schema.entries;
      var t := Get(e, "type").value;
      var extras := if allowDefault then {"default"} else {};
      if IsText(t, "any") then
        KeySet(e) <= {"type", "nullable"} + extras
      else if IsText(t, "dict") then
        KeySet(e) <= {"type"} + DictSections + extras &&
        SectionWellFormed(e, "required_keys", false, allowDynamic) &&
        SectionWellFormed(e, "optional_keys", true, allowDynamic) &&
        ("extra_keys_schema" in KeySet(e) ==>
          (DepthGet(e, "extra_keys_schema");
           WellFormed(Get(e, "extra_keys_schema").value, false, allowDynamic)))
      else if IsText(t, "list") then
        KeySet(e) <= {"type", "element_schema", "nullable"} + extras &&
        "element_schema" in KeySet(e) &&
        (DepthGet(e, "element_schema");
         WellFormed(Get(e, "element_schema").value, allowDefault, allowDynamic))
      else
        KeySet(e) <= {"type", "nullable"} + extras && t.Str? && t.s in ValueTypes
  }

  /** An absent section, or a dict section whose every child schema is well formed. */
  predicate SectionWellFormed(e: Entries, section: string, allowDefault: bool, allowDynamic: bool)
    decreases Depth(Dict(e)), 1
  {
    section !in KeySet(e) ||
    (var v := Get(e, section).value;
     v.Dict? && (DepthGet(e, section); ChildrenWellFormed(v.entries, allowDefault, allowDynamic)))
  }

  predicate ChildrenWellFormed(children: Entries, allowDefault: bool, allowDynamic: bool)
    decreases Depth(Dict(children)), 0
  {
    forall i :: 0 <= i < |children| ==>
      (DepthEntry(children, i); WellFormed(children[i].1, allowDefault, allowDynamic))
  }

  lemma KeysMembership(e: Entries, k: string)
    ensures k in Keys(e) <==> k in KeySet(e)
  {
    KeySetIndex(e, k);
    if k in Keys(e) {
      var i :| 0 <= i < |Keys(e)| && Keys(e)[i] == k;
    }
  }

  /** `_check_keys` on a schema's own keys passes exactly when the key set is allowed and complete. */
  lemma CheckKeysIff(e: Entries, required: seq<string>, optional: set<string>,
                     keypath: KeyPath, allowDefault: bool)
    ensures CheckKeys(Keys(e), required, optional, keypath, allowDefault).Pass? <==>
      KeySet(e) <= Allowed(required, optional, allowDefault) &&
      Elems(required) <= KeySet(e)
  {
    forall k { KeysMembership(e, k); }
    assert Elems(Keys(e)) == KeySet(e);
  }

  /** The key check of an any schema or a value schema, which require only "type". */
  lemma CheckTypeOnlyIff(e: Entries, keypath: KeyPath, allowDefault: bool)
    requires "type" in KeySet(e)
    ensures CheckKeys(Keys(e), ["type"], {"nullable"}, keypath, allowDefault).Pass? <==>
      KeySet(e) <= {"type", "nullable"} + (if allowDefault then {"default"} else {})
  {
    var required := ["type"];
    CheckKeysIff(e, required, {"nullable"}, keypath, allowDefault);
    assert Elems(required) == {"type"};
    assert Allowed(required, {"nullable"}, allowDefault)
        == {"type", "nullable"} + (if allowDefault then {"default"} else {});
  }

  lemma CheckListIff(e: Entries, keypath: KeyPath, allowDefault: bool)
    ensures CheckKeys(Keys(e), ["type", "element_schema"], {"nullable"}, keypath, allowDefault).Pass? <==>
      KeySet(e) <= {"type", "element_schema", "nullable"} + (if allowDefault then {"default"} else {}) &&
      "type" in KeySet(e) && "element_schema" in KeySet(e)
  {
    var required := ["type", "element_schema"];
    CheckKeysIff(e, required, {"nullable"}, keypath, allowDefault);
    var req := Elems(required);
    assert req == {"type", "element_schema"} by {
      assert required[0] == "type" && required[1] == "element_schema";
    }
    var ks := KeySet(e);
    assert req <= ks <==> "type" in ks && "element_schema" in ks;
    var extras: set<string> := if allowDefault then {"default"} else {};
    assert Allowed(required, {"nullable"}, allowDefault) == {"type", "element_schema", "nullable"} + extras;
  }

  lemma CheckDictIff(e: Entries, keypath: KeyPath, allowDefault: bool)
    requires "type" in KeySet(e)
    ensures CheckKeys(Keys(e), ["type"], DictSections, keypath, allowDefault).Pass? <==>
      KeySet(e) <= {"type"} + DictSections + (if allowDefault then {"default"} else {})
  {
    var required := ["type"];
    CheckKeysIff(e, required, DictSections, keypath, allowDefault);
    assert Elems(required) == {"type"};
    assert Allowed(required, DictSections, allowDefault)
        == {"type"} + DictSections + (if allowDefault then {"default"} else {});
  }

  lemma {:induction false} ListIff(e: Entries, keypath: KeyPath, allowDefault: bool, allowDynamic: bool)
    requires "type" in KeySet(e)
    decreases Depth(Dict(e)), 1, 0
    ensures ValidateListSchema(e, keypath, allowDefault, allowDynamic).Pass? <==>
      KeySet(e) <= {"type", "element_schema", "nullable"} + (if allowDefault then {"default"} else {}) &&
      "element_schema" in KeySet(e) &&
      (DepthGet(e, "element_schema");
       WellFormed(Get(e, "element_schema").value, allowDefault, allowDynamic))
  {
    CheckListIff(e, keypath, allowDefault);
    if "element_schema" in KeySet(e) {
      DepthGet(e, "element_schema");
      ValidateIffWellFormed(Get(e, "element_schema").value, keypath + ["element_schema"], allowDefault, allowDynamic);
    }
  }

  /** `validate_schema` accepts a schema exactly when it belongs to the grammar. */
  lemma {:induction false} ValidateIffWellFormed(schema: Value, keypath: KeyPath, allowDefault: bool, allowDynamic: bool)
    decreases Depth(schema), 2, 0
    ensures ValidateSchema(schema, keypath, allowDefault, allowDynamic).Pass? <==>
            WellFormed(schema, allowDefault, allowDynamic)
  {
    if schema.Dict? && "type" in KeySet(schema.entries) {
      var e := schema.entries;
      var t := Get(e, "type").value;
      if IsText(t, "dict") {
        DictIff(e, keypath, allowDefault, allowDynamic);
      } else if IsText(t, "list") {
        ListIff(e, keypath, allowDefault, allowDynamic);
      } else {
        CheckTypeOnlyIff(e, keypath, allowDefault);
      }
    }
  }

  lemma {:induction false} DictIff(e: Entries, keypath: KeyPath, allowDefault: bool, allowDynamic: bool)
    requires "type" in KeySet(e)
    decreases Depth(Dict(e)), 1, 0
    ensures ValidateDictSchema(e, keypath, allowDefault, allowDynamic).Pass? <==>
      KeySet(e) <= {"type"} + DictSections + (if allowDefault then {"default"} else {}) &&
      SectionWellFormed(e, "required_keys", false, allowDynamic) &&
      SectionWellFormed(e, "optional_keys", true, allowDynamic) &&
      ("extra_keys_schema" in KeySet(e) ==>
        (DepthGet(e, "extra_keys_schema");
         WellFormed(Get(e, "extra_keys_schema").value, false, allowDynamic)))
  {
    CheckDictIff(e, keypath, allowDefault);
    SectionIff(e, "required_keys", keypath, false, allowDynamic);
    SectionIff(e, "optional_keys", keypath, true, allowDynamic);
    if "extra_keys_schema" in KeySet(e) {
      DepthGet(e, "extra_keys_schema");
      ValidateIffWellFormed(Get(e, "extra_keys_schema").value, keypath + ["extra_keys_schema"], false, allowDynamic);
    }
  }

  lemma {:induction false} SectionIff(e: Entries, section: string, keypath: KeyPath, allowDefault: bool, allowDynamic: bool)
    decreases Depth(Dict(e)), 0, 0
    ensures ValidateSection(e, section, keypath, allowDefault, allowDynamic).Pass? <==>
            SectionWellFormed(e, section, allowDefault, allowDynamic)
  {
    if section in KeySet(e) {
      var v := Get(e, section).value;
      if v.Dict? {
        DepthGet(e, section);
        ChildrenIff(v.entries, 0, keypath, section, allowDefault, allowDynamic);
      }
    }
  }

  lemma {:induction false} ChildrenIff(children: Entries, i: nat, keypath: KeyPath, section: string,
                                       allowDefault: bool, allowDynamic: bool)
    requires i <= |children|
    decreases Depth(Dict(children)), 1, |children| - i
    ensures ValidateChildren(children, i, keypath, section, allowDefault, allowDynamic).Pass? <==>
            forall j :: i <= j < |children| ==> WellFormed(children[j].1, allowDefault, allowDynamic)
  {
    if i < |children| {
      DepthEntry(children, i);
      var here := keypath + [section, children[i].0];
      ValidateIffWellFormed(children[i].1, here, allowDefault, allowDynamic);
      ChildrenIff(children, i + 1, keypath, section, allowDefault, allowDynamic);
      var v := ValidateSchema(children[i].1, here, allowDefault, allowDynamic);
      assert ValidateChildren(children, i, keypath, section, allowDefault, allowDynamic) ==
        if v.Fail? then v else ValidateChildren(children, i + 1, keypath, section, allowDefault, allowDynamic);
      assert (forall j :: i <= j < |children| ==> WellFormed(children[j].1, allowDefault, allowDynamic)) <==>
        WellFormed(children[i].1, allowDefault, allowDynamic) &&
        forall j :: i + 1 <= j < |children| ==> WellFormed(children[j].1, allowDefault, allowDynamic);
    }
  }

  /** Under `required_keys` no child schema may carry a default. */
  lemma RequiredChildrenHaveNoDefault(e: Entries, allowDefault: bool, allowDynamic: bool, i: nat)
    requires WellFormed(Dict(e), allowDefault, allowDynamic)
    requires IsText(Get(e, "type").value, "dict") && "required_keys" in KeySet(e)
    requires Get(e, "required_keys").value.Dict?
    requires i < |Get(e, "required_keys").value.entries|
    requires Get(e, "required_keys").value.entries[i].1.Dict?
    ensures "default" !in KeySet(Get(e, "required_keys").value.entries[i].1.entries)
  {
    var children := Get(e, "required_keys").value.entries;
    DepthGet(e, "required_keys");
    assert SectionWellFormed(e, "required_keys", false, allowDynamic);
    assert ChildrenWellFormed(children, false, allowDynamic);
    DepthEntry(children, i);
    NoDefaultWhereDisallowed(children[i].1, allowDynamic);
  }

  /** A dict schema well formed where defaults are not allowed has no "default" key. */
  lemma NoDefaultWhereDisallowed(v: Value, allowDynamic: bool)
    requires v.Dict? && WellFormed(v, false, allowDynamic)
    ensures "default" !in KeySet(v.entries)
  {
    var t := Get(v.entries, "type").value;
    assert "default" !in {"type", "nullable"} && "default" !in {"type"} + DictSections;
    assert "default" !in {"type", "element_schema", "nullable"};
  }

  function LeafSchema(t: string): Value { Dict([("type", Text(t))]) }

  /** A default under `required_keys` is reported at ("required_keys", k, "default"). */
  lemma DefaultUnderRequiredKeysRejected(k: string, d: Value, keypath: KeyPath, allowDynamic: bool)
    ensures var child := Dict([("type", Text("integer")), ("default", d)]);
      ValidateSchema(Dict([("type", Text("dict")), ("required_keys", Dict([(k, child)]))]), keypath, false, allowDynamic)
        == Fail(InvalidSchema("Unexpected key.", keypath + ["required_keys", k, "default"]))
  {
    var child := Dict([("type", Text("integer")), ("default", d)]);
    var err := Fail(InvalidSchema("Unexpected key.", keypath + ["required_keys", k, "default"]));
    RequiredChildRejected(k, d, keypath, allowDynamic);
    var e := [("type", Text("dict")), ("required_keys", Dict([(k, child)]))];
    RequiredFirstShape(e, [(k, child)]);
    assert ValidateSection(e, "required_keys", keypath, false, allowDynamic) == err;
    assert ValidateDictSchema(e, keypath, false, allowDynamic) == err;
  }

  /** An integer child schema with a default fails at its "default" key where defaults are not allowed. */
  lemma RequiredChildRejected(k: string, d: Value, keypath: KeyPath, allowDynamic: bool)
    ensures var child := Dict([("type", Text("integer")), ("default", d)]);
      ValidateChildren([(k, child)], 0, keypath, "required_keys", false, allowDynamic) ==
        Fail(InvalidSchema("Unexpected key.", keypath + ["required_keys", k, "default"]))
  {
    var child := Dict([("type", Text("integer")), ("default", d)]);
    var err := Fail(InvalidSchema("Unexpected key.", keypath + ["required_keys", k, "default"]));
    var ce := child.entries;
    assert Keys(ce) == ["type", "default"];
    assert FirstOutside(Keys(ce), Allowed(["type"], {"nullable"}, false)) == Some("default");
    assert keypath + ["required_keys", k] + ["default"] == keypath + ["required_keys", k, "default"];
    assert ValidateSchema(child, keypath + ["required_keys", k], false, allowDynamic) == err;
  }

  /** A dict schema whose only section is `required_keys`: its keys are allowed and the section is found. */
  lemma RequiredFirstShape(e: Entries, kids: Entries)
    requires e == [("type", Text("dict")), ("required_keys", Dict(kids))]
    ensures FirstOutside(Keys(e), Allowed(["type"], DictSections, false)) == None
    ensures Get(e, "required_keys") == Some(Dict(kids))
  {
    assert Keys(e) == ["type", "required_keys"];
    assert e[1..] == [("required_keys", Dict(kids))];
  }

  /** The same entry, default included, is accepted under `optional_keys`. */
  lemma DefaultUnderOptionalKeysAccepted(k: string, d: Value, keypath: KeyPath, allowDynamic: bool)
    ensures var child := Dict([("type", Text("integer")), ("default", d)]);
      ValidateSchema(Dict([("type", Text("dict")), ("optional_keys", Dict([(k, child)]))]), keypath, false, allowDynamic)
        == Pass
  {
    var child := Dict([("type", Text("integer")), ("default", d)]);
    var kids := [(k, child)];
    OptionalChildAccepted(k, d, keypath, allowDynamic);
    var e := [("type", Text("dict")), ("optional_keys", Dict(kids))];
    OptionalOnlyShape(e, kids);
    assert ValidateSection(e, "required_keys", keypath, false, allowDynamic) == Pass;
    assert ValidateSection(e, "optional_keys", keypath, true, allowDynamic) == Pass;
    assert ValidateDictSchema(e, keypath, false, allowDynamic) == Pass;
  }

  /** An integer child schema with a default passes where defaults are allowed. */
  lemma OptionalChildAccepted(k: string, d: Value, keypath: KeyPath, allowDynamic: bool)
    ensures var child := Dict([("type", Text("integer")), ("default", d)]);
      ValidateChildren([(k, child)], 0, keypath, "optional_keys", true, allowDynamic) == Pass
  {
    var child := Dict([("type", Text("integer")), ("default", d)]);
    var ce := child.entries;
    assert Keys(ce) == ["type", "default"];
    assert FirstOutside(Keys(ce), Allowed(["type"], {"nullable"}, true)) == None;
    assert ValidateSchema(child, keypath + ["optional_keys", k], true, allowDynamic) == Pass;
    assert ValidateChildren([(k, child)], 1, keypath, "optional_keys", true, allowDynamic) == Pass;
  }

  /** A dict schema with only an `optional_keys` section: its keys are allowed and the other sections absent. */
  lemma OptionalOnlyShape(e: Entries, kids: Entries)
    requires e == [("type", Text("dict")), ("optional_keys", Dict(kids))]
    ensures FirstOutside(Keys(e), Allowed(["type"], DictSections, false)) == None
    ensures Get(e, "required_keys") == None && Get(e, "extra_keys_schema") == None
    ensures Get(e, "optional_keys") == Some(Dict(kids))
  {
    assert Keys(e) == ["type", "optional_keys"];
    assert e[1..] == [("optional_keys", Dict(kids))];
  }

  /** A type outside any/dict/list and the six leaf types is reported at keypath + ("type",). */
  lemma InvalidTypeReported(e: Entries, keypath: KeyPath, allowDefault: bool, allowDynamic: bool)
    requires "type" in KeySet(e)
    requires KeySet(e) <= {"type", "nullable"}
    requires var t := Get(e, "type").value;
      !IsText(t, "any") && !IsText(t, "dict") && !IsText(t, "list") && !(t.Str? && t.s in ValueTypes)
    ensures ValidateSchema(Dict(e), keypath, allowDefault, allowDynamic)
         == Fail(InvalidSchema("Invalid type: " + Show(Get(e, "type").value) + ".", keypath + ["type"]))
  {
    CheckTypeOnlyIff(e, keypath, allowDefault);
  }

  /**
   * A list schema whose keys are allowed is checked by validating its
   * element schema at keypath + ("element_schema",); without one it is
   * reported missing there.
   */
  lemma ListSchemaValidatesElement(e: Entries, keypath: KeyPath, allowDefault: bool, allowDynamic: bool)
    requires "type" in KeySet(e) && IsText(Get(e, "type").value, "list")
    requires KeySet(e) <= {"type", "element_schema", "nullable"}
    ensures "element_schema" in KeySet(e) ==>
      ValidateSchema(Dict(e), keypath, allowDefault, allowDynamic)
        == ValidateSchema(Get(e, "element_schema").value, keypath + ["element_schema"], allowDefault, allowDynamic)
    ensures "element_schema" !in KeySet(e) ==>
      ValidateSchema(Dict(e), keypath, allowDefault, allowDynamic)
        == Fail(InvalidSchema("Missing key.", keypath + ["element_schema"]))
  {
    ListSchemaDispatch(e, keypath, allowDefault, allowDynamic);
    CheckListIff(e, keypath, allowDefault);
    if "element_schema" !in KeySet(e) {
      ListMissingElement(e, keypath, allowDefault);
    }
  }

  /** A schema whose type is "list" is checked by `_validate_list_schema`. */
  lemma ListSchemaDispatch(e: Entries, keypath: KeyPath, allowDefault: bool, allowDynamic: bool)
    requires "type" in KeySet(e) && IsText(Get(e, "type").value, "list")
    ensures ValidateSchema(Dict(e), keypath, allowDefault, allowDynamic)
      == ValidateListSchema(e, keypath, allowDefault, allowDynamic)
  {
    var t := Get(e, "type").value;
    assert !IsText(t, "any") && !IsText(t, "dict");
  }

  /** Without an element schema, the list key check reports it missing. */
  lemma ListMissingElement(e: Entries, keypath: KeyPath, allowDefault: bool)
    requires "type" in KeySet(e) && "element_schema" !in KeySet(e)
    requires KeySet(e) <= {"type", "element_schema", "nullable"}
    ensures CheckKeys(Keys(e), ["type", "element_schema"], {"nullable"}, keypath, allowDefault)
      == Fail(InvalidSchema("Missing key.", keypath + ["element_schema"]))
  {
    var provided := Keys(e);
    KeysMembership(e, "element_schema");
    assert FirstOutside(provided, Allowed(["type", "element_schema"], {"nullable"}, allowDefault)) == None by {
      forall k | k in provided ensures k in Allowed(["type", "element_schema"], {"nullable"}, allowDefault) {
        KeysMembership(e, k);
      }
    }
    var req := ["type", "element_schema"];
    assert "type" in Elems(provided) by { KeysMembership(e, "type"); }
    assert FirstOutside(req, Elems(provided)) == FirstOutside(req[1..], Elems(provided));
    assert req[1..] == ["element_schema"];
  }
}
