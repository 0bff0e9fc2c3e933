// The input checks of the core functions of src/smartconfig/_core_functions.py.
// The functions themselves rebuild nodes inside the tree and live with the
// engine (module Engine); what is decided from the input alone is here.
module CoreFunctions {
  import opened Exceptions
  import opened Config
  import Utils

  function MissingKeypathMessage(k: string): string
  {
    "Keypath '" + k + "' does not exist."
  }

  /** The keys of a dict that lie outside `allowed`, in the dict's order. */
  function KeysOutside(keys: seq<string>, allowed: set<string>): (r: seq<string>)
    ensures forall j | 0 <= j < |r| :: r[j] !in allowed && r[j] in keys
    ensures forall j | 0 <= j < |keys| :: keys[j] !in allowed ==> keys[j] in r
  {
    if keys == [] then []
    else (if keys[0] in allowed then [] else [keys[0]]) + KeysOutside(keys[1..], allowed)
  }

  /** `repr` of a set of strings, written in the dict's order: `{'a', 'b'}`. */
  function SetRepr(ks: seq<string>): string
  {
    "{" + QuotedItems(ks) + "}"
  }

  function QuotedItems(ks: seq<string>): string
  {
    if ks == [] then ""
    else if |ks| == 1 then "'" + ks[0] + "'"
    else "'" + ks[0] + "', " + QuotedItems(ks[1..])
  }

  // ------------------------------------------------------------------ use

  /** What `_use` reads from its input: the template's keypath and the optional overrides. */
  datatype UseRequest = UseRequest(keypath: string, overrides: Option<Entries>)

  /** `overrides is not None and not isinstance(overrides, dict)`. */
  predicate BadOverrides(ov: Option<Value>)
  {
    ov.Some? && !ov.value.Null? && !ov.value.Dict?
  }

  /** The input checks of `_use`, in the order the code makes them. */
  function ParseUse(input: Value, keypath: KeyPath): (r: Result<UseRequest>)
    ensures r.Err? ==> r.error.Resolution? && r.error.keypath == keypath
    ensures input.Str? ==> r == Ok(UseRequest(input.s, None))
    ensures !input.Str? && !input.Dict? ==>
      r == Err(Resolution("Input to 'use' must " + "be a string or a " + "dictionary.", keypath))
    ensures input.Dict? && "template" !in KeySet(input.entries) ==>
      r == Err(Resolution("Dict input to 'use' " + "must contain a " + "'template' key.", keypath))
  {
    match input
    case Str(s, _) => Ok(UseRequest(s, None))
    case Dict(e) =>
      (match Get(e, "template")
       case None => Err(Resolution("Dict input to 'use' " + "must contain a " + "'template' key.", keypath))
       case Some(t) =>
         if !t.Str? then Err(Resolution("The 'template' " + "value in 'use' must " + "be a string.", keypath))
         else
           var ov := Get(e, "overrides");
           if BadOverrides(ov) then
             Err(Resolution("The 'overrides' " + "value in 'use' must " + "be a dictionary.", keypath))
           else
             var extra := KeysOutside(Keys(e), {"template", "overrides"});
             if extra != [] then Err(Resolution("Unexpected keys in " + "'use': " + SetRepr(extra) + ".", keypath))
             else Ok(UseRequest(t.s, if ov.Some? && ov.value.Dict? then Some(ov.value.entries) else None)))
    case _ => Err(Resolution("Input to 'use' must " + "be a string or a " + "dictionary.", keypath))
  }

  /**
   * `_use` accepts exactly a string keypath, or a dict with a string
   * "template", an "overrides" that is absent, null or a dict, and no other key.
   */
  lemma ParseUseAccepts(input: Value, keypath: KeyPath)
    ensures ParseUse(input, keypath).Ok? <==>
      input.Str? ||
      (input.Dict? && "template" in KeySet(input.entries) &&
       Get(input.entries, "template").value.Str? &&
       !BadOverrides(Get(input.entries, "overrides")) &&
       KeySet(input.entries) <= {"template", "overrides"})
  {
    if input.Dict? {
      var e := input.entries;
      var extra := KeysOutside(Keys(e), {"template", "overrides"});
      forall k | k in KeySet(e)
        ensures k in {"template", "overrides"} || extra != []
      {
        KeySetIndex(e, k);
        var i :| 0 <= i < |e| && e[i].0 == k;
        assert Keys(e)[i] == k;
      }
      if extra != [] {
        assert extra[0] in Keys(e);
        var i :| 0 <= i < |Keys(e)| && Keys(e)[i] == extra[0];
        KeySetIndex(e, extra[0]);
        assert e[i].0 == extra[0];
      }
    }
  }

  function TemplateTargetMessage(): string
  {
    "The target of 'use' " + "must be a " + "'__template__' " + "function call."
  }

  function OverridesNeedDictMessage(): string
  {
    "Overrides can only " + "be applied when the " + "template resolves " + "to a dictionary."
  }

  /**
   * What `_use` rebuilds from the resolved target: the contents of its
   * `__template__` key, deep-merged with the overrides when there are some.
   */
  function UseContents(resolved: Value, overrides: Option<Entries>, keypath: KeyPath): (r: Result<Value>)
    ensures !resolved.Dict? || "__template__" !in KeySet(resolved.entries) ==>
      r == Err(Resolution(TemplateTargetMessage(), keypath))
    ensures r.Ok? ==> TemplateOf(resolved).Some?
    ensures TemplateOf(resolved).Some? && (overrides.None? || TemplateOf(resolved).value.Dict?) ==> r.Ok?
    ensures TemplateOf(resolved).Some? && overrides.Some? && !TemplateOf(resolved).value.Dict? ==>
      r == Err(Resolution(OverridesNeedDictMessage(), keypath))
    ensures r.Ok? && overrides.None? ==> r.value == TemplateOf(resolved).value
    ensures r.Ok? && overrides.Some? ==>
      var c := TemplateOf(resolved).value;
      c.Dict? && r.value == Dict(Utils.DeepUpdate([c.entries, overrides.value]))
    ensures r.Err? ==> r.error.Resolution? && r.error.keypath == keypath
  {
    match TemplateOf(resolved)
    case None => Err(Resolution(TemplateTargetMessage(), keypath))
    case Some(c) =>
      if overrides.None? then Ok(c)
      else if !c.Dict? then Err(Resolution(OverridesNeedDictMessage(), keypath))
      else Ok(Dict(Utils.DeepUpdate([c.entries, overrides.value])))
  }

  /** The `__template__` entry of a resolved dictionary, if it has one. */
  function TemplateOf(resolved: Value): (r: Option<Value>)
    ensures r.None? <==> !resolved.Dict? || "__template__" !in KeySet(resolved.entries)
  {
    if resolved.Dict? then Get(resolved.entries, "__template__") else None
  }

  /** With overrides, the rebuilt template has the keys of the template and of the overrides. */
  lemma UseContentsKeys(resolved: Value, overrides: Entries, keypath: KeyPath)
    requires UseContents(resolved, Some(overrides), keypath).Ok?
    ensures var c := TemplateOf(resolved).value;
      KeySet(UseContents(resolved, Some(overrides), keypath).value.entries) ==
        KeySet(c.entries) + KeySet(overrides)
  {
    var c := TemplateOf(resolved).value;
    var ds := [c.entries, overrides];
    Utils.DeepUpdateKeys(ds);
    assert ds[..1] == [c.entries] && ds[..1][..0] == [];
    assert Utils.AllKeys(ds) == Utils.AllKeys(ds[..1]) + KeySet(overrides);
    assert Utils.AllKeys(ds[..1]) == Utils.AllKeys(ds[..1][..0]) + KeySet(c.entries);
  }

  // ------------------------------------------------------------------- if

  function IfNotDictMessage(): string
  {
    "Input to 'if' must " + "be a dictionary."
  }

  function IfKeysMessage(): string
  {
    "Input to 'if' must " + "be a dictionary " + "with keys " + "'condition', 'then' " + "and 'else'."
  }

  /** The three parts of an `if`. */
  datatype IfParts = IfParts(condition: Value, whenTrue: Value, whenFalse: Value)

  /** The input checks of `_if`: a dict whose key set is exactly {condition, then, else}. */
  function ParseIf(input: Value, keypath: KeyPath): (r: Result<IfParts>)
    ensures r.Ok? <==> input.Dict? && KeySet(input.entries) == {"condition", "then", "else"}
    ensures !input.Dict? ==> r == Err(Resolution(IfNotDictMessage(), keypath))
    ensures input.Dict? && r.Err? ==> r == Err(Resolution(IfKeysMessage(), keypath))
    ensures r.Ok? ==>
      Get(input.entries, "condition") == Some(r.value.condition) &&
      Get(input.entries, "then") == Some(r.value.whenTrue) &&
      Get(input.entries, "else") == Some(r.value.whenFalse)
  {
    if !input.Dict? then Err(Resolution(IfNotDictMessage(), keypath))
    else if KeySet(input.entries) != {"condition", "then", "else"} then
      Err(Resolution(IfKeysMessage(), keypath))
    else
      var e := input.entries;
      assert "condition" in KeySet(e) && "then" in KeySet(e) && "else" in KeySet(e);
      Ok(IfParts(Get(e, "condition").value, Get(e, "then").value, Get(e, "else").value))
  }

  // ------------------------------------------------------------------ let

  /** The parts of a `let`: the body and, when present, the variables and the references. */
  datatype LetParts = LetParts(body: Value, variables: Option<Value>, references: Option<Value>)

  function LetVariablesMessage(): string
  {
    "The value of " + "'variables' in " + "'let' must be a " + "dictionary."
  }

  function LetReferencesMessage(): string
  {
    "The value of " + "'references' in " + "'let' must be a " + "dictionary."
  }

  /**
   * The checks `_let` makes before resolving anything: a dict, with "in",
   * with "variables" or "references" or both, and variables (if any) a dict.
   */
  function ParseLet(input: Value, keypath: KeyPath): (r: Result<LetParts>)
    ensures r.Ok? <==>
      input.Dict? && "in" in KeySet(input.entries) &&
      ("variables" in KeySet(input.entries) || "references" in KeySet(input.entries)) &&
      ("variables" in KeySet(input.entries) ==> Get(input.entries, "variables").value.Dict?)
    ensures r.Ok? ==>
      Get(input.entries, "in") == Some(r.value.body) &&
      r.value.variables == Get(input.entries, "variables") &&
      r.value.references == Get(input.entries, "references")
    ensures r.Err? ==> r.error.Resolution? && r.error.keypath == keypath
  {
    if !input.Dict? then Err(Resolution("Input to 'let' must " + "be a dictionary.", keypath))
    else
      var e := input.entries;
      match Get(e, "in")
      case None => Err(Resolution("Input to 'let' must " + "contain an 'in' key.", keypath))
      case Some(body) =>
        var vars := Get(e, "variables");
        var refs := Get(e, "references");
        if vars.None? && refs.None? then
          Err(Resolution("Input to 'let' must " + "contain 'variables' " + "and/or 'references'.", keypath))
        else if vars.Some? && !vars.value.Dict? then Err(Resolution(LetVariablesMessage(), keypath))
        else Ok(LetParts(body, vars, refs))
  }

  /** What a reference of `let` names. */
  datatype Target = This | Previous | Other

  function TargetOf(v: Value): (t: Target)
    ensures t == This <==> IsText(v, "__this__")
    ensures t == Previous <==> IsText(v, "__previous__")
  {
    if IsText(v, "__this__") then This else if IsText(v, "__previous__") then Previous else Other
  }
}
