# smartconfig, modelled in Dafny

smartconfig resolves a configuration against a schema. A configuration is a tree of
dicts, lists and scalars. A schema says, for every part of the tree, whether it is a
dict (with required keys, optional keys with defaults, and a schema for extra keys), a
list (with a schema for its elements), a leaf of a given type, or "any". Resolving
the configuration does four things:

- it builds a tree of nodes from the raw configuration and the schema;
- it interpolates `${...}` references in strings against the rest of the tree, local
  variables and global variables;
- it evaluates function calls, written as a one-key dict `{"__name__": input}`;
- it converts every leaf to its schema type, with converters such as `arithmetic`
  (integers and floats from arithmetic expressions), `logic` (booleans from logical
  expressions) and `smartdate` (dates from relative-date phrases).

The project models that core:

| module (file) | models |
|---|---|
| `Exceptions` (exceptions.dfy) | the error values, `Option`/`Result`, and the `__str__` of `ResolutionError` and `InvalidSchemaError` |
| `Config` (config.dfy) | configuration values: ordered dicts as association lists, keys, lookup, insertion, depth |
| `Strings` (strings.dfy) | the few string operations the source uses (`strip`, `split`, `join`, `lower`, `upper`, `replace`) |
| `Utils` (utils.dfy) | `deep_update` |
| `Schemas`, `SchemaGrammar` (schemas.dfy) | `validate_schema` and its helpers, and the schema grammar as one predicate |
| `Calls` (calls.dfy) | how a dict is recognised as a function call |
| `Nodes` (nodes.dfy) | `make_node` and the `_populate_*_children` helpers |
| `Templates` (templates.dfy) | the template language, reduced to literal text and `${dotted.path}` references |
| `Engine` (engine.dfy) | the node tree of `_internals.py` as an arena class: resolution, the three-state machine, variable lookup, function-call nodes, and the core functions that rebuild nodes |
| `CoreFunctions` (core_functions.dfy) | the input checks of `_use`, `_if` and `_let` |
| `ListFunctions`, `DictFunctions` (list_functions.dfy, dict_functions.dfy) | `stdlib/list.py` and `stdlib/dict.py` |
| `LegacyFunctions` (legacy_functions.dfy) | the older `functions.py` |
| `Calendar`, `DateText`, `DateTimes` (calendar.dfy, date_text.dfy, datetimes.dfy) | `stdlib/datetime.py`, with dates as day numbers |
| `Patterns`, `SmartDates` (patterns.dfy, smart_dates.dfy) | the relative-date grammar of `smartdate`/`smartdatetime` |
| `Expressions`, `Converters`, `Parsers` (expressions.dfy, converters.dfy, parsers.dfy) | the type dispatch of `arithmetic` and `logic` in `converters.py` and the older `parsers.py` |
| `OldResolve` (old_resolve.dfy) | the pieces of the earlier engine `_resolve.py`: the call recogniser, the leaf fixpoint loop, container resolution, `_copy_into`, the parser and function tables |
| `Prototypes` (prototypes.dfy) | `_prototypes.py`: type hints to schemas, construction, equality, `repr`, `_as_dict`/`_from_dict` |

Dates are day numbers counted from 0001-01-01 (day 1, a Monday). A datetime is a count
of seconds from midnight of day 0. Floats are exact `real`s. Dicts are sequences of
key/value pairs, because Python dicts keep insertion order and several error messages
name the first offending key.

## Model

| member | source | states |
|---|---|---|
| Exceptions.SplitDotted | src/smartconfig/exceptions.py:43-45 | splitting a dotted path gives at least one part, and no part contains a dot |
| Exceptions.IndexOf | src/smartconfig/exceptions.py:43-45 | the index found holds the character, and no earlier position does |
| Exceptions.JoinDottedEmpty | src/smartconfig/exceptions.py:43-45 | the empty keypath joins to the empty string |
| Exceptions.JoinDottedAppend | src/smartconfig/exceptions.py:43-45 | joining a concatenation puts one dot between the joins of the two non-empty parts |
| Exceptions.SplitJoinDotted | src/smartconfig/exceptions.py:43-45 | splitting the dotted join of a non-empty keypath whose parts have no dots gives the keypath back |
| Exceptions.ParseMessageRoundTrip | src/smartconfig/exceptions.py:19-33 | a message built from a prefix, a quoted path without quotes, a separator and a reason parses back into that path and reason |
| Exceptions.ResolutionMessageRoundTrip | src/smartconfig/exceptions.py:31-33 | the text of a `ResolutionError` gives back its dotted keypath and its reason |
| Exceptions.InvalidSchemaMessageRoundTrip | src/smartconfig/exceptions.py:19-21 | the text of an `InvalidSchemaError` gives back its dotted keypath and its reason |
| Utils.DeepUpdateLoop | src/smartconfig/_utils.py:6-40 | the nested loop of `deep_update` computes the left fold `DeepUpdate` of the dictionaries |
| Utils.LaterDepthBound | src/smartconfig/_utils.py:33-36 | the recursion of `deep_update` is on dicts no deeper than the later dictionaries, so it terminates |
| Utils.MergeIntoKeys | src/smartconfig/_utils.py:33-38 | merging one dictionary into the accumulator gives the union of their key sets |
| Utils.DeepUpdateKeys | src/smartconfig/_utils.py:32-38 | the key set of the result is the union of the key sets of all input dictionaries |
| Utils.MergeIntoOtherKey | src/smartconfig/_utils.py:33-38 | a key the later dictionary does not mention keeps its earlier value |
| Utils.MergeEntryGet | src/smartconfig/_utils.py:34-38 | merging one entry changes only that key: two dicts merge recursively, otherwise the later value wins |
| Utils.MergeIntoGetFrom | src/smartconfig/_utils.py:33-38 | after merging, each key of the later dictionary holds its merged value |
| Utils.MergeIntoGet | src/smartconfig/_utils.py:33-38 | after merging, a key of the later dictionary holds its merged value and any other key is unchanged |
| Utils.DeepUpdateExample | src/smartconfig/_utils.py:26-29 | `{"a": {"x": 1, "y": 2}}` updated by `{"a": {"y": 3}}` gives `{"a": {"x": 1, "y": 3}}` |
| Schemas.FirstOutside | src/smartconfig/_schemas.py:33-38 | there is no key outside the allowed set exactly when none is found; a key found is provided and not allowed |
| Schemas.CheckKeys | src/smartconfig/_schemas.py:14-42 | `_check_keys` passes exactly when every provided key is allowed (with "default" only if allowed) and every required key is provided; a failure is an `InvalidSchemaError` one key below the keypath |
| Schemas.CheckKeysReports | src/smartconfig/_schemas.py:33-42 | an unexpected key is reported before a missing one, as "Unexpected key." or "Missing key." at keypath plus the offending key |
| Schemas.PassedKeyPresent | src/smartconfig/_schemas.py:34-42 | once the key check passes, every required key is in the schema |
| Schemas.ValidateSchema | src/smartconfig/_schemas.py:183-237 | a callable schema passes exactly when dynamic schemas are allowed; a non-mapping fails with "Schema must be a mapping."; a missing "type" fails at keypath+("type",); every error lies at or below the keypath |
| Schemas.ValidateValueSchema | src/smartconfig/_schemas.py:154-177 | a value schema's errors lie at or below its keypath |
| Schemas.ValidateListSchema | src/smartconfig/_schemas.py:125-151 | a list schema's errors lie at or below its keypath |
| Schemas.ValidateDictSchema | src/smartconfig/_schemas.py:73-122 | a dict schema's errors lie at or below its keypath |
| Schemas.ValidateSection | src/smartconfig/_schemas.py:100-114 | a required_keys or optional_keys section's errors lie at or below the keypath |
| Schemas.ValidateChildren | src/smartconfig/_schemas.py:101-114 | the children of a section report errors at or below the keypath |
| SchemaGrammar.KeysMembership | src/smartconfig/_schemas.py:29-34 | a key is in the key list exactly when it is in the key set |
| SchemaGrammar.CheckKeysIff | src/smartconfig/_schemas.py:14-42 | the key check passes exactly when the schema's keys are allowed and include the required ones |
| SchemaGrammar.CheckTypeOnlyIff | src/smartconfig/_schemas.py:64-70 | an any or value schema passes the key check exactly when its keys are among type, nullable and (when allowed) default |
| SchemaGrammar.CheckListIff | src/smartconfig/_schemas.py:137-143 | a list schema passes the key check exactly when it has type and element_schema and nothing beyond nullable and an allowed default |
| SchemaGrammar.CheckDictIff | src/smartconfig/_schemas.py:92-98 | a dict schema passes the key check exactly when its keys are type, the dict sections and an allowed default |
| SchemaGrammar.ListIff | src/smartconfig/_schemas.py:125-151 | a list schema is valid exactly when its keys are right and its element schema is well formed |
| SchemaGrammar.ValidateIffWellFormed | src/smartconfig/_schemas.py:183-237 | `validate_schema` passes exactly when the schema follows the grammar of the validators' docstrings |
| SchemaGrammar.DictIff | src/smartconfig/_schemas.py:73-122 | a dict schema is valid exactly when its keys are right, required children are valid without defaults, optional children are valid with defaults allowed, and extra_keys_schema is valid |
| SchemaGrammar.SectionIff | src/smartconfig/_schemas.py:100-114 | a section passes exactly when it is absent or a dict of well-formed children |
| SchemaGrammar.ChildrenIff | src/smartconfig/_schemas.py:101-114 | the loop over a section's children passes exactly when every remaining child is well formed |
| SchemaGrammar.RequiredChildrenHaveNoDefault | src/smartconfig/_schemas.py:100-104 | a child of required_keys in a valid dict schema has no "default" |
| SchemaGrammar.DefaultUnderRequiredKeysRejected | src/smartconfig/_schemas.py:100-104 | a default under required_keys fails with "Unexpected key." at ("required_keys", k, "default") |
| SchemaGrammar.DefaultUnderOptionalKeysAccepted | src/smartconfig/_schemas.py:106-114 | the same default under optional_keys is accepted |
| SchemaGrammar.InvalidTypeReported | src/smartconfig/_schemas.py:173-177 | a type outside any, dict, list and the six leaf types fails with "Invalid type: <t>." at keypath+("type",) |
| SchemaGrammar.ListSchemaValidatesElement | src/smartconfig/_schemas.py:145-151 | a list schema with the right keys is as valid as its element schema at keypath+("element_schema",), and one without element_schema fails with "Missing key." there |
| Strings.Strip | src/smartconfig/stdlib/datetime.py:116 | `str.strip()` leaves a string that neither starts nor ends with white space, and leaves nothing exactly when the string is all white space |
| Strings.StripSlice | src/smartconfig/stdlib/datetime.py:116 | when a string is white space, then a slice that starts and ends with a non-space (or nothing), then white space, `strip` returns exactly that slice |
| Strings.StripPadded | src/smartconfig/stdlib/datetime.py:116 | white space put before and after a text that starts and ends with a non-space is exactly what `strip` removes |
| Strings.StripIdempotent | src/smartconfig/stdlib/datetime.py:116 | stripping twice is stripping once |
| Strings.SplitOn | src/smartconfig/stdlib/datetime.py:116 | `value.split(",")` gives at least one part, and no part holds a comma |
| Strings.JoinSplitOn | src/smartconfig/stdlib/datetime.py:116 | joining the comma-split parts with commas gives the original text back |
| Strings.SplitWhitespace | src/smartconfig/stdlib/datetime.py:206-208 | `str.split()` gives non-empty words without white space |
| Strings.SplitInterleave | src/smartconfig/stdlib/datetime.py:206-208 | words laid out with white-space runs before, between (non-empty) and after them split back into exactly those words |
| Strings.SplitGaps | src/smartconfig/stdlib/datetime.py:206-208 | every string is its `split()` words interleaved with white-space runs, non-empty between words, so `split()` drops nothing but white space |
| Strings.SplitJoinWords | src/smartconfig/stdlib/datetime.py:206-208 | splitting words joined by single spaces gives the words back |
| Strings.ReplaceChar | src/smartconfig/converters.py:303 | `s.replace(",", " ")` keeps the length and changes exactly the commas |
| Nodes.SetChild | src/smartconfig/_internals.py:582-589 | storing a child adds its key to the children's key set |
| Nodes.CallDynamic | src/smartconfig/_internals.py:1463-1466 | a dynamic schema is replaced by what the schema function returns for this configuration and keypath, once that passes validation |
| Nodes.Build | src/smartconfig/_internals.py:1417-1534 | `make_node`: RAW mode never builds a function-call node; null builds a nullable "any" leaf; a list builds a list node with one child per item; a leaf node keeps the raw value and its keypath |
| Nodes.BuildUnder | src/smartconfig/_internals.py:1487-1534 | null is accepted exactly when the schema is nullable or "any", else "Unexpectedly null." at the keypath; outside RAW mode a ValueError of the recogniser becomes "Invalid function call: …" and a recognised call becomes a function-call node carrying the schema |
| Nodes.ExtraKeys | src/smartconfig/_internals.py:657-661 | the extra keys are exactly the configuration's keys outside required ∪ optional |
| Nodes.ElementSchema | src/smartconfig/_internals.py:863-870 | a missing "type" or "element_schema" is a KeyError; an "any" list takes a nullable "any" element schema; any other list schema gives its own element_schema |
| Nodes.BuildDict | src/smartconfig/_internals.py:710-787 | a dict configuration that is not a call builds a dict node; which children it has, and what each is built from, are stated by DictChildKeys and DictChildrenBuilt |
| Nodes.KeysInKeySet | src/smartconfig/_internals.py:576-577 | a key is in the key list exactly when it is in the key set |
| Nodes.RequiredChildren | src/smartconfig/_internals.py:557-589 | on success every required key is present and becomes a child |
| Nodes.OptionalValue | src/smartconfig/_internals.py:613-627 | a present optional key uses its value; an absent one uses the schema's default, or is skipped when there is none |
| Nodes.OptionalChildren | src/smartconfig/_internals.py:592-636 | on success the optional children are exactly the keys that are present or have a default |
| Nodes.ExtraChildren | src/smartconfig/_internals.py:639-677 | on success every extra key becomes a child; with extra keys and no extra_keys_schema it fails with 'Dictionary contains unexpected extra key "k".' at keypath+(k,), k the first extra key in dict order |
| Nodes.BuildList | src/smartconfig/_internals.py:831-885 | an element-schema error is passed on; otherwise the list builds exactly when every item builds, and child j is item j built under the element schema at keypath + (str(j),), in the same mode |
| Nodes.ListItems | src/smartconfig/_internals.py:872-882 | the loop keeps the children built so far; every later child j is item j built at keypath + (str(j),); a failure is the error of some item's build |
| Nodes.DictChildKeys | src/smartconfig/_internals.py:574-677 | a built dict node's children are exactly the required keys, the optional keys present or defaulted, and the extra keys; without extra_keys_schema there are no extra keys |
| Nodes.DictChildrenBuilt | src/smartconfig/_internals.py:557-677 | every child of a built dict node is a value built at keypath + (k,): a required key's value under its schema, an optional key's value or default under its schema, or an extra key's value under extra_keys_schema |
| Nodes.MissingRequiredKey | src/smartconfig/_internals.py:576-580 | a missing required key makes building fail; when it is the first required key the error is 'Dictionary is missing required key "k".' at keypath+(k,) |
| Nodes.ExtraKeyRejected | src/smartconfig/_internals.py:657-667 | a key outside required ∪ optional, with no extra_keys_schema, fails with the unexpected-extra-key error at that key |
| Nodes.AnyDictKeepsAll | src/smartconfig/_internals.py:743-747 | under an "any" schema every key of the dict becomes a child |
| Templates.FindOpen | src/smartconfig/_internals.py:1145-1147 | finds the first `${` at or after a position, or reports that there is none |
| Templates.Parse | src/smartconfig/_internals.py:1145-1164 | a parsed template never holds an empty literal segment |
| Templates.UnparseAppend | src/smartconfig/_internals.py:1164-1167 | writing out segments distributes over concatenation |
| Templates.ParseUnparse | src/smartconfig/_internals.py:1164-1167 | writing a parsed template back out gives the original string |
| Templates.ParseStep | src/smartconfig/_internals.py:1145-1164 | a template with a `${` parses as the literal text before it, one reference up to the next `}`, and the parse of the rest |
| Templates.ParsedPieces | src/smartconfig/_internals.py:1145-1164 | the text before `${`, the reference and the rest write back out to the whole string |
| Templates.UnparseThree | src/smartconfig/_internals.py:1164-1167 | writing out a head, one segment and a tail is the concatenation of the three |
| Templates.SplitAround | src/smartconfig/_internals.py:1164-1167 | a string splits around an occurrence of a substring |
| Templates.PlainText | src/smartconfig/_internals.py:1164-1175 | a string without `${` parses as one literal, has no references, and renders to itself |
| Templates.RefCountSnoc | src/smartconfig/_internals.py:1164-1167 | the reference count grows by one exactly at each reference segment |
| Templates.RefCountAppend | src/smartconfig/_internals.py:1164-1167 | the reference count of a concatenation is the sum of the counts |
| Templates.Refs | src/smartconfig/_internals.py:1101-1122 | one looked-up expression per reference segment |
| Templates.OwnTexts | src/smartconfig/_internals.py:1164-1167 | one text per reference segment |
| Templates.FillWithOwnText | src/smartconfig/_internals.py:1164-1175 | rendering each reference as its own `${...}` text gives the template back, so a full interpolation then stops |
| Templates.Path | src/smartconfig/_internals.py:1101-1122 | a reference names a dotted path of at least one part |
| Engine.WfAppend | src/smartconfig/_internals.py:486-505 | allocating a new node (undiscovered, with earlier nodes as parent and children) keeps the arena well formed |
| Engine.WfReplace | src/smartconfig/_internals.py:786 | replacing a node by one of the same class, with references inside the arena, keeps the arena well formed |
| Engine.WfSetState | src/smartconfig/_internals.py:1021-1051 | moving a node to a state that fits its class keeps the arena well formed; a call node's cached result is never another call node |
| Engine.ExtendsTrans | src/smartconfig/_internals.py:486-505 | growing the arena is transitive: nodes are only added, and states only advance |
| Engine.CachedStable | src/smartconfig/_internals.py:1004-1051 | a value the arena caches for a node stays the same as resolution adds nodes and settles states |
| Engine.CachedMoreFuel | src/smartconfig/_internals.py:1004-1051 | a larger recursion limit does not change a cached value |
| Engine.CachedEntriesAt | src/smartconfig/_internals.py:789-791 | the cached entries of a dict node's children have the children's keys in order, each the child's cached value |
| Engine.CachedItemsAt | src/smartconfig/_internals.py:887-889 | the cached items of a list node have one value per element, each the element's cached value |
| Engine.NodeAtStable | src/smartconfig/_internals.py:419-448 | once a keypath reaches a node, it reaches the same node as the arena grows |
| Engine.VarLookStable | src/smartconfig/_internals.py:1101-1122 | a variable lookup that found or missed stays the same as the arena grows |
| Engine.PathLookStable | src/smartconfig/_internals.py:1101-1122 | a dotted reference's lookup that found or missed stays the same as the arena grows |
| Engine.TextsFitStable | src/smartconfig/_internals.py:1145-1169 | texts that fit a template's lookups still fit after the arena grows |
| Engine.RenderedOf | src/smartconfig/_internals.py:1145-1169 | a template whose references all gave texts renders to its literal text with those texts filled in, and the texts fit its lookups |
| Engine.PutLocal | src/smartconfig/_core_functions.py:311-336 | binding a local makes it found under its key and leaves every other key as it was |
| Engine.Ancestors | src/smartconfig/_internals.py:506-517 | the chain from a node up to the root starts at the node, follows parent links and ends at a node without parent |
| Engine.Root | src/smartconfig/_internals.py:506-517 | `root` is a node without a parent |
| Engine.RootIsLastAncestor | src/smartconfig/_internals.py:506-517 | `root` is the last node of the parent chain |
| Engine.FirstLocal | src/smartconfig/_internals.py:523-551 | the first node of a chain that binds the key provides it; none is found exactly when no node binds it |
| Engine.LocalVariableNearest | src/smartconfig/_internals.py:523-551 | `get_local_variable` returns the binding of the nearest node, self first then ancestors, that defines the key, and fails when none does |
| Engine.LocalVariableIn | src/smartconfig/_internals.py:523-551 | a local variable found refers only to nodes of the arena |
| Engine.FindKey | src/smartconfig/_internals.py:546-547 | `d[key]` on an insertion-ordered dict (a node's local variables, a dict node's children): missing exactly when no item has the key, otherwise the value of an item under that key |
| Engine.KidKeys | src/smartconfig/_internals.py:789-791 | the keys of a dict node's children, in order |
| Engine.IntLiteral | src/smartconfig/_internals.py:893 | `int()` on text without surrounding white space: a digit run (single underscores between digits allowed) is its value, a `-` or `+` before it gives the signed value, and any success starts with a digit or a sign |
| Engine.ParseIndexCases | src/smartconfig/_internals.py:893 | a keypath segment of digits is read as that index, `-digits` as its negation, `+digits` as its value, and a segment of white space alone is not an integer |
| Engine.ParseIndexStrip | src/smartconfig/_internals.py:893 | `int()` ignores the white space around a segment: it reads the stripped segment |
| Engine.ParseIndexOfStrip | src/smartconfig/_internals.py:893 | two segments with the same stripped text read as the same index or both fail |
| Engine.IntText | src/smartconfig/_internals.py:893 | `str(i)` is non-empty, ends in a digit and starts with a digit or `-` |
| Engine.IntLiteralOfText | src/smartconfig/_internals.py:893 | `int(str(i)) == i` for every integer |
| Engine.ParseIndexOfText | src/smartconfig/_internals.py:893 | `int()` reads back `str(i)` whatever white space surrounds it |
| Engine.ParseIndexExample | src/smartconfig/_internals.py:893 | `int(" +1_0 ")` is 10 |
| Engine.ParseIndexDoubleUnderscore | src/smartconfig/_internals.py:893 | `int("1__0")` is not an integer: underscores only between single digits |
| Engine.ListSlot | src/smartconfig/_internals.py:436 | Python list indexing of a list of n children: an index in [0, n) is itself, one in [-n, 0) counts from the end (n + i), and the index misses exactly when it is outside [-n, n) |
| Engine.Safely | src/smartconfig/_internals.py:1207-1216 | a `ResolutionError` passes unchanged; other smartconfig errors become a `ResolutionError` at the node's keypath; anything else passes unchanged |
| Engine.ConvertValue | src/smartconfig/_internals.py:1177-1205 | a type without converter fails with 'No converter provided for type: "<t>".' at the keypath; a converter that succeeds gives its result; errors never escape as schema or conversion errors |
| Engine.PlainStringIsFixpoint | src/smartconfig/_internals.py:1126-1175 | a string without references renders to itself, so one pass and a full interpolation both give it back |
| Engine.Arena.constructor | src/smartconfig/_internals.py:486-505 | a new resolution starts with an empty, well-formed arena |
| Engine.Arena.Attach | src/smartconfig/_internals.py:1417-1534 | a built tree is allocated as new nodes after the existing ones, every new node undiscovered, with the given parent, locals and mode, and the kind of the tree |
| Engine.Arena.AttachDict | src/smartconfig/_internals.py:741-787 | a dict tree becomes a dict node whose child keys are the tree's keys in order |
| Engine.Arena.AttachChildren | src/smartconfig/_internals.py:741-787 | the children of a dict tree are placed in order under the node, each with its key, as new undiscovered nodes |
| Engine.Arena.AttachList | src/smartconfig/_internals.py:862-885 | a list tree becomes a list node with one child per item |
| Engine.Arena.AttachItems | src/smartconfig/_internals.py:862-885 | the elements of a list tree are placed in order under the node, as new undiscovered nodes |
| Engine.Arena.BuildAttach | src/smartconfig/_internals.py:1417-1534 | `make_node` followed by allocation: it succeeds exactly when building succeeds, fails with the same error without changing the arena, and otherwise adds an undiscovered node shaped like the built tree |
| Engine.Arena.ResolveNode | src/smartconfig/_internals.py:1004-1051 | a dict node resolves to a dict with its children's keys in order, a list node to a list as long; any value returned is the one the arena now caches for the node (`Cached`: each child's resolved value, a call taken through the node it evaluated to); a node already fully cached returns that value and changes nothing; a pending value node fails with "Circular reference." at its keypath |
| Engine.Arena.ResolveChildren | src/smartconfig/_internals.py:789-791 | resolving a dict node's children gives one entry per child, keys in order, each the value that child now caches; children already resolved come back without changing the arena |
| Engine.Arena.ResolveItems | src/smartconfig/_internals.py:887-889 | resolving a list node's elements gives one value per element, in order, each the value that element now caches; elements already resolved come back without changing the arena |
| Engine.Arena.ResolveValue | src/smartconfig/_internals.py:1004-1051 | the three-state machine of `_ValueNode.resolve`: pending fails with "Circular reference.", resolved returns the cache without re-interpolating or re-converting, undiscovered ends resolved (or pending on error); a nullable null resolves to null without any converter; in RAW mode or on a non-string the raw value goes straight to the converter |
| Engine.Arena.ComputeValue | src/smartconfig/_internals.py:1033-1049 | null with nullable gives null; otherwise the value, interpolated once (STANDARD) or to a fixpoint (FULL) when it is a string outside RAW mode, is converted to the node's type |
| Engine.Arena.Interpolate | src/smartconfig/_internals.py:1126-1175 | an unclosed `${` is a template syntax error; a successful interpolation is a chain of rendering passes, a single one when not full and, when full, one more pass each time the string changed |
| Engine.Arena.RenderOnce | src/smartconfig/_internals.py:1145-1169 | an unclosed `${` is a syntax error that changes nothing; one pass keeps the literal text and replaces the references, left to right, by texts each of which is `str()` of what that reference looks up at the node (`TextsFit`) |
| Engine.Arena.CollectRef | src/smartconfig/_internals.py:1145-1169 | the texts of the references before segment i grow by the text of that segment's reference, as `RefTexts` gives it |
| Engine.Arena.ReferenceText | src/smartconfig/_internals.py:1101-1122 | a one-part reference bound as a local variable renders as that local, without touching the arena; any text returned is `str()` of what the dotted reference looks up at the node (`RefText`) |
| Engine.Arena.FollowMembers | src/smartconfig/_internals.py:1101-1122 | following a reference's further segments from what its first one gave yields what the whole dotted path looks up (`PathLook`) |
| Engine.Arena.Variable | src/smartconfig/_internals.py:1101-1122 | lookup order: a local variable, nearest node first, wins without touching the arena; when the root misses, the global variable (or the injected root) is returned; any outcome is what `VarLook` gives: locals, then the root's member, then the root name and the globals |
| Engine.Arena.RootMember | src/smartconfig/_internals.py:1081-1113 | a key the root does not have is a miss; a dict or list child of the root is returned as a lazy container; any outcome is what the root container gives for the key (`RootLook`): a value child's resolved value, a call child taken through its evaluation; a KeyError or IndexError never escapes |
| Engine.Arena.Access | src/smartconfig/_internals.py:318-347 | reading a child through a lazy view gives a lazy container for a dict or list node, the cached value of a resolved leaf, and "Circular reference." for a pending leaf; any result is what the container gives for that child (`Designated`) |
| Engine.Arena.Member | src/smartconfig/_internals.py:318-347 | `a.b` on a plain value reads the value's member; on a lazy dict an index or an unknown key misses; on a lazy list anything but an index in range misses; any outcome is what `MemberLook` gives for the member |
| Engine.Arena.OpenContainer | src/smartconfig/_internals.py:318-347 | a dict or list node is its own container and changes nothing; a value node is not one (an assertion error); a call is taken through its evaluation; what it gives is what `Container` gives |
| Engine.Arena.Evaluate | src/smartconfig/_internals.py:1309-1396 | the three-state machine of `_FunctionCallNode.evaluate`: pending fails with "Circular reference", evaluated returns the cached node, undiscovered ends evaluated (or pending on error); the result is never a call node; a call node whose name has no registered function, which the source never builds, is a KeyError |
| Engine.Arena.Invoke | src/smartconfig/_internals.py:1333-1394 | a pending call's input is obtained, the function called and a call node it returns evaluated in turn; what comes back is a dict, list or value node, and the arena only grows |
| Engine.Arena.FunctionInput | src/smartconfig/_internals.py:1334-1347 | with `resolve_input` false the input passes unchanged; with it true the input is built under `{"type": "any"}` and resolved, and a build error is reported as is |
| Engine.Arena.ResolveWith | src/smartconfig/_internals.py:1289-1305 | the resolver callback reports a build error as is, changing nothing; otherwise the configuration is built under the schema at the call's keypath and mode, placed below the call, and the value returned is what that node resolves to |
| Engine.Arena.ResolveCached | src/smartconfig/_internals.py:1004-1051 | resolving a node returns the value the arena then caches for it; a value already cached comes back without changes |
| Engine.ResolvedBelow | src/smartconfig/_internals.py:1289-1305 | a configuration built below a call and resolved keeps its place under the call and its value |
| Engine.Arena.CallFunction | src/smartconfig/_internals.py:1370-1388 | a user function's error is passed on; its output is built under the call's schema, as a child of the call node in the call node's mode |
| Engine.Arena.Rebuild | src/smartconfig/_core_functions.py:54-126 | `raw`, `resolve`, `fully_resolve` and `template` rebuild their input (wrapped as `{"__template__": input}` for `template`) under the call's schema, in RAW, STANDARD, FULL and RAW mode, below the call node except for `raw` and `template` |
| Engine.Arena.FindSource | src/smartconfig/_core_functions.py:173-178 | the node returned is what the keypath reaches from the root (`NodeAt`, calls taken through their evaluation), never a call node; a first key the root dict lacks fails with "Keypath '<k>' does not exist." at the call and changes nothing; a KeyError never escapes |
| Engine.Arena.GetKeypath | src/smartconfig/_internals.py:419-448 | a missing dict key raises KeyError, a non-integer list segment raises ValueError, an index out of range raises IndexError, and an existing dict child that is not a call is returned; any node returned is what the path reaches (`NodeAt`) |
| Engine.Arena.GetKeypathOfCall | src/smartconfig/_internals.py:419-448 | on a call node the path is followed from what the call evaluates to; any node returned is what the path reaches (`NodeAt`) |
| Engine.Arena.Splice | src/smartconfig/_core_functions.py:23-51 | non-string input fails with "Input to 'splice' must be a string."; a keypath whose first key the root lacks fails with "Keypath '<k>' does not exist."; both change nothing; on success the node the keypath reaches resolved to `data`, and the result is `data` built under the call's schema in STANDARD mode, placed below the call |
| Engine.Arena.SpliceFrom | src/smartconfig/_core_functions.py:33-51 | once the input is checked, a first key the root lacks fails with "Keypath '<k>' does not exist." and changes nothing; on success the node the keypath reaches resolved to `data`, built under the call's schema in STANDARD mode and placed below the call |
| Engine.Arena.Use | src/smartconfig/_core_functions.py:129-212 | the input errors of `use` are reported before anything changes; on success the node the keypath reaches from the root resolved to a `__template__` call, its contents merged with the overrides (`UseContents`) were built under the call's schema in STANDARD mode, and the result is that tree placed below the call |
| Engine.Arena.UseTemplate | src/smartconfig/_core_functions.py:172-212 | once the input is checked, a keypath whose first key the root lacks fails with "Keypath '<k>' does not exist."; on success the template node the keypath reaches was resolved, its contents merged with the overrides and built under the call's schema in STANDARD mode, placed below the call |
| Engine.Arena.If | src/smartconfig/_core_functions.py:215-241 | the input errors of `if` are reported before anything changes; on success the condition was built under a boolean schema and resolved, the branch its truth picks (`then` when truthy, otherwise `else`), and only that one, was built under the call's schema and resolved, and the result is that value built below the call in its mode |
| Engine.Arena.IfBranch | src/smartconfig/_core_functions.py:236-241 | the condition is built under a boolean schema and resolved; the chosen branch is `then` exactly when the condition's value is truthy, and `else` otherwise; only that branch is built and resolved, and its value is built below the call in its mode |
| Engine.Arena.IfValue | src/smartconfig/_core_functions.py:236-241 | the chosen branch is built under the call's schema and resolved, and its value is built again below the call in its mode |
| Engine.BranchDoneOf | src/smartconfig/_core_functions.py:236-241 | the facts about the chosen branch, established as it was resolved, still hold once its value is built |
| Engine.IfDoneOf | src/smartconfig/_core_functions.py:225-241 | the facts about the condition and the branch of an `if` hold together at its end |
| Engine.Arena.Let | src/smartconfig/_core_functions.py:244-338 | the input errors of `let` are reported before anything changes; on success the variables, exactly when given, were built under `any` and resolved; the body is `in` built under the call's schema, placed as a new node below the call in its mode, whose local variables are the variables with each reference's binding added in order |
| Engine.Arena.LetLocals | src/smartconfig/_core_functions.py:276-290 | without variables there are no locals and nothing changes; variables that do not resolve to a dict fail with the let-variables message; otherwise the variables were built under `any` and resolved, and the locals are their entries, one plain-value binding each, in order |
| Engine.VarLocals | src/smartconfig/_core_functions.py:284-290 | no variables give no locals; a dict of variables gives one plain-value binding per entry, in order |
| Engine.Arena.BuildBelow | src/smartconfig/_core_functions.py:292-304 | building a subtree below a call succeeds exactly when `make_node` does, with the same error and the arena unchanged on failure; the new node is the built tree, placed under the call with the given local variables and mode |
| Engine.Arena.LetBody | src/smartconfig/_core_functions.py:292-338 | the body is `in` built under the call's schema and placed below the call in its mode; without references its local variables are the variables; with references (a dict) they are the variables with each reference's binding put in order |
| Engine.Arena.LetBind | src/smartconfig/_core_functions.py:305-336 | binding the references changes only the body's local variables among the nodes there, and sets them to the variables with each reference's binding added in order |
| Engine.Arena.SetLocals | src/smartconfig/_core_functions.py:311-336 | replacing a node's locals changes that node's locals and nothing else |
| Engine.Arena.BindReferences | src/smartconfig/_core_functions.py:305-336 | each reference is bound to what its target names (`__this__` the body, which must not be a value node; `__previous__` the previous element, its resolved value when it is a value node; anything else nothing), and the locals are the variables with those bindings put in order |
| Engine.Arena.BindStep | src/smartconfig/_core_functions.py:311-336 | one reference is bound to what its target names, and put into the locals under its name when it binds something |
| Engine.AddRefsUnbound | src/smartconfig/_core_functions.py:305-336 | a name that no reference binds keeps the binding the variables gave it |
| Engine.AddRefsLast | src/smartconfig/_core_functions.py:305-336 | a name is bound to the binding of the last reference given for it |
| Engine.BindsToStable | src/smartconfig/_core_functions.py:311-336 | what a reference bound stays what its target names as the arena grows |
| Engine.Arena.BindOne | src/smartconfig/_core_functions.py:311-336 | `__this__` binds the body as a lazy container, or fails with "'__this__' cannot be used when 'in' is a scalar value."; `__previous__` binds the previous list element (its resolved value for a value node, otherwise a lazy container) or fails as `PreviousOf` says; other targets bind nothing |
| Engine.Arena.ResolveConfiguration | src/smartconfig/_internals.py:1417-1534 | resolving a configuration fails with the build error when it does not build; otherwise the built tree is placed as a new root, and the result is the value that root resolves to (`Cached`); for a dict configuration, a dict with the built children's keys in order |
| Engine.GlobalVariable | src/smartconfig/_internals.py:1095-1119 | the injected root name always resolves to the root; any other key resolves exactly when it is a global, to that global's value |
| Engine.BoundMember | src/smartconfig/_internals.py:1101-1122 | a member of a plain value is found exactly when the value has it |
| Engine.BoundLocals | src/smartconfig/_core_functions.py:284-290 | resolved variables become one plain-value local each, in order |
| Engine.PositionOf | src/smartconfig/_core_functions.py:326 | `list.index`: the first position holding the element, or none when it is absent |
| Engine.PreviousOf | src/smartconfig/_core_functions.py:319-336 | a previous element exists exactly when the call sits in a list at a position past the first; outside a list it fails with "'__previous__' can only be used inside a list." |
| Engine.PreviousOfStable | src/smartconfig/_core_functions.py:319-332 | adding nodes to the arena does not change which element is previous |
| Engine.ChainCons | src/smartconfig/_internals.py:1171-1173 | a pass that changes the string, followed by a full interpolation of its output, is a full interpolation with the same final text |
| CoreFunctions.KeysOutside | src/smartconfig/_core_functions.py:164 | the keys outside the allowed set are exactly the dict's keys that are not allowed |
| CoreFunctions.ParseUse | src/smartconfig/_core_functions.py:144-170 | a string is the keypath with no overrides; a value that is neither string nor dict fails with "Input to 'use' must be a string or a dictionary."; a dict without "template" fails with its own message; every error is at the call's keypath |
| CoreFunctions.ParseUseAccepts | src/smartconfig/_core_functions.py:144-170 | `use` accepts exactly a string, or a dict with a string "template", an "overrides" that is absent, null or a dict, and no other key |
| CoreFunctions.UseContents | src/smartconfig/_core_functions.py:181-199 | a target that is not a dict with "__template__" fails with "The target of 'use' must be a '__template__' function call."; given a template, it succeeds exactly when there are no overrides or the contents are a dict, giving the contents unchanged without overrides and the contents deep-merged with the overrides otherwise; overrides on non-dict contents fail with the overrides-need-a-dict message; every error is a resolution error at the call's keypath |
| CoreFunctions.UseContentsKeys | src/smartconfig/_core_functions.py:191-199 | with overrides, the rebuilt template has the keys of the template and of the overrides |
| CoreFunctions.ParseIf | src/smartconfig/_core_functions.py:225-241 | `if` accepts exactly a dict whose key set is {condition, then, else}, failing with "Input to 'if' must be a dictionary." or the keys message otherwise, and takes its three parts from those keys |
| CoreFunctions.ParseLet | src/smartconfig/_core_functions.py:258-290 | `let` accepts exactly a dict with "in", with "variables" or "references", and with variables (if present) a dict; the parts are taken from those keys |
| CoreFunctions.TargetOf | src/smartconfig/_core_functions.py:311-336 | a reference names this node exactly for "__this__" and the previous element exactly for "__previous__" |
| ListFunctions.Inner | src/smartconfig/stdlib/list.py:33-46 | the inner lists of a list of lists, one per element, in order |
| ListFunctions.Flatten | src/smartconfig/stdlib/list.py:48 | the chained list is as long as all inner lists together |
| ListFunctions.FlattenIndex | src/smartconfig/stdlib/list.py:48 | element i of inner list j sits in the chained list after the elements of the lists before j |
| ListFunctions.Concatenate | src/smartconfig/stdlib/list.py:27-48 | `concatenate` fails with "Input to 'concatenate' must be a list of lists." or "… must be a non-empty list of lists." exactly in those cases, and otherwise gives a list as long as all inputs together |
| ListFunctions.ConcatenateElements | src/smartconfig/stdlib/list.py:27-48 | every element of every input list appears in the result, in order, at its offset |
| ListFunctions.MinLength | src/smartconfig/stdlib/list.py:67 | `zip` stops at the shortest list: the least length, reached by some list |
| ListFunctions.Tails | src/smartconfig/stdlib/list.py:67 | dropping the first element of each list |
| ListFunctions.MinLengthTails | src/smartconfig/stdlib/list.py:67 | dropping one element of each list lowers the least length by one |
| ListFunctions.ZipRows | src/smartconfig/stdlib/list.py:67 | as many rows as the shortest list, one column per list, row i column j holding element i of list j |
| ListFunctions.Zip | src/smartconfig/stdlib/list.py:51-67 | `zip` fails with its two messages exactly in those cases, and otherwise row i of the result holds element i of each input list |
| ListFunctions.PyRangeSpec | src/smartconfig/stdlib/list.py:108 | Python `range`: element i is start + i·step, every element is before stop in the step's direction, and the next one would not be |
| ListFunctions.ShiftStep | src/smartconfig/stdlib/list.py:108 | one step more is one more multiple of the step |
| ListFunctions.PyRangeUnique | src/smartconfig/stdlib/list.py:108 | any sequence with the three properties of `range` is that range |
| ListFunctions.IntValues | src/smartconfig/stdlib/list.py:108 | the integers of the range as configuration values, in order |
| ListFunctions.Range | src/smartconfig/stdlib/list.py:70-108 | `range` fails with the not-a-dict, missing-stop and unexpected-keys messages in those cases, with the must-be-integers message when a given bound is not an integer, and with Python's `range() arg 3 must not be zero` for a zero step; with integer bounds and a non-zero or absent step it succeeds, and a success is the Python range with start 0 and step 1 by default |
| ListFunctions.LoopBodiesSpec | src/smartconfig/stdlib/list.py:145-153 | the loop body succeeds for every element exactly when the loop does; result i is the body resolved with the variable bound to element i; a failure is the first element's failure |
| ListFunctions.LoopBodiesPrefixErr | src/smartconfig/stdlib/list.py:145-153 | once a prefix of the loop fails, the whole loop fails with that error |
| ListFunctions.Loop | src/smartconfig/stdlib/list.py:111-153 | the method computes `loop`'s specification: the input check, the resolution of `over`, and one resolved body per element |
| ListFunctions.ResolveEach | src/smartconfig/stdlib/list.py:145-153 | the loop over `over` computes one resolved body per element, stopping at the first error |
| ListFunctions.LoopResult | src/smartconfig/stdlib/list.py:125-153 | a successful `loop` had a dict input with the three keys, a list `over`, a string variable, and gives one element per element of `over`, each the body resolved under the element schema with the variable bound |
| ListFunctions.KeptIndices | src/smartconfig/stdlib/list.py:187-195 | the kept positions are increasing and are exactly those whose condition is truthy |
| ListFunctions.FilterKeptSpec | src/smartconfig/stdlib/list.py:187-197 | the filter succeeds exactly when every condition resolves; the result is the elements at the kept positions in order; a failure is the first condition's failure |
| ListFunctions.FilterKeptPrefixErr | src/smartconfig/stdlib/list.py:187-197 | once a prefix of the filter fails, the whole filter fails with that error |
| ListFunctions.Filter | src/smartconfig/stdlib/list.py:156-197 | the method computes `filter_`'s specification: the input check, the resolution of `iterable`, and the kept elements |
| ListFunctions.KeepEach | src/smartconfig/stdlib/list.py:187-197 | the loop over the iterable keeps exactly the elements of `FilterKept` |
| DictFunctions.Dicts | src/smartconfig/stdlib/dict.py:46-47 | the entries of each dict of a list of dicts, in order |
| DictFunctions.CheckDictList | src/smartconfig/stdlib/dict.py:33-44 | the input check passes exactly for a non-empty list of dicts |
| DictFunctions.UpdateFromOtherKey | src/smartconfig/stdlib/dict.py:50-51 | `dict.update` leaves a key the later dict does not mention unchanged |
| DictFunctions.UpdateFromKeys | src/smartconfig/stdlib/dict.py:50-51 | `dict.update` gives the union of the key sets |
| DictFunctions.UpdateGet | src/smartconfig/stdlib/dict.py:50-51 | after `dict.update` a key of the later dict has its value there, any other key its earlier value |
| DictFunctions.UpdateFromAt | src/smartconfig/stdlib/dict.py:50-51 | after `dict.update` each key of the later dict holds the later value |
| DictFunctions.ShallowUpdateGet | src/smartconfig/stdlib/dict.py:49-53 | each key holds its value in the last dict that has it, and the key set is the union of all key sets |
| DictFunctions.UpdateShallow | src/smartconfig/stdlib/dict.py:27-53 | `update_shallow` fails with the input check's error, and otherwise gives the shallow left-to-right update of the dicts |
| DictFunctions.Update | src/smartconfig/stdlib/dict.py:56-77 | `update` fails with the input check's error exactly when the check fails, and otherwise succeeds with the deep update of the non-empty list of dicts, whose keys are the union of their key sets |
| DictFunctions.ItemsToDictGet | src/smartconfig/stdlib/dict.py:103-111 | each key holds the value of the last item with that key |
| DictFunctions.FromItems | src/smartconfig/stdlib/dict.py:80-111 | `from_items` succeeds exactly when the input resolves to a list of items with string keys, and gives the dict of those items |
| DictFunctions.ItemsToDictPrefixErr | src/smartconfig/stdlib/dict.py:105-109 | once a prefix of the items fails, the whole loop fails with that error |
| LegacyFunctions.Raw | src/smartconfig/functions.py:31-36 | `raw` accepts exactly a string and marks it as a raw string; anything else fails with "Input to 'raw' must be a string." |
| LegacyFunctions.Recursive | src/smartconfig/functions.py:39-48 | `recursive` accepts exactly a string and marks it as a recursive string; anything else fails with "Input to 'recursive' must be a string." |
| LegacyFunctions.Splice | src/smartconfig/functions.py:51-72 | `splice` rejects anything but a string or a non-bool int; it succeeds exactly when the keypath (the int written in decimal) exists, with the value there, and otherwise fails with "Keypath '<k>' does not exist." |
| LegacyFunctions.If | src/smartconfig/functions.py:139-165 | `if_` rejects a non-dict and a dict whose keys are not exactly condition, then and else; it resolves the condition as a boolean and returns the resolved then or else branch, passing a condition error on |
| LegacyFunctions.Let | src/smartconfig/functions.py:169-199 | the older `let` fails with the not-a-dict, missing-keys and variables-not-a-dict messages in those cases and passes on an error from resolving the variables; once the variables resolve to a dict the result is the body resolved under the schema with them as locals, and a success is only ever that |
| LegacyFunctions.Loop | src/smartconfig/functions.py:203-248 | the method computes the older `loop`, which rejects an `over` that does not resolve to a list |
| LegacyFunctions.LoopRejectsNonList | src/smartconfig/functions.py:235-238 | an `over` resolving to something other than a list fails with "The value of 'over' in 'loop' must be a list." |
| LegacyFunctions.Filter | src/smartconfig/functions.py:295-339 | the method computes the older `filter_`, which rejects an `iterable` that does not resolve to a list |
| LegacyFunctions.FilterResult | src/smartconfig/functions.py:295-339 | a successful filter had a valid input and a list iterable, every condition resolved, and the result is the elements whose condition is truthy, in order |
| LegacyFunctions.StoreCheckedItem | src/smartconfig/functions.py:413-419 | an item that is not a dict with exactly the keys key and value fails with the `dict_from_items` message |
| LegacyFunctions.CheckedItemsPrefixErr | src/smartconfig/functions.py:412-421 | once a prefix of the items fails, the whole loop fails with that error |
| LegacyFunctions.CheckedItemsRejectsMalformed | src/smartconfig/functions.py:412-421 | one malformed item anywhere makes `dict_from_items` fail |
| LegacyFunctions.DictFromItems | src/smartconfig/functions.py:384-421 | `dict_from_items` passes on the resolution error, rejects a non-list, and otherwise gives the checked dict of the items or the first item's error |
| Calendar.CombineParts | src/smartconfig/stdlib/datetime.py:49-52 | a datetime built from a date and a time of day has exactly that date and that time of day (the `datetime.combine` step) |
| Calendar.ShiftDays | src/smartconfig/stdlib/datetime.py:317-321 | adding n whole days moves the date by n and keeps the time of day |
| Calendar.SevenDaysCoverAll | src/smartconfig/stdlib/datetime.py:317-322 | stepping one day at a time in either direction meets every weekday within seven steps |
| Calendar.FirstHit | src/smartconfig/stdlib/datetime.py:320-321 | the first step from k on whose weekday is in the set: no earlier step hits, and a step below 7 does hit |
| Calendar.GapSpec | src/smartconfig/stdlib/datetime.py:317-322 | for a non-empty weekday set the distance to the first matching day lies in 1..7, that day matches and no closer day does |
| Calendar.FirstWeekdaySpec | src/smartconfig/stdlib/datetime.py:289-322 | `_find_first_weekday` returns a day strictly after (before) the reference, at most a week away, on a wanted weekday, with no wanted weekday in between, at the reference's time of day |
| Calendar.SearchLoopEmpty | src/smartconfig/stdlib/datetime.py:320-321 | with an empty weekday set the search loop never finds a day, however many steps it takes |
| Calendar.SearchLoopFinds | src/smartconfig/stdlib/datetime.py:317-322 | for a non-empty set the step-by-step search from the day after (before) the reference ends within six further steps, on the nearest matching day |
| Calendar.SearchLoopFrom | src/smartconfig/stdlib/datetime.py:320-321 | a search resumed at step k, with no match before step g and a match at g, ends at step g |
| Calendar.FindFirstWeekday | src/smartconfig/stdlib/datetime.py:289-322 | the loop that steps a cursor by one day until its weekday is wanted ends on the nearest matching day (the specification proved by FirstWeekdaySpec) |
| Calendar.NextCandidateSpec | src/smartconfig/stdlib/datetime.py:458-464 | the step used past a skipped date moves 1 to 7 days in the search direction and keeps the time of day |
| Calendar.SkipExcluded | src/smartconfig/stdlib/datetime.py:325-372 | `_skip_excluded`: the retry loop returns what the bounded specification gives, and reports exhaustion once more than 366 retries were needed |
| Calendar.SkipFromSpec | src/smartconfig/stdlib/datetime.py:363-372 | a date found past the skipped ones is not skipped and keeps the time of day; whenever at most 366 skipped dates lie ahead, one is found |
| DateText.DayIndex | src/smartconfig/stdlib/datetime.py:140-174 | a weekday name is accepted exactly when its upper-case form is one of MONDAY..SUNDAY, and maps to that name's index |
| DateText.DayIndexNames | src/smartconfig/stdlib/datetime.py:130-137 | each weekday's name, upper- or lower-case, maps back to that weekday |
| DateText.NamesDistinct | src/smartconfig/stdlib/datetime.py:130-137 | the seven weekday names are pairwise different |
| DateText.NamesAreCapitals | src/smartconfig/stdlib/datetime.py:130-137 | every weekday name is written in capital letters only |
| DateText.CapitalsCase | src/smartconfig/stdlib/datetime.py:140-174 | a capitals-only name is unchanged by upper-casing, and survives a lower-then-upper round trip |
| DateText.FindSuffix | src/smartconfig/stdlib/datetime.py:211-249 | a found time suffix is " at " (any case) and HH:MM:SS in two-digit groups at the end of the line; when none is found, the pattern matches at no position |
| DateText.SuffixShape | src/smartconfig/stdlib/datetime.py:211-249 | any match of the time pattern has exactly the " at HH:MM:SS" layout and ends the line |
| DateText.SuffixUnique | src/smartconfig/stdlib/datetime.py:211-249 | no match of the time pattern starts after the end of the one found |
| DateText.ApplyTimeSpec | src/smartconfig/stdlib/datetime.py:611-614 | a time override keeps the parsed date and sets the time of day; without one the parsed datetime is returned unchanged |
| DateTimes.ReadDateTime | src/smartconfig/stdlib/datetime.py:18-62 | a datetime is returned as is, a date becomes its midnight, a string is read as ISO text exactly when that succeeds, anything else is an error |
| DateTimes.LexTotal | src/smartconfig/stdlib/datetime.py:96-102 | the string order used to sort unknown units is total and antisymmetric |
| DateTimes.Insert | src/smartconfig/stdlib/datetime.py:96-102 | inserting a unit name into an ascending list keeps it ascending and adds exactly that name |
| DateTimes.SortedSet | src/smartconfig/stdlib/datetime.py:96-102 | `sorted(...)` of the unknown units is ascending and holds the same names |
| DateTimes.UnknownKeys | src/smartconfig/stdlib/datetime.py:95-97 | the unknown units are exactly the keys of the dict that are not weeks, days, hours, minutes or seconds |
| DateTimes.CopyUnits | src/smartconfig/stdlib/datetime.py:103-111 | the loop copying unit amounts returns what the dict-offset specification gives, failing on the first non-int amount |
| DateTimes.DictUnitsPrefixErr | src/smartconfig/stdlib/datetime.py:103-111 | once a prefix of the dict holds a non-int amount, the whole dict fails with that prefix's error |
| DateTimes.DictUnitsKeys | src/smartconfig/stdlib/datetime.py:103-111 | a successful copy has the same keys as the input and every amount is an int |
| DateTimes.KeySetSnoc | src/smartconfig/stdlib/datetime.py:111 | appending an entry adds its key to the key set |
| DateTimes.OffsetPartShape | src/smartconfig/stdlib/datetime.py:118 | a part matching the offset pattern is digits, white space, a unit word and an optional "s", ending the line |
| DateTimes.OffsetParts | src/smartconfig/stdlib/datetime.py:116 | the offset text splits into one stripped part per comma-separated piece |
| DateTimes.CollectUnits | src/smartconfig/stdlib/datetime.py:115-123 | the loop over text parts returns what the text-offset specification gives, failing on the first part that does not match |
| DateTimes.TextUnitsPrefixNone | src/smartconfig/stdlib/datetime.py:117-120 | once a prefix of the parts fails to parse, the whole text fails |
| DateTimes.TextUnitsLast | src/smartconfig/stdlib/datetime.py:121-122 | when a unit is given twice in the text, the last amount wins |
| DateTimes.PartUnitSound | src/smartconfig/stdlib/datetime.py:118-122 | a parsed part yields a valid unit name and the decimal value of its leading digit run |
| DateTimes.WordUnit | src/smartconfig/stdlib/datetime.py:122 | each unit word plus "s" is a valid timedelta unit |
| DateTimes.ReadOffset | src/smartconfig/stdlib/datetime.py:65-127 | `_read_offset` returns what the offset specification gives: dict units, text units, or "'by' must be a string or dictionary" |
| DateTimes.ReadDictOffset | src/smartconfig/stdlib/datetime.py:95-112 | the dict branch returns the dict offset: an unknown unit is an error naming the sorted unknown and valid units, otherwise each amount must be an int |
| DateTimes.ReadTextOffset | src/smartconfig/stdlib/datetime.py:114-123 | the string branch returns the text offset: "Cannot parse offset" when a comma-separated part is not an amount and a unit, otherwise the total seconds |
| DateTimes.DayOfTheWeek | src/smartconfig/stdlib/datetime.py:140-174 | `_get_day_of_the_week` succeeds exactly on a string naming a weekday, case-insensitively, with that weekday |
| DateTimes.WeekdaysOfOk | src/smartconfig/stdlib/datetime.py:507 | a list of names converts exactly when every element is a weekday name |
| DateTimes.WeekdaysOfMembers | src/smartconfig/stdlib/datetime.py:507 | the converted set holds exactly the weekdays named somewhere in the list |
| DateTimes.Texts | src/smartconfig/stdlib/datetime.py:177-208 | the comma-separated names become one string value each, in order |
| DateTimes.ParseWeekdaysComma | src/smartconfig/stdlib/datetime.py:177-208 | a lone comma parses to the empty weekday set (empty names are dropped) |
| DateTimes.SkipDatesSpec | src/smartconfig/stdlib/datetime.py:257-286 | the skip set holds exactly the dates of the list's readable elements, and a successful read needs each element readable |
| DateTimes.At | src/smartconfig/stdlib/datetime.py:380-412 | `at` fails with the not-a-dict, missing-date and missing-time messages, passes on an unreadable date's error, and fails with the not-a-string and invalid-time messages for a bad time; with a readable date and a valid time string it succeeds, and the result is a datetime with that date and that time of day |
| DateTimes.CheckDirection | src/smartconfig/stdlib/datetime.py:433-442 | the direction check passes exactly when one of "before" and "after" is present |
| DateTimes.Offset | src/smartconfig/stdlib/datetime.py:418-467 | `offset` returns what its specification gives (checks, shift by the offset, then skipping) |
| DateTimes.OffsetInputsSpec | src/smartconfig/stdlib/datetime.py:427-455 | accepted offset inputs are dicts with "by" and exactly one direction, and the direction read is "before" exactly when that key is present |
| DateTimes.OffsetResult | src/smartconfig/stdlib/datetime.py:448-467 | an `offset` result is the reference shifted by the offset when nothing is skipped; in every case it is not a skipped date and keeps the shifted time of day |
| DateTimes.First | src/smartconfig/stdlib/datetime.py:473-530 | `first` returns what its specification gives, searching with the weekday loop and then the skip loop |
| DateTimes.FirstResult | src/smartconfig/stdlib/datetime.py:473-530 | a `first` result is on a wanted weekday, at the reference's time of day, not skipped, and is the nearest such day when nothing is skipped |
| DateTimes.SkipWeekdays | src/smartconfig/stdlib/datetime.py:522-528 | skipping past excluded dates by weekday steps stays on the wanted weekdays |
| DateTimes.FirstAttemptSpec | src/smartconfig/stdlib/datetime.py:602-609 | the parse forms are tried in order: the outcome is "no match" exactly when every form does not match, and otherwise is the outcome of the first form that matches |
| DateTimes.RunAttempt | src/smartconfig/stdlib/datetime.py:545-580 | each parse form (first weekday, offset, ISO) returns what its specification gives |
| DateTimes.Parse | src/smartconfig/stdlib/datetime.py:583-614 | `parse` returns what its specification gives |
| DateTimes.ParseResult | src/smartconfig/stdlib/datetime.py:583-614 | a parsed datetime has the date the first matching form found; the " at HH:MM:SS" suffix, when present, sets the time of day, and otherwise the form's datetime is returned as is |
| Patterns.Run | src/smartconfig/converters.py:204-205 | a run of one character class is the longest prefix in that class, within its cap |
| Patterns.MatchFrom | src/smartconfig/converters.py:308 | a match found by the backtracking matcher satisfies the pattern item by item |
| Patterns.MatchComplete | src/smartconfig/converters.py:308 | whenever the pattern can match at a position at all, the backtracking matcher finds a match there |
| Patterns.Match | src/smartconfig/converters.py:308 | `re.match`: a result is a match at the start of the text, and no result means that no way of matching exists |
| Patterns.Search | src/smartconfig/converters.py:204-205 | `re.search`: the result is the leftmost position where the pattern matches, and no result means it matches nowhere |
| SmartDates.Raise | src/smartconfig/parsers.py:176 | the converters raise ConversionError and the parsers raise ParseError, each for its own side |
| SmartDates.RemoveTimeOf | src/smartconfig/converters.py:179-218 | the time suffix is removed exactly when it is a valid time of day; an out-of-range time fails with "Invalid time: <s>." |
| SmartDates.OrElse | src/smartconfig/converters.py:385-403 | the forms are tried in turn: the first one that matches decides, and only a non-match moves on |
| SmartDates.RelativeDigits | src/smartconfig/converters.py:229-238 | the number in "N days/hours before/after" is a non-empty run of digits |
| SmartDates.RelativeDeltaSpec | src/smartconfig/converters.py:239-253 | "before" moves back and "after" moves forward by the same amount, in whole hours or whole days |
| SmartDates.NameWeekdays | src/smartconfig/converters.py:313-314 | the names convert exactly when each is a weekday name, and the set holds exactly the weekdays named |
| SmartDates.FirstAvailableDay | src/smartconfig/converters.py:297-329 | the "first <days> after/before <date>" loop returns what its specification gives |
| SmartDates.FirstAvailableResult | src/smartconfig/converters.py:297-329 | a found day is on a named weekday, 1 to 7 days in the requested direction, at the suffix's time when given and otherwise at the reference's |
| SmartDates.NoNamesNoWeekdays | src/smartconfig/converters.py:303-314 | a name list that is only separators gives the empty weekday set, on which the search never ends |
| SmartDates.SmartDateSpec | src/smartconfig/converters.py:335-403 | `smartdate` yields a date; a string it cannot read fails with a conversion (or time) error |
| SmartDates.SmartDate | src/smartconfig/converters.py:335-403 | the converter and the parser `smartdate` return what the specification gives, trying ISO, relative and first-weekday forms in turn |
| SmartDates.SmartDateTimeSpec | src/smartconfig/converters.py:406-469 | `smartdatetime` yields a datetime; a string it cannot read fails with a conversion (or time) error |
| SmartDates.SmartDateTime | src/smartconfig/converters.py:406-469 | the converter and the parser `smartdatetime` return what the specification gives, trying ISO, explicit, relative and first-weekday forms in turn |
| SmartDates.SmartDateOfDateTime | src/smartconfig/converters.py:335-469 | for a string without an explicit " at " time, `smartdate` is the date of `smartdatetime` |
| SmartDates.SmartDateKinds | src/smartconfig/converters.py:374-441 | a date passes `smartdate` unchanged and a datetime passes `smartdatetime` unchanged; `smartdate` of a datetime is its date; a date is refused by the converter `smartdatetime` and becomes its midnight in the parser |
| Expressions.Truncate | src/smartconfig/converters.py:97 | `int(x)` of a float rounds toward zero |
| Expressions.Cast | src/smartconfig/converters.py:97 | `type_(number)`: the result has the target type, keeps an int's value and a float's value, and turns an int into the same float |
| Expressions.BitAnd | src/smartconfig/converters.py:127 | `&` of non-negative ints is non-negative and at most either operand |
| Expressions.Bitwise | src/smartconfig/converters.py:141 | `operator.and_`/`or_` succeed exactly on two ints (bools included), and on two bools they are logical and/or |
| Expressions.AllValues | src/smartconfig/converters.py:141 | evaluating all operands succeeds with every operand's value in order, and otherwise fails with one operand's error |
| Expressions.AllOk | src/smartconfig/converters.py:141 | operands that all evaluate give exactly their values |
| Expressions.ShortCircuitTruth | src/smartconfig/converters.py:139-141 | Python's `or` (`and`) over evaluated operands is truthy exactly when some (every) operand is |
| Expressions.AgreeOnBinaryBools | src/smartconfig/converters.py:126-141 | on trees of boolean constants with two operands per operator, the bitwise evaluation as written agrees with Python's `and`/`or` and gives a bool |
| Expressions.ThreeOperandsFail | src/smartconfig/converters.py:141 | "True or False or True" fails as written (three arguments to a two-argument operator) but is True in Python |
| Expressions.BitwiseAndOfInts | src/smartconfig/converters.py:141 | "1 and 2" evaluates to 0 as written but to 2 in Python |
| Converters.Arithmetic | src/smartconfig/converters.py:25-99 | the arithmetic converter returns a value of the target type; it passes that type through, widens an int to float, refuses a float for int, and reports every other failure as a ConversionError |
| Converters.ArithmeticIdempotent | src/smartconfig/converters.py:78-80 | converting a converted value again changes nothing |
| Converters.ArithmeticOfString | src/smartconfig/converters.py:90-97 | a string evaluating to a float gives that float, or for int its value rounded toward zero |
| Converters.Logic | src/smartconfig/converters.py:105-146 | `logic` with Python's `and`/`or`: a bool passes through, another non-string fails, and a string succeeds only when it parses and evaluates, with the truth of its value |
| Converters.LogicAsWritten | src/smartconfig/converters.py:105-146 | `logic` as written, with bitwise `and`/`or`: results are bools, errors are ConversionErrors, and non-strings behave as in Logic |
| Converters.LogicAgreement | src/smartconfig/converters.py:126-146 | on boolean expressions with two operands per operator, the as-written and the corrected `logic` agree and succeed |
| Converters.LogicOfThreeOperands | src/smartconfig/converters.py:139-146 | "True or False or True" is refused as written and True when corrected |
| Converters.LogicOfOneAndTwo | src/smartconfig/converters.py:139-146 | "1 and 2" is False as written and True when corrected |
| Parsers.RaiseParseError | src/smartconfig/parsers.py:77 | the corrected parse error is a ParseError carrying the message |
| Parsers.ParseErrorIsMissing | src/smartconfig/parsers.py:77 | as written, every parse error is the same AttributeError (the exceptions module has no ParseError), whatever the message; corrected, different messages give different errors |
| Parsers.Arithmetic | src/smartconfig/parsers.py:25-80 | the arithmetic parser returns a value of the target type, passes that type through, fails with the ParseError on other non-strings and on a TypeError of the evaluation, passes other evaluation errors on, and gives `type_(number)` of the evaluated constant |
| Parsers.ArithmeticNoPromotion | src/smartconfig/parsers.py:71-78 | unlike the converter, the float parser does not widen an int: it fails |
| Parsers.CastConstant | src/smartconfig/parsers.py:78 | `type_(number)`: an int or float is cast to the type; a string succeeds exactly when it is a numeral of the type, else a ValueError; anything else (None) is a TypeError; a success is an instance of the type and never a bool |
| Parsers.ArithmeticOfNone | src/smartconfig/parsers.py:71-78 | "None" evaluates to None, whose cast is a TypeError that is not turned into a ParseError |
| Parsers.Logic | src/smartconfig/parsers.py:87-117 | corrected: the logic parser passes a bool through, fails with a TypeError on other non-strings and with a SyntaxError on unparsable text, and otherwise gives the truth of the value with `and`/`or` given their Python meaning |
| Parsers.LogicAsWritten | src/smartconfig/parsers.py:87-117 | as written: a bool passes through, and a parsed string is evaluated with `and`/`or` as the two-argument bitwise operators, giving the truth of the result; it agrees with the corrected parser on non-strings |
| Parsers.LogicOfThreeOperands | src/smartconfig/parsers.py:110-112 | "True or False or True" fails as written, a two-argument operator given three operands, and is True as corrected |
| Parsers.LogicAgreesWithConverter | src/smartconfig/parsers.py:87-117 | the logic parser succeeds exactly when the logic converter does, with the same result, both as written and corrected |
| OldResolve.CheckForFunctionCall | src/smartconfig/_resolve.py:691-725 | a dict is not a call exactly when no key has the dunder form; with a dunder key and more than one key it fails with "Invalid function call."; a call is a one-key dict whose name is the key without its leading and trailing two characters |
| OldResolve.CallNameRoundTrip | src/smartconfig/_resolve.py:691-725 | wrapping a name as "__name__" and recognising the call gives the name back |
| OldResolve.ShortDunderKeys | src/smartconfig/_resolve.py:687-723 | "__" and "___" count as dunder keys, and both name the empty function |
| OldResolve.FunctionCallOf | src/smartconfig/_resolve.py:763-797 | building a call node fails with "Invalid function call." when the dict is not a call, with "Unknown function: <name>" for an unregistered name, and otherwise yields a registered name and the value under its dunder key |
| OldResolve.FunctionCallOfWritten | src/smartconfig/_resolve.py:763-797 | a one-key call dict of a registered function gives that function and its input |
| OldResolve.OldSafely | src/smartconfig/_resolve.py:676-681 | every smartconfig error becomes a ResolutionError at the leaf's keypath, carrying the original error's text; other exceptions pass through unchanged |
| OldResolve.RawLeaf | src/smartconfig/_resolve.py:597-604 | a raw string resolves to itself exactly when the schema type is "string" or "any", and otherwise fails with "Schema expected something other than a string." |
| OldResolve.SettleIsFixpoint | src/smartconfig/_resolve.py:615-622 | a recursive string is interpolated until nothing changes: the result is a fixed point of interpolation |
| OldResolve.SettleOnFixpoint | src/smartconfig/_resolve.py:615-622 | a string interpolation does not change is its own result |
| OldResolve.ParseLeaf | src/smartconfig/_resolve.py:663-674 | a leaf is parsed by the parser registered for its type, and an unregistered type fails with "No parser provided for type: '<type>'." |
| OldResolve.NoParserDoubleWrapped | src/smartconfig/_resolve.py:628-681 | the missing-parser error is wrapped a second time by `_safely`, so its message carries the keypath twice |
| OldResolve.NullableNullLeaf | src/smartconfig/_resolve.py:628-629 | a nullable leaf holding None resolves to None |
| OldResolve.OldValueNode.constructor | src/smartconfig/_resolve.py:545-567 | a new leaf node holds its value, type, keypath and nullability and has resolved nothing yet |
| OldResolve.OldValueNode.Resolve | src/smartconfig/_resolve.py:589-633 | a raw string skips the cache; a pending leaf fails with "Circular reference"; a cached value is returned; otherwise the leaf's value is computed, an error leaves it pending, None leaves it unresolved and anything else is cached |
| OldResolve.ResolveTwice | src/smartconfig/_resolve.py:606-633 | resolving a leaf again returns the cached value after a success, and reports "Circular reference" after a failure |
| OldResolve.EvaluateAll | src/smartconfig/_resolve.py:425-427 | evaluating the call children of a container keeps the number of children |
| OldResolve.EvaluateAllAt | src/smartconfig/_resolve.py:425-427 | after evaluation each call child is replaced by its evaluated node, and every other child is kept |
| OldResolve.EvaluateAllPrefixErr | src/smartconfig/_resolve.py:425-427 | the first call child that fails to evaluate decides the error |
| OldResolve.ResolveAll | src/smartconfig/_resolve.py:429-434 | resolving the children gives one value per child |
| OldResolve.ResolveAllAt | src/smartconfig/_resolve.py:429-434 | a successful resolution holds each child's resolved value at its position, and no call child remains |
| OldResolve.ResolveAllPrefixErr | src/smartconfig/_resolve.py:429-434 | the first child that fails to resolve decides the error |
| OldResolve.ResolveContainer | src/smartconfig/_resolve.py:422-434 | the container first replaces its call children in place by their evaluations, then resolves each child; children change only by being replaced with their evaluation |
| OldResolve.SubscriptKey | src/smartconfig/_resolve.py:938 | `src[key]` on a dict succeeds exactly for a present key, with its value |
| OldResolve.SubscriptIndex | src/smartconfig/_resolve.py:938 | `src[i]` on a list succeeds exactly for an index in range, with that element |
| OldResolve.CopyInto | src/smartconfig/_resolve.py:925-942 | `_copy_into` refuses a leaf destination with "The destination must be a dictionary or list.", and a copy keeps the destination's keys (or length) |
| OldResolve.CopyEntries | src/smartconfig/_resolve.py:930-942 | copying into a dict's remaining entries keeps their keys in order |
| OldResolve.CopyItems | src/smartconfig/_resolve.py:932-942 | copying into a list's remaining items keeps their number |
| OldResolve.GetUnique | src/smartconfig/_resolve.py:938 | in a dict with distinct keys, looking up an entry's key gives that entry's value |
| OldResolve.CopyIntoFits | src/smartconfig/_resolve.py:1086-1091 | when the resolved configuration has the raw configuration's shape, copying it into a copy of the raw one gives the resolved configuration back |
| OldResolve.CopyEntriesFits | src/smartconfig/_resolve.py:930-942 | copying a fitting dict's entries from position i gives the source's entries from i |
| OldResolve.CopyItemsFits | src/smartconfig/_resolve.py:932-942 | copying a fitting list's items from position i gives the source's items from i |
| OldResolve.DefaultParsers | src/smartconfig/_resolve.py:53-61 | the default parsers cover exactly integer, float, string, boolean, date, datetime and any |
| OldResolve.OverriddenGet | src/smartconfig/_resolve.py:945-953 | after overriding, a type has a parser exactly when it had one or was overridden; the last override of a type wins, and other types keep their parser |
| OldResolve.UpdateParsers | src/smartconfig/_resolve.py:945-953 | without overrides the parsers are the defaults; with them, the defaults updated by the overrides in order |
| OldResolve.OverriddenKeepsDefaults | src/smartconfig/_resolve.py:945-953 | overriding never removes a default type |
| OldResolve.DefaultUpdateAsWrittenIsShallow | src/smartconfig/_resolve.py:64-70 | as written, "update" names the shallow update: merging two nested dicts keeps only the second inner dict, where the deep update merges them |
| OldResolve.DefaultFunctionsByName | src/smartconfig/_resolve.py:64-70 | in the corrected table every name maps to the function of that name, and "update" is the deep update, keeping all keys |
| Prototypes.TypeMap | src/smartconfig/_prototypes.py:14-21 | each builtin class maps to a schema value type (string, integer, float, boolean, date, datetime) |
| Prototypes.TypeOf | src/smartconfig/_prototypes.py:161 | `type(o)` is a class |
| Prototypes.PrototypeClasses | src/smartconfig/_prototypes.py:539-567 | `is_prototype_class` holds of the subclasses of Prototype only: not of Prototype, other classes or instances; the class of an object is a prototype class exactly when the object is an instance |
| Prototypes.NonNull | src/smartconfig/_prototypes.py:399-405 | unwrapping a nullable hint gives its member that is not None |
| Prototypes.Unwrap | src/smartconfig/_prototypes.py:408-421 | a hint that is neither NotRequired nor nullable is unchanged, and NotRequired[T] gives T when T is not nullable |
| Prototypes.UnsupportedWrappings | src/smartconfig/_prototypes.py:424-471 | NotRequired[Optional[T]] is supported, but NotRequired inside a union, NotRequired twice, a union without None, dict[int, int], bare list, Prototype and None are not |
| Prototypes.DefinedIsSupported | src/smartconfig/_prototypes.py:424-471 | every hint of a checked class is one `_is_supported_type_hint` accepts |
| Prototypes.TypeToSchema | src/smartconfig/_prototypes.py:474-536 | `_type_to_schema` always yields a dict schema with a "type" |
| Prototypes.TypeToSchemaWellFormed | src/smartconfig/_prototypes.py:474-536 | the schema of a supported hint is itself a valid schema, with or without defaults allowed |
| Prototypes.PutKeepsWellFormed | src/smartconfig/_prototypes.py:529-533 | marking a valid schema nullable (or giving it a default where defaults are allowed) keeps it valid |
| Prototypes.FieldSchema | src/smartconfig/_prototypes.py:240-255 | a field's schema is a dict |
| Prototypes.FieldSchemaDefault | src/smartconfig/_prototypes.py:243-250 | a field without a default has its hint's schema; one with a default has that default, in dict form, under "default" |
| Prototypes.FieldSchemaWellFormed | src/smartconfig/_prototypes.py:240-255 | a field's schema is a valid schema wherever its default is allowed |
| Prototypes.FieldSchemasAt | src/smartconfig/_prototypes.py:240-255 | a field appears in exactly one section, the optional one exactly when it has a default or is NotRequired, with its field schema |
| Prototypes.FieldSchemasEmpty | src/smartconfig/_prototypes.py:240-255 | a section is empty exactly when no field belongs to it |
| Prototypes.FieldSchemasWellFormed | src/smartconfig/_prototypes.py:237-255 | the required section holds valid schemas without defaults, and the optional section valid schemas that may have them |
| Prototypes.ClassSchema | src/smartconfig/_prototypes.py:226-263 | a class schema is a dict schema of type "dict" |
| Prototypes.ClassSchemaGet | src/smartconfig/_prototypes.py:257-263 | the class schema has only "type", "required_keys" and "optional_keys", each section present exactly when non-empty |
| Prototypes.FieldPlacement | src/smartconfig/_prototypes.py:245-255 | every field's schema sits under its name in its own section and is absent from the other |
| Prototypes.SectionsPresent | src/smartconfig/_prototypes.py:258-261 | "required_keys" is present exactly when some field is required, and "optional_keys" exactly when some field is optional |
| Prototypes.ClassSchemaWellFormed | src/smartconfig/_prototypes.py:226-263 | `_schema` of a checked class is a valid schema for `validate_schema` |
| Prototypes.Schema | src/smartconfig/_prototypes.py:226-263 | the one-pass loop over the fields builds exactly the class schema |
| Prototypes.AsDict | src/smartconfig/_prototypes.py:265-292 | the loop over the fields builds exactly the entries of the set fields, in dict form |
| Prototypes.AsDictAt | src/smartconfig/_prototypes.py:287-292 | a field's name maps in `_as_dict` to its value in dict form when set, and is absent otherwise |
| Prototypes.AsDictKeys | src/smartconfig/_prototypes.py:287-292 | the keys of `_as_dict` are the names of the set fields, in definition order |
| Prototypes.InitFieldsPrefixErr | src/smartconfig/_prototypes.py:134-142 | a missing field among the first n fields stops `__init__` with that field's error |
| Prototypes.InitFieldsSpec | src/smartconfig/_prototypes.py:134-142 | `__init__` succeeds exactly when no field is missing (not given, no default, not NotRequired); each field then holds its argument, else its default, else nothing; a failure names the first missing field |
| Prototypes.Init | src/smartconfig/_prototypes.py:108-142 | the constructor loop gives exactly the specified instance or error |
| Prototypes.ConstructShaped | src/smartconfig/_prototypes.py:108-142 | a constructed instance has one slot per field, belongs to the class and has no extra attributes |
| Prototypes.Eq | src/smartconfig/_prototypes.py:144-181 | `__eq__` holds exactly when the two objects are the same instance value: same class, same fields set with equal values, same extra attribute names; equality implies the other is a prototype instance |
| Prototypes.ReprInstance | src/smartconfig/_prototypes.py:183-201 | the loop builds exactly the specified repr |
| Prototypes.ReprListsSetFields | src/smartconfig/_prototypes.py:195-201 | the repr lists one "name=value" part per set field, in definition order |
| Prototypes.Iterate | src/smartconfig/_prototypes.py:346 | iterating a list gives its items, and iterating anything but a list, string or dict fails |
| Prototypes.ItemsOf | src/smartconfig/_prototypes.py:353 | `.items()` succeeds exactly on a dict |
| Prototypes.AllOk | src/smartconfig/_prototypes.py:346 | a comprehension that succeeds has one result per element |
| Prototypes.AllOkOfOks | src/smartconfig/_prototypes.py:346 | when every element converts, the comprehension gives exactly the converted elements |
| Prototypes.KwargsPrefixErr | src/smartconfig/_prototypes.py:358-361 | a conversion error in an earlier field is the error of `_from_dict` |
| Prototypes.FromDict | src/smartconfig/_prototypes.py:295-362 | the loop collecting keyword arguments gives exactly the (corrected) `_from_dict` result |
| Prototypes.ConvertedRoundTrip | src/smartconfig/_prototypes.py:336-356 | converting the dict form of a value that conforms to its hint gives the value back |
| Prototypes.KwargsRoundTrip | src/smartconfig/_prototypes.py:358-361 | from an instance's `_as_dict`, the collected arguments are exactly the set fields with their values |
| Prototypes.FromDictRoundTrip | src/smartconfig/_prototypes.py:265-362 | `_from_dict(_as_dict(x)) == x` for every well-typed instance, once NotRequired and `or None` are looked through |
| Prototypes.FromDictAsWrittenLosesNested | src/smartconfig/_prototypes.py:336-356 | as written, a NotRequired prototype field comes back from `_from_dict(_as_dict(x))` as a plain dict, so the round trip fails; the corrected conversion restores it |

## Left out

- Jinja2 rendering is not modelled. `_make_custom_jinja_context` and `_interpolate` in `_internals.py` become the reference-only template language of `Templates`. Expressions, filters, loops and conditionals inside `${...}` are out. How a value renders into text is a parameter.
- The older engine's `_ValueNode._interpolate` in `_resolve.py` is a parameter (a function from string to result) of `OldResolve`.
- `ast.parse`, the `_eval` tree walk over arithmetic operators and float arithmetic are library code. They are parameters: an evaluation function for `arithmetic` and a parse function for `logic`. Only the type dispatch and the and/or/not grammar are modelled.
- `datetime.fromisoformat` and `time.fromisoformat` are parameters (`DateText.Iso`). Calendar dates are day numbers, so month lengths, leap years, microseconds and time zones are not represented.
- Python's regular expressions are replaced by the small matcher in `Patterns`. It covers the character classes, alternations and greedy or lazy repetitions that the date patterns use, nothing more.
- `re.sub` in `_parse_and_remove_time` removes only the match that `re.search` found. Since that match ends the line and no later match can start after it (`DateText.SuffixUnique`), nothing else is removed, unless the text has several lines.
- Engine.ParseIndex: models `int()` on a segment with its surrounding white space, an optional `+` or `-` and single underscores between ASCII digits; digits other than ASCII `0`-`9` (which `int()` also accepts) are not modelled.
- User-supplied functions are one parameter `apply` of the engine context. They receive the input, keypath and schema, but not `root` and `resolve` callbacks, since a Dafny function cannot call back into a state-changing method. The stdlib `loop`, `filter` and `from_items` are modelled outside the engine, with a resolver given as a pure function.
- Python recursion depth is modelled as fuel. Running out is reported as a `RecursionLimit` error, where the source raises RecursionError.
  - Fuel bounds the engine's mutual recursion between resolve, evaluate and interpolate.
  - It bounds the FULL-mode interpolation fixpoint.
  - It bounds `OldResolve.Settle`, the RecursiveString loop of `_resolve.py`. That loop has no bound in the source and can run forever.
- Engine: the `_root` cache of `_internals.py` is not kept. The root is recomputed by walking parents, which gives the same node because parents never change.
- Engine: when `get_keypath` ends on a value node, the KeyError carries the dotted keypath. The source passes the keypath tuple itself.
- Nodes: a dynamic (callable) schema is a separate schema constructor that `make_node` calls once. What the callable computes is a parameter.
- Nodes: Python dict keys are distinct. Entry lists built from a raw configuration are assumed to have distinct keys wherever a lemma needs it (`UniqueKeys`).
- Schemas: Python set order decides which unexpected or missing key `_check_keys` names, and the order of keys in the "Unexpected keys in 'use'" message. The model names the first such key in dict order, and lists the `use` keys in dict order.
- OldResolve: `_copy_into` is modelled on values. It returns the updated destination instead of writing into it, so aliasing between `dst` and `src` is not captured. `copy.deepcopy` needs nothing, because values are immutable.
- OldResolve: the children of a dict or list node are an array. Dict keys are dropped, since `_DictNode.resolve` only uses them to write back at the same position.
- OldResolve: the `resolve()` entry point of `_resolve.py` is not modelled beyond `_update_parsers` and `_copy_into`, because `_internals.py` replaces it. `_ConfigurationTreeNamespace` and `LazyValue` exist only to feed Jinja2.
- LegacyFunctions: `concatenate`, `zip_`, `range_`, `update_shallow` and `update` in `functions.py` have the same checks, messages and results as their `stdlib` counterparts. They are modelled once, in `ListFunctions` and `DictFunctions`.
- Prototypes: typing reflection (`get_type_hints`, `get_origin`, `get_args`) is replaced by the `Hint` datatype. The errors of `__init_subclass__` are taken as already checked (`ClassDefined`). Inheritance between prototype classes is not modelled.
- Prototypes: Python `==` on plain values (where `1 == 1.0 == True`) is modelled as structural equality of the model's values.
- Prototypes: an instance keeps only the names of its extra attributes, because `__eq__` compares only their names.
- Prototypes.ClassSchema, Prototypes.FieldSchema and Prototypes.FieldSchemaDefault: every default is written in dict form. `_schema` converts a default only when the field's hint is a bare prototype class; a default under `NotRequired[P]`, `Optional[P]`, or a list or dict of prototypes keeps its instances.
- Prototypes.FromDict: data that is not a dict gives a TypeError result. In the source the outcome depends on what the `in` tests and subscripts do with that data: `[]` for a class whose fields are all optional succeeds, and other data fails with whichever exception the first test or subscript raises.
- Prototypes.ReprInstance: floats, dates and datetimes print as placeholders. Python's exact `repr` of these is not modelled.
- Calendar.FindFirstWeekday: requires a non-empty weekday set. The source's loop never ends on an empty set (see Findings). Callers in the model check for the empty set first.
- Prototypes.Eq: requires both objects to have one slot per defined field. Every instance `__init__` builds has this shape (`ConstructShaped`).
- FieldSchema: a default is put under "default" in dict form, for every hint (see the Prototypes.ClassSchema line above).
- FieldSchemaDefault: a default is put under "default" in dict form, for every hint (see the Prototypes.ClassSchema line above).
- ValidateSchema: a schema that is not a dict fails with "Schema must be a mapping.". The source first tries `dict(schema)`, so a value that `dict()` accepts, such as a list of key-value pairs, is validated as that dict.
- PlainText: "renders to itself" holds for the reference-only template language. Jinja2, with its default `keep_trailing_newline=False`, drops one trailing newline, and `{%` and `{#` open a statement or a comment, so such strings change or fail in the source.
- PlainStringIsFixpoint: a string without `${` is a fixpoint of the reference-only template language only; under Jinja2 the trailing-newline and `{%`/`{#` cases of the PlainText line apply.
- Evaluate: its KeyError for a call node whose name has no registered function describes a state the source never reaches: `_internals.py:1503-1517` makes a call node only for a registered name.
- BuildDict: its own contract states only that a dict node comes out. Which children it has is stated by `Nodes.DictChildKeys`, and what each child is built from by `Nodes.DictChildrenBuilt`.
- LegacyFunctions.StoreCheckedItem: model dicts have string keys, so an item whose "key" is not a string is an AssertionFailed error here. `functions.py:412-421` stores it under any hashable key.
- LegacyFunctions.DictFromItems: it inherits the string-key restriction of the LegacyFunctions.StoreCheckedItem line, so `[{"key": 1, "value": 2}]` fails here and succeeds in the source.
- Config.Show: floats, dates and datetimes print as `<float>`, `<date>` and `<datetime>` placeholders, and strings always in single quotes. So every message built from a value differs from Python's f-string or `repr` output for those values, for example the "Cannot parse into int: '…'" of `Converters.Arithmetic` and `Parsers.Arithmetic`, and the date messages of `SmartDates.SmartDateTime`.
- Config.Repr: the same placeholders and quoting as the Config.Show line.
- Nodes.ExtraChildren and Nodes.ExtraKeyRejected: `_internals.py:661-667` takes the extra keys as a set and names `extra_keys.pop()`. The model names the first extra key in dict order and adds extra children in dict order.
- Calendar, DateTimes and SmartDates: dates are unbounded day numbers. Python's `date`, `datetime` and `timedelta` raise OverflowError outside years 1-9999, for example an `offset` with a very large number of days; the model gives a date there.
- Parsers.Arithmetic: `int(s)` and `float(s)` of a numeral string are a parameter (`Numerals`). `type_(number)` of bytes or complex constants is not modelled.
- `types.py`, `stdlib/__init__.py` and `__init__.py` hold declarations and registries only. Their content appears as the `Value` datatype, the `Mode` datatype and the function tables.

## Findings

| source | as written | input that shows it | evidently intended | confidence | as-written member | corrected member |
|---|---|---|---|---|---|---|
| src/smartconfig/stdlib/datetime.py:320-321 | `first` searches for the next weekday in the set one day at a time; an empty set is never checked | `{"weekday": ",", "after": "2021-10-01"}` or `"weekday": []`: both give an empty set, and the loop never ends | an error for an empty weekday set, or a result for a non-empty one | high (not executed) | Calendar.SearchLoopEmpty | DateTimes.FirstResult |
| src/smartconfig/converters.py:321-324 | `_parse_first_available_day` steps day by day while the weekday is not in the set; the day-name group may hold only separators | `smartdate("first , after 2021-10-01")`: the commas become spaces, no day is named, and the loop never ends | the form does not match, so the next form is tried or the conversion fails | high (not executed) | SmartDates.NoNamesNoWeekdays | SmartDates.FirstAvailableResult |
| src/smartconfig/converters.py:127-141 | `logic` evaluates `and`/`or` with `operator.and_`/`operator.or_`, which are bitwise and take exactly two operands | `logic("1 and 2")` gives False; `logic("True or False or True")` fails with "Cannot parse into bool" | Python's `and`/`or`: True for both | medium (not executed) | Converters.LogicAsWritten | Converters.Logic |
| src/smartconfig/parsers.py:110-112 | `logic` of `parsers.py` also evaluates `and`/`or` with `op.and_`/`op.or_`, bitwise and with exactly two operands | `logic("1 and 2")` gives False; `logic("True or False or True")` raises TypeError | Python's `and`/`or`: True for both | medium (not executed) | Parsers.LogicOfThreeOperands | Parsers.Logic |
| src/smartconfig/parsers.py:77 | the parsers raise `exceptions.ParseError`, which the exceptions module does not define | `smartdate("not a date")` from `parsers.py` raises AttributeError instead of a parse error | a ParseError carrying the message | high (not executed) | Parsers.ParseErrorIsMissing | Parsers.RaiseParseError |
| src/smartconfig/_resolve.py:64-70 | `DEFAULT_FUNCTIONS` maps "update" to `update_shallow` | with `functions=DEFAULT_FUNCTIONS`, `{"__update__": [{"a": {"x": 1}}, {"a": {"y": 2}}]}` gives `{"a": {"y": 2}}` | the deep update, giving `{"a": {"x": 1, "y": 2}}` | medium (not executed) | OldResolve.DefaultUpdateAsWrittenIsShallow | OldResolve.DefaultFunctionsByName |
| src/smartconfig/_prototypes.py:336-356 | `_convert_value` tests the hint itself, so `NotRequired[P]` and `Optional[P]` of a prototype class `P` keep the nested dict | a `Student` whose field `advisor: NotRequired[Advisor]` is set: `Student._from_dict(s._as_dict())` holds a dict, not an `Advisor`, so it is not equal to `s` | `_from_dict(_as_dict(p)) == p` | high (not executed) | Prototypes.FromDictAsWrittenLosesNested | Prototypes.FromDictRoundTrip |
