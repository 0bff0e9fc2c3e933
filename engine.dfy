// The resolution engine of src/smartconfig/_internals.py: the node tree that
// `make_node` builds, kept as an arena of nodes indexed by id, together with
// the per-node state machines of value nodes (`_resolved`) and function-call
// nodes (`_evaluated`), string interpolation with its variable lookup order,
// the lazy views of containers, keypath navigation, and the core functions of
// src/smartconfig/_core_functions.py, which rebuild nodes inside the tree.
module Engine {
  import opened Exceptions
  import opened Config
  import opened Nodes
  import opened Templates
  import opened CoreFunctions
  import Utils
  import Strings

  // ---------------------------------------------------------------- the arena

  /**
   * What a name is bound to during interpolation: a plain configuration
   * value, or an unresolved container (`_UnresolvedDict`, `_UnresolvedList`,
   * `_UnresolvedFunctionCall`) given by the node it wraps.
   */
  datatype Binding = Bound(value: Value) | LazyNode(id: nat)

  /** A node's `local_variables`, in insertion order. */
  type Locals = seq<(string, Binding)>

  /** The four node classes, with children given by node id. */
  datatype Kind =
    | DictKind(children: seq<(string, nat)>)
    | ListKind(items: seq<nat>)
    | ValueKind(value: Value, typeName: string, nullable: bool, keypath: KeyPath)
    | CallKind(name: string, input: Value, schema: Value, keypath: KeyPath)

  datatype Node = Node(kind: Kind, parent: Option<nat>, locals: Locals, mode: Mode)

  /**
   * The sentinel field of a value node (`_UNDISCOVERED`, `_PENDING`, or the
   * resolved value) and of a function-call node (`UNDISCOVERED`, `PENDING`,
   * or the node the call evaluated to).
   */
  datatype State = Undiscovered | Pending | Resolved(value: Value) | Evaluated(target: nat)

  /** The functions of `CORE_FUNCTIONS`. */
  datatype Core = SpliceFn | RawFn | ResolveFn | FullyResolveFn | TemplateFn | UseFn | IfFn | LetFn

  /** A registered function: a core function, or a user function with its `resolve_input` flag. */
  datatype Impl = CoreImpl(core: Core) | UserImpl(resolveInput: bool)

  /**
   * The resolution context. `apply(name, input, keypath, schema)` calls a
   * user function; `containerText` is what rendering an unresolved container
   * into a string gives.
   */
  datatype Context = Context(
    builder: Builder,
    converters: map<string, Value -> Result<Value>>,
    functions: map<string, Impl>,
    apply: (string, Value, KeyPath, Value) -> Result<Value>,
    globals: Entries,
    injectRootAs: Option<string>,
    containerText: string)

  /** `function.resolve_input`: only `if` among the core functions, which is registered undecorated. */
  predicate ResolveInput(impl: Impl)
  {
    match impl
    case CoreImpl(c) => c == IfFn
    case UserImpl(b) => b
  }

  predicate KidsIn(k: Kind, n: nat)
  {
    match k
    case DictKind(c) => forall j | 0 <= j < |c| :: c[j].1 < n
    case ListKind(c) => forall j | 0 <= j < |c| :: c[j] < n
    case _ => true
  }

  predicate BindingIn(b: Binding, n: nat)
  {
    b.LazyNode? ==> b.id < n
  }

  predicate LocalsIn(l: Locals, n: nat)
  {
    forall j | 0 <= j < |l| :: BindingIn(l[j].1, n)
  }

  /** A node's parent was made before it; its children and bindings exist. */
  predicate NodeOk(nd: Node, i: nat, n: nat)
  {
    (nd.parent.Some? ==> nd.parent.value < i) && KidsIn(nd.kind, n) && LocalsIn(nd.locals, n)
  }

  /** Only value nodes resolve, only call nodes evaluate, to a node that exists. */
  predicate StateFits(k: Kind, s: State, n: nat)
  {
    (s.Pending? ==> k.ValueKind? || k.CallKind?) &&
    (s.Resolved? ==> k.ValueKind?) &&
    (s.Evaluated? ==> k.CallKind? && s.target < n)
  }

  predicate ParentsOk(nodes: seq<Node>)
  {
    forall i | 0 <= i < |nodes| :: nodes[i].parent.Some? ==> nodes[i].parent.value < i
  }

  predicate ArenaOk(nodes: seq<Node>)
  {
    forall i | 0 <= i < |nodes| :: NodeOk(nodes[i], i, |nodes|)
  }

  /** A call node's cached result is a dict, list or value node, never another call. */
  predicate TargetsOk(nodes: seq<Node>, state: seq<State>)
    requires |nodes| == |state|
  {
    forall i | 0 <= i < |state| ::
      state[i].Evaluated? && state[i].target < |nodes| ==> !nodes[state[i].target].kind.CallKind?
  }

  /**
   * What a step of resolution may do: add nodes, and move nodes that had not
   * been reached out of `Undiscovered`; nodes already made stay as they are,
   * and a pending or finished node stays so.
   */
  ghost predicate Extends(n0: seq<Node>, s0: seq<State>, n1: seq<Node>, s1: seq<State>)
  {
    |n0| <= |n1| && |s0| <= |s1| &&
    (forall i | 0 <= i < |n0| :: n1[i] == n0[i]) &&
    (forall i | 0 <= i < |s0| :: s0[i] == Undiscovered || s1[i] == s0[i])
  }

  /** The arena's invariant: every node and state fits, every cached call target is not a call. */
  ghost predicate Wf(nodes: seq<Node>, state: seq<State>)
  {
    |nodes| == |state| && ArenaOk(nodes) && ParentsOk(nodes) &&
    (forall i | 0 <= i < |nodes| :: StateFits(nodes[i].kind, state[i], |nodes|)) &&
    TargetsOk(nodes, state)
  }

  /** Both kinds are of the same node class. */
  predicate SameClass(a: Kind, b: Kind)
  {
    (a.DictKind? <==> b.DictKind?) && (a.ListKind? <==> b.ListKind?) &&
    (a.ValueKind? <==> b.ValueKind?) && (a.CallKind? <==> b.CallKind?)
  }

  /** A new undiscovered node keeps the invariant, and extends the arena. */
  lemma WfAppend(nodes: seq<Node>, state: seq<State>, nd: Node)
    requires Wf(nodes, state) && NodeOk(nd, |nodes|, |nodes| + 1)
    ensures Wf(nodes + [nd], state + [Undiscovered])
    ensures Extends(nodes, state, nodes + [nd], state + [Undiscovered])
  {
    var n1, s1 := nodes + [nd], state + [Undiscovered];
    forall i | 0 <= i < |n1|
      ensures NodeOk(n1[i], i, |n1|) && StateFits(n1[i].kind, s1[i], |n1|)
    {
      if i < |nodes| {
        assert NodeOk(nodes[i], i, |nodes|) && StateFits(nodes[i].kind, state[i], |nodes|);
        assert forall j | 0 <= j < |nodes[i].locals| :: BindingIn(nodes[i].locals[j].1, |nodes|);
      }
    }
  }

  /** Replacing a node by one of the same class keeps the invariant. */
  lemma WfReplace(nodes: seq<Node>, state: seq<State>, i: nat, nd: Node)
    requires Wf(nodes, state) && i < |nodes| && NodeOk(nd, i, |nodes|) && SameClass(nodes[i].kind, nd.kind)
    ensures Wf(nodes[i := nd], state)
  {
    var n1 := nodes[i := nd];
    forall j | 0 <= j < |n1|
      ensures StateFits(n1[j].kind, state[j], |n1|)
    {
      assert StateFits(nodes[j].kind, state[j], |nodes|);
    }
  }

  /** Setting a state that fits its node keeps the invariant. */
  lemma WfSetState(nodes: seq<Node>, state: seq<State>, i: nat, s: State)
    requires Wf(nodes, state) && i < |nodes| && StateFits(nodes[i].kind, s, |nodes|)
    requires s.Evaluated? ==> !nodes[s.target].kind.CallKind?
    ensures Wf(nodes, state[i := s])
  {
  }

  /** Children attached in order carry the keys of the tree's children. */
  lemma SameKeys(kids: seq<(string, nat)>, cs: Children)
    requires |kids| == |cs| && forall j | 0 <= j < |cs| :: kids[j].0 == cs[j].0
    ensures KidKeys(kids) == KidKeys(cs)
  {
  }

  /**
   * The tree `t` sits in the arena at node n: a dict or list node whose
   * children, in order and under the same keys, hold the tree's children
   * (each made after its parent), or a value or call node with the tree's
   * contents.
   */
  ghost predicate Placed(nodes: seq<Node>, t: Tree, n: nat)
    decreases t
  {
    n < |nodes| &&
    match t
    case TDict(cs) =>
      nodes[n].kind.DictKind? && |nodes[n].kind.children| == |cs| &&
      forall j | 0 <= j < |cs| ::
        var kid := nodes[n].kind.children[j];
        kid.0 == cs[j].0 && n < kid.1 && Placed(nodes, ChildTree(cs, j), kid.1)
    case TList(items) =>
      nodes[n].kind.ListKind? && |nodes[n].kind.items| == |items| &&
      forall j | 0 <= j < |items| ::
        n < nodes[n].kind.items[j] && Placed(nodes, ItemTree(items, j), nodes[n].kind.items[j])
    case TValue(v, tn, nl, kp) => nodes[n].kind == ValueKind(v, tn, nl, kp)
    case TCall(name, input, schema, kp) => nodes[n].kind == CallKind(name, input, schema, kp)
  }

  function ChildTree(cs: Children, j: nat): (c: Tree)
    requires j < |cs|
    ensures c == cs[j].1 && c < TDict(cs)
  {
    assert cs[j] in cs;
    cs[j].1
  }

  function ItemTree(items: seq<Tree>, j: nat): (c: Tree)
    requires j < |items|
    ensures c == items[j] && c < TList(items)
  {
    items[j]
  }

  /** A placed tree stays placed as nodes are added after it, or as local variables change. */
  lemma PlacedGrow(n0: seq<Node>, n1: seq<Node>, t: Tree, n: nat)
    requires |n0| <= |n1| && forall i | 0 <= i < |n0| :: n1[i].kind == n0[i].kind
    requires Placed(n0, t, n)
    ensures Placed(n1, t, n)
    decreases t
  {
    match t
    case TDict(cs) =>
      forall j | 0 <= j < |cs| ensures Placed(n1, ChildTree(cs, j), n0[n].kind.children[j].1) {
        PlacedGrow(n0, n1, ChildTree(cs, j), n0[n].kind.children[j].1);
      }
    case TList(items) =>
      forall j | 0 <= j < |items| ensures Placed(n1, ItemTree(items, j), n0[n].kind.items[j]) {
        PlacedGrow(n0, n1, ItemTree(items, j), n0[n].kind.items[j]);
      }
    case _ =>
  }

  /** Changing a node made before a placed tree leaves the tree placed. */
  lemma PlacedReplace(nodes: seq<Node>, t: Tree, n: nat, i: nat, nd: Node)
    requires i < n && Placed(nodes, t, n)
    ensures Placed(nodes[i := nd], t, n)
    decreases t
  {
    match t
    case TDict(cs) =>
      forall j | 0 <= j < |cs| ensures Placed(nodes[i := nd], ChildTree(cs, j), nodes[n].kind.children[j].1) {
        PlacedReplace(nodes, ChildTree(cs, j), nodes[n].kind.children[j].1, i, nd);
      }
    case TList(items) =>
      forall j | 0 <= j < |items| ensures Placed(nodes[i := nd], ItemTree(items, j), nodes[n].kind.items[j]) {
        PlacedReplace(nodes, ItemTree(items, j), nodes[n].kind.items[j], i, nd);
      }
    case _ =>
  }

  /** A state that was undiscovered may change, and the arena still extends n0. */
  lemma ExtendsSetState(n0: seq<Node>, s0: seq<State>, n1: seq<Node>, s1: seq<State>, i: nat, st: State)
    requires Extends(n0, s0, n1, s1) && i < |s1| && (i < |s0| ==> s0[i].Undiscovered?)
    ensures Extends(n0, s0, n1, s1[i := st])
  {
  }

  /** Bindings that fit an arena fit any larger one. */
  lemma LocalsGrow(l: Locals, n: nat, m: nat)
    requires LocalsIn(l, n) && n <= m
    ensures LocalsIn(l, m)
  {
  }

  /** Replacing a node added after n0 keeps the extension. */
  lemma ExtendsReplace(n0: seq<Node>, s0: seq<State>, n1: seq<Node>, s1: seq<State>, i: nat, nd: Node)
    requires Extends(n0, s0, n1, s1) && |n0| <= i < |n1|
    ensures Extends(n0, s0, n1[i := nd], s1)
  {
  }

  lemma ExtendsTrans(n0: seq<Node>, s0: seq<State>, n1: seq<Node>, s1: seq<State>, n2: seq<Node>, s2: seq<State>)
    requires Extends(n0, s0, n1, s1) && Extends(n1, s1, n2, s2)
    ensures Extends(n0, s0, n2, s2)
  {
  }

  // ------------------------------------------------- local variables and root

  /**
   * `d[key]` of a Python dict kept as its items in insertion order: the
   * first item under the key. A node's `local_variables[key]` and a dict
   * node's `children[key]`.
   */
  function FindKey<T>(items: seq<(string, T)>, key: string): (r: Option<T>)
    ensures r.None? <==> forall j | 0 <= j < |items| :: items[j].0 != key
    ensures r.Some? ==> exists j | 0 <= j < |items| :: items[j] == (key, r.value)
  {
    if items == [] then None
    else if items[0].0 == key then Some(items[0].1)
    else FindKey(items[1..], key)
  }

  /** `local_variables[key] = b`. */
  function PutLocal(l: Locals, key: string, b: Binding): (r: Locals)
    ensures FindKey(r, key) == Some(b)
    ensures forall k | k != key :: FindKey(r, k) == FindKey(l, k)
    ensures forall n | LocalsIn(l, n) && BindingIn(b, n) :: LocalsIn(r, n)
  {
    if l == [] then [(key, b)]
    else if l[0].0 == key then [(key, b)] + l[1..]
    else [l[0]] + PutLocal(l[1..], key, b)
  }

  /** `get_local_variable(key)`: the binding of the nearest node, self first, that has one. */
  function LocalVariable(nodes: seq<Node>, id: nat, key: string): Option<Binding>
    requires id < |nodes| && ParentsOk(nodes)
    decreases id
  {
    match FindKey(nodes[id].locals, key)
    case Some(b) => Some(b)
    case None =>
      if nodes[id].parent.Some? then LocalVariable(nodes, nodes[id].parent.value, key) else None
  }

  /** The node, its parent, its parent's parent and so on up to the root. */
  function Ancestors(nodes: seq<Node>, id: nat): (a: seq<nat>)
    requires id < |nodes| && ParentsOk(nodes)
    ensures |a| >= 1 && a[0] == id
    ensures forall j | 0 <= j < |a| :: a[j] < |nodes|
    ensures forall j | 0 <= j < |a| - 1 :: nodes[a[j]].parent == Some(a[j + 1])
    ensures nodes[a[|a| - 1]].parent.None?
    decreases id
  {
    if nodes[id].parent.None? then [id] else [id] + Ancestors(nodes, nodes[id].parent.value)
  }

  /** `node.root`: following parents until a node has none. */
  function Root(nodes: seq<Node>, id: nat): (r: nat)
    requires id < |nodes| && ParentsOk(nodes)
    ensures r < |nodes| && nodes[r].parent.None?
    decreases id
  {
    if nodes[id].parent.None? then id else Root(nodes, nodes[id].parent.value)
  }

  /** The root is the last ancestor. */
  lemma {:induction false} RootIsLastAncestor(nodes: seq<Node>, id: nat)
    requires id < |nodes| && ParentsOk(nodes)
    ensures Root(nodes, id) == Ancestors(nodes, id)[|Ancestors(nodes, id)| - 1]
    decreases id
  {
    if nodes[id].parent.Some? {
      RootIsLastAncestor(nodes, nodes[id].parent.value);
    }
  }

  /**
   * The first binding of `key` along a chain of nodes: absent exactly when
   * no node of the chain binds it, otherwise the binding of the first one
   * that does.
   */
  function FirstLocal(nodes: seq<Node>, chain: seq<nat>, key: string): (r: Option<Binding>)
    requires forall j | 0 <= j < |chain| :: chain[j] < |nodes|
    ensures r.None? <==>
      forall j | 0 <= j < |chain| :: FindKey(nodes[chain[j]].locals, key).None?
    ensures r.Some? ==>
      exists j | 0 <= j < |chain| ::
        FindKey(nodes[chain[j]].locals, key) == r &&
        forall k | 0 <= k < j :: FindKey(nodes[chain[k]].locals, key).None?
  {
    if chain == [] then None
    else
      match FindKey(nodes[chain[0]].locals, key)
      case Some(b) => Some(b)
      case None => FirstLocal(nodes, chain[1..], key)
  }

  /**
   * `get_local_variable` looks in the node's own locals, then its parent's
   * and so on up to the root: the first binding along the ancestor chain.
   */
  lemma {:induction false} LocalVariableNearest(nodes: seq<Node>, id: nat, key: string)
    requires id < |nodes| && ParentsOk(nodes)
    ensures LocalVariable(nodes, id, key) == FirstLocal(nodes, Ancestors(nodes, id), key)
    decreases id
  {
    var a := Ancestors(nodes, id);
    if nodes[id].parent.Some? {
      var p := nodes[id].parent.value;
      LocalVariableNearest(nodes, p, key);
      assert a[1..] == Ancestors(nodes, p);
    }
  }

  /** A local variable found up the chain names a node of the arena. */
  lemma {:induction false} LocalVariableIn(nodes: seq<Node>, id: nat, key: string)
    requires id < |nodes| && ParentsOk(nodes) && ArenaOk(nodes)
    ensures LocalVariable(nodes, id, key).Some? ==> BindingIn(LocalVariable(nodes, id, key).value, |nodes|)
    decreases id
  {
    var l := nodes[id].locals;
    match FindKey(l, key)
    case Some(b) =>
      assert NodeOk(nodes[id], id, |nodes|);
      var j :| 0 <= j < |l| && l[j] == (key, b);
      assert BindingIn(l[j].1, |nodes|);
    case None =>
      if nodes[id].parent.Some? {
        LocalVariableIn(nodes, nodes[id].parent.value, key);
      }
  }

  // ---------------------------------------------------------- pure helpers

  function KidKeys<T>(kids: seq<(string, T)>): (ks: seq<string>)
    ensures |ks| == |kids| && forall j | 0 <= j < |kids| :: ks[j] == kids[j].0
  {
    if kids == [] then [] else [kids[0].0] + KidKeys(kids[1..])
  }

  /** A reference segment Jinja reads as an integer subscript: ASCII digits. */
  predicate IsIndex(seg: string)
  {
    |seg| > 0 && forall j | 0 <= j < |seg| :: IsDigit(seg[j])
  }

  /** ASCII digits with single underscores between them, as `int()` accepts them after the sign. */
  predicate IsDigitGroups(t: string)
  {
    && |t| > 0 && IsDigit(t[0]) && IsDigit(t[|t| - 1])
    && forall j | 0 <= j < |t| :: IsDigit(t[j]) || (t[j] == '_' && j + 1 < |t| && IsDigit(t[j + 1]))
  }

  /** The digits of a digit-group literal, underscores dropped. */
  function DigitsOf(t: string): (d: string)
    requires forall j | 0 <= j < |t| :: IsDigit(t[j]) || t[j] == '_'
    ensures |d| <= |t| && forall j | 0 <= j < |d| :: IsDigit(d[j])
    ensures (forall j | 0 <= j < |t| :: IsDigit(t[j])) ==> d == t
  {
    if t == [] then [] else (if t[0] == '_' then [] else [t[0]]) + DigitsOf(t[1..])
  }

  /** The value of a digit-group literal. */
  function GroupsValue(t: string): nat
    requires IsDigitGroups(t)
  {
    ParseNat(DigitsOf(t))
  }

  /** `int(t)` in base 10 on a stripped text: an optional `+` or `-` sign, then digit groups. */
  function IntLiteral(t: string): (r: Option<int>)
    ensures IsIndex(t) ==> r == Some(ParseNat(t))
    ensures SignedIndex(t, '-') ==> r == Some(-(ParseNat(t[1..]) as int))
    ensures SignedIndex(t, '+') ==> r == Some(ParseNat(t[1..]))
    ensures r.Some? ==> t != [] && (IsDigit(t[0]) || t[0] == '+' || t[0] == '-')
  {
    IndexFacts(t);
    if |t| > 0 && (t[0] == '+' || t[0] == '-') then
      if IsDigitGroups(t[1..]) then Some(if t[0] == '-' then -(GroupsValue(t[1..]) as int) else GroupsValue(t[1..]))
      else None
    else if IsDigitGroups(t) then Some(GroupsValue(t))
    else None
  }

  /**
   * `int(seg)` in base 10: surrounding whitespace is ignored (one character
   * at a time from either end), a `+` or `-` sign may come first, and single
   * underscores may separate digits. ParseIndexStrip shows this is
   * IntLiteral of `seg.strip()`.
   */
  function ParseIndex(seg: string): Option<int>
    decreases |seg|
  {
    if seg != [] && Strings.IsSpace(seg[0]) then ParseIndex(seg[1..])
    else if seg != [] && Strings.IsSpace(seg[|seg| - 1]) then ParseIndex(seg[..|seg| - 1])
    else IntLiteral(seg)
  }

  /**
   * A plain or signed run of ASCII digits is read as its value; a string of
   * whitespace alone is a ValueError.
   */
  lemma {:induction false} ParseIndexCases(seg: string)
    ensures IsIndex(seg) ==> ParseIndex(seg) == Some(ParseNat(seg))
    ensures SignedIndex(seg, '-') ==> ParseIndex(seg) == Some(-(ParseNat(seg[1..]) as int))
    ensures SignedIndex(seg, '+') ==> ParseIndex(seg) == Some(ParseNat(seg[1..]))
    ensures Strings.SpaceRun(seg) ==> ParseIndex(seg).None?
  {
    if IsIndex(seg) || SignedIndex(seg, '-') || SignedIndex(seg, '+') {
      assert IsDigit(seg[|seg| - 1]);
      ParseIndexUnpadded(seg);
    } else if Strings.SpaceRun(seg) {
      ParseIndexStrip(seg);
    }
  }

  /** With no whitespace at either end there is nothing to strip. */
  lemma {:induction false} ParseIndexUnpadded(seg: string)
    requires seg != [] && !Strings.IsSpace(seg[0]) && !Strings.IsSpace(seg[|seg| - 1])
    ensures ParseIndex(seg) == IntLiteral(seg)
  {
  }

  /** `int()` parses what `strip` leaves. */
  lemma {:induction false} ParseIndexStrip(seg: string)
    ensures ParseIndex(seg) == IntLiteral(Strings.Strip(seg))
    decreases |seg|
  {
    if seg != [] && Strings.IsSpace(seg[0]) {
      ParseIndexStrip(seg[1..]);
      Strings.StripDropFirst(seg);
    } else if seg != [] && Strings.IsSpace(seg[|seg| - 1]) {
      ParseIndexStrip(seg[..|seg| - 1]);
      Strings.StripDropLast(seg);
    } else {
      Strings.StripUnchanged(seg);
    }
  }

  /** A plain run of digits is a digit-group literal with the same value. */
  lemma {:induction false} IndexGroups(d: string)
    requires IsIndex(d)
    ensures IsDigitGroups(d) && GroupsValue(d) == ParseNat(d)
  {
    assert DigitsOf(d) == d;
  }

  lemma {:induction false} IndexFacts(seg: string)
    ensures IsIndex(seg) ==> IsDigitGroups(seg) && GroupsValue(seg) == ParseNat(seg)
    ensures |seg| > 1 && IsIndex(seg[1..]) ==> IsDigitGroups(seg[1..]) && GroupsValue(seg[1..]) == ParseNat(seg[1..])
  {
    if IsIndex(seg) {
      IndexGroups(seg);
    }
    if |seg| > 1 && IsIndex(seg[1..]) {
      IndexGroups(seg[1..]);
    }
  }

  /** A sign followed by a plain run of digits. */
  predicate SignedIndex(seg: string, sign: char)
  {
    |seg| > 1 && seg[0] == sign && IsIndex(seg[1..])
  }

  /** `str(i)`. */
  function IntText(i: int): (s: string)
    ensures |s| > 0 && IsDigit(s[|s| - 1]) && (IsDigit(s[0]) || s[0] == '-')
  {
    if i < 0 then "-" + NatToString(-i) else NatToString(i)
  }

  /** `int()` reads back what `str()` wrote, whatever whitespace surrounds it. */
  lemma {:induction false} ParseIndexOfText(lead: string, i: int, trail: string)
    requires Strings.SpaceRun(lead) && Strings.SpaceRun(trail)
    ensures ParseIndex(lead + IntText(i) + trail) == Some(i)
  {
    var text := IntText(i);
    var x := lead + text + trail;
    Strings.StripPadded(lead, text, trail);
    ParseIndexStrip(x);
    IntLiteralOfText(i);
  }

  /** `int(str(i)) == i`. */
  lemma {:induction false} IntLiteralOfText(i: int)
    ensures IntLiteral(IntText(i)) == Some(i)
  {
    var text := IntText(i);
    var n := if i < 0 then -i else i;
    ParseNatToString(n);
    if i < 0 {
      assert text[1..] == NatToString(n);
      assert SignedIndex(text, '-');
    } else {
      assert IsIndex(text);
    }
  }

  /** `int()` depends only on what `strip` leaves. */
  lemma {:induction false} ParseIndexOfStrip(x: string, y: string)
    requires Strings.Strip(x) == Strings.Strip(y)
    ensures ParseIndex(x) == ParseIndex(y)
  {
    ParseIndexStrip(x);
    ParseIndexStrip(y);
  }

  /** `int(" +1_0 ")` is 10: the whitespace, the sign and the underscore are all accepted. */
  lemma {:induction false} ParseIndexExample()
    ensures ParseIndex(" +1_0 ") == Some(10)
  {
    var s := " +1_0 ";
    var t := s[1..];
    assert s[0] == ' ' && t[0] == '+' && t[|t| - 1] == ' ';
    assert t[..|t| - 1] == "+1_0";
    assert ParseIndex(s) == ParseIndex(t) == ParseIndex("+1_0");
    SignedGroupsExample();
  }

  lemma {:induction false} SignedGroupsExample()
    ensures ParseIndex("+1_0") == Some(10)
  {
    var g := "+1_0"[1..];
    assert g == "1_0";
    assert g[0] == '1' && g[1] == '_' && g[2] == '0';
    assert IsDigitGroups(g);
    GroupsValueExample();
  }

  lemma {:induction false} GroupsValueExample()
    ensures IsDigitGroups("1_0") && GroupsValue("1_0") == 10
  {
    var g := "1_0";
    assert g[0] == '1' && g[1] == '_' && g[2] == '0';
    assert g[1..] == "_0" && g[1..][1..] == "0" && g[1..][1..][1..] == [];
    assert DigitsOf("0") == "0";
    assert DigitsOf("_0") == "0";
    assert DigitsOf(g) == ['1'] + "0";
    assert ['1'] + "0" == "10";
    assert "10"[..1] == "1" && "1"[..0] == [];
  }

  /** `int("1__0")` is a ValueError: two underscores in a row are refused. */
  lemma {:induction false} ParseIndexDoubleUnderscore()
    ensures ParseIndex("1__0").None?
  {
    assert !IsDigitGroups("1__0") by {
      assert "1__0"[1] == '_' && "1__0"[2] == '_';
    }
  }

  /** Python's `children[i]`: a negative index counts from the end. */
  function ListSlot(n: nat, i: int): (r: Option<nat>)
    ensures r.Some? ==> r.value < n
    ensures 0 <= i < n ==> r == Some(i)
    ensures -(n as int) <= i < 0 ==> r == Some(n + i)
    ensures r.None? <==> !(-(n as int) <= i < n)
  {
    if 0 <= i < n then Some(i) else if -(n as int) <= i < 0 then Some(n + i) else None
  }

  /** What `_safely_evaluate` lets out: library errors become a ResolutionError at the node. */
  function Safely(e: Error, keypath: KeyPath): (r: Error)
    ensures e.Resolution? ==> r == e
    ensures e.InvalidSchema? || e.Conversion? ==> r.Resolution? && r.keypath == keypath
    ensures !(e.Resolution? || e.InvalidSchema? || e.Conversion?) ==> r == e
  {
    match e
    case InvalidSchema(reason, kp) => Resolution(InvalidSchemaMessage(reason, kp), keypath)
    case Conversion(m) => Resolution(m, keypath)
    case _ => e
  }

  function NoConverterMessage(t: string): string
  {
    "No converter " + "provided for type: " + "\"" + t + "\"."
  }

  /** `_safely_evaluate(self._convert, value, type_)`. */
  function ConvertValue(ctx: Context, v: Value, t: string, keypath: KeyPath): (r: Result<Value>)
    ensures t !in ctx.converters ==> r == Err(Resolution(NoConverterMessage(t), keypath))
    ensures t in ctx.converters && ctx.converters[t](v).Ok? ==> r == ctx.converters[t](v)
    ensures r.Err? ==> !r.error.InvalidSchema? && !r.error.Conversion?
  {
    if t !in ctx.converters then Err(Resolution(NoConverterMessage(t), keypath))
    else
      match ctx.converters[t](v)
      case Ok(c) => Ok(c)
      case Err(e) => Err(Safely(e, keypath))
  }

  /** Jinja's attribute or subscript access on a plain value. */
  function MemberOfValue(v: Value, seg: string): Option<Value>
  {
    if IsIndex(seg) then
      (if v.List? && ParseNat(seg) < |v.items| then Some(v.items[ParseNat(seg)]) else None)
    else if v.Dict? then Get(v.entries, seg)
    else None
  }

  /** `str()` of what a reference names, as the template writes it. */
  function TextOf(ctx: Context, b: Binding): string
  {
    match b
    case Bound(v) => Show(v)
    case LazyNode(_) => ctx.containerText
  }

  function UndefinedName(name: string): string
  {
    "'" + name + "' is undefined"
  }

  function UndefinedMember(seg: string): string
  {
    "undefined member '" + seg + "'"
  }

  /** The value the interpolation of a reference-free string gives back. */
  function AnySchema(): Value
  {
    Dict([("type", Text("any"))])
  }

  function BooleanSchema(): Value
  {
    Dict([("type", Text("boolean"))])
  }

  // ------------------------------------------------------ interpolation passes

  /** One rendering: a template and the texts its references rendered to. */
  datatype Rendering = Rendering(input: string, texts: seq<string>)

  ghost predicate Rendered(p: Rendering)
  {
    Templates.Parse(p.input).Some? && |p.texts| == RefCount(Templates.Parse(p.input).value)
  }

  ghost function Output(p: Rendering): string
    requires Rendered(p)
  {
    Fill(Templates.Parse(p.input).value, p.texts)
  }

  /**
   * The passes interpolation made on s: each pass renders the output of the
   * one before, every pass but the last changed its string, one pass only
   * unless `full`, and with `full` the last pass left its string unchanged.
   */
  ghost predicate Chain(s: string, passes: seq<Rendering>, full: bool)
  {
    |passes| >= 1 && passes[0].input == s &&
    (forall k | 0 <= k < |passes| :: Rendered(passes[k])) &&
    (forall k | 0 <= k < |passes| - 1 :: passes[k + 1].input == Output(passes[k]) != passes[k].input) &&
    (!full ==> |passes| == 1) &&
    (full ==> Output(passes[|passes| - 1]) == passes[|passes| - 1].input)
  }

  ghost function Final(passes: seq<Rendering>): string
    requires |passes| >= 1 && Rendered(passes[|passes| - 1])
  {
    Output(passes[|passes| - 1])
  }

  /** A string without `${` is interpolated in a single pass, to itself. */
  lemma PlainStringIsFixpoint(s: string)
    requires forall j | 0 <= j < |s| :: !OpensAt(s, j)
    ensures var p := Rendering(s, []); Rendered(p) && Output(p) == s && Chain(s, [p], true) && Chain(s, [p], false)
  {
    PlainText(s);
  }

  // ------------------------------------------------ what the arena has cached

  /**
   * The value node n resolves to once everything below it is cached: a value
   * node's resolved value, a dict or list of what its children resolve to,
   * or what a call node's evaluated target resolves to. `None` while some
   * part of it is not cached. `fuel` bounds the depth as the resolver's does.
   */
  ghost function Cached(nodes: seq<Node>, state: seq<State>, n: nat, fuel: nat): Option<Value>
    requires Wf(nodes, state) && n < |nodes|
    decreases fuel, 1, 0
  {
    assert NodeOk(nodes[n], n, |nodes|) && StateFits(nodes[n].kind, state[n], |nodes|);
    match nodes[n].kind
    case ValueKind(_, _, _, _) => if state[n].Resolved? then Some(state[n].value) else None
    case DictKind(kids) =>
      (match CachedEntries(nodes, state, kids, fuel)
       case Some(e) => Some(Dict(e))
       case None => None)
    case ListKind(items) =>
      (match CachedItems(nodes, state, items, fuel)
       case Some(vs) => Some(List(vs))
       case None => None)
    case CallKind(_, _, _, _) =>
      if fuel > 0 && state[n].Evaluated? then Cached(nodes, state, state[n].target, fuel - 1) else None
  }

  /** The cached values of a dict node's children, key by key, in order. */
  ghost function CachedEntries(nodes: seq<Node>, state: seq<State>, kids: seq<(string, nat)>, fuel: nat): Option<Entries>
    requires Wf(nodes, state) && forall j | 0 <= j < |kids| :: kids[j].1 < |nodes|
    decreases fuel, 0, |kids|
  {
    if kids == [] then Some([])
    else if fuel == 0 then None
    else
      var last := kids[|kids| - 1];
      match CachedEntries(nodes, state, kids[..|kids| - 1], fuel)
      case None => None
      case Some(e) =>
        match Cached(nodes, state, last.1, fuel - 1)
        case None => None
        case Some(v) => Some(e + [(last.0, v)])
  }

  /** The cached values of a list node's elements, in order. */
  ghost function CachedItems(nodes: seq<Node>, state: seq<State>, items: seq<nat>, fuel: nat): Option<seq<Value>>
    requires Wf(nodes, state) && forall j | 0 <= j < |items| :: items[j] < |nodes|
    decreases fuel, 0, |items|
  {
    if items == [] then Some([])
    else if fuel == 0 then None
    else
      match CachedItems(nodes, state, items[..|items| - 1], fuel)
      case None => None
      case Some(vs) =>
        match Cached(nodes, state, items[|items| - 1], fuel - 1)
        case None => None
        case Some(v) => Some(vs + [v])
  }

  /** What is cached stays cached, with the same value, as resolution goes on. */
  lemma CachedStable(n0: seq<Node>, s0: seq<State>, n1: seq<Node>, s1: seq<State>, n: nat, fuel: nat)
    requires Wf(n0, s0) && Wf(n1, s1) && Extends(n0, s0, n1, s1) && n < |n0|
    requires Cached(n0, s0, n, fuel).Some?
    ensures Cached(n1, s1, n, fuel) == Cached(n0, s0, n, fuel)
    decreases fuel, 1, 0
  {
    assert n1[n] == n0[n] && NodeOk(n0[n], n, |n0|) && StateFits(n0[n].kind, s0[n], |n0|);
    match n0[n].kind
    case ValueKind(_, _, _, _) =>
    case DictKind(kids) => CachedEntriesStable(n0, s0, n1, s1, kids, fuel);
    case ListKind(items) => CachedItemsStable(n0, s0, n1, s1, items, fuel);
    case CallKind(_, _, _, _) => CachedStable(n0, s0, n1, s1, s0[n].target, fuel - 1);
  }

  lemma CachedEntriesStable(n0: seq<Node>, s0: seq<State>, n1: seq<Node>, s1: seq<State>,
                            kids: seq<(string, nat)>, fuel: nat)
    requires Wf(n0, s0) && Wf(n1, s1) && Extends(n0, s0, n1, s1)
    requires forall j | 0 <= j < |kids| :: kids[j].1 < |n0|
    requires CachedEntries(n0, s0, kids, fuel).Some?
    ensures CachedEntries(n1, s1, kids, fuel) == CachedEntries(n0, s0, kids, fuel)
    decreases fuel, 0, |kids|
  {
    if kids != [] {
      CachedEntriesStable(n0, s0, n1, s1, kids[..|kids| - 1], fuel);
      CachedStable(n0, s0, n1, s1, kids[|kids| - 1].1, fuel - 1);
    }
  }

  lemma CachedItemsStable(n0: seq<Node>, s0: seq<State>, n1: seq<Node>, s1: seq<State>, items: seq<nat>, fuel: nat)
    requires Wf(n0, s0) && Wf(n1, s1) && Extends(n0, s0, n1, s1)
    requires forall j | 0 <= j < |items| :: items[j] < |n0|
    requires CachedItems(n0, s0, items, fuel).Some?
    ensures CachedItems(n1, s1, items, fuel) == CachedItems(n0, s0, items, fuel)
    decreases fuel, 0, |items|
  {
    if items != [] {
      CachedItemsStable(n0, s0, n1, s1, items[..|items| - 1], fuel);
      CachedStable(n0, s0, n1, s1, items[|items| - 1], fuel - 1);
    }
  }

  /** Every prefix of fully cached children is cached. */
  lemma {:induction false} CachedEntriesPrefix(nodes: seq<Node>, state: seq<State>, kids: seq<(string, nat)>, fuel: nat, i: nat)
    requires Wf(nodes, state) && forall j | 0 <= j < |kids| :: kids[j].1 < |nodes|
    requires CachedEntries(nodes, state, kids, fuel).Some? && i <= |kids|
    ensures CachedEntries(nodes, state, kids[..i], fuel).Some?
    decreases |kids|
  {
    if i < |kids| {
      var front := kids[..|kids| - 1];
      CachedEntriesPrefix(nodes, state, front, fuel, i);
      assert front[..i] == kids[..i];
    } else {
      assert kids[..i] == kids;
    }
  }

  lemma {:induction false} CachedItemsPrefix(nodes: seq<Node>, state: seq<State>, items: seq<nat>, fuel: nat, i: nat)
    requires Wf(nodes, state) && forall j | 0 <= j < |items| :: items[j] < |nodes|
    requires CachedItems(nodes, state, items, fuel).Some? && i <= |items|
    ensures CachedItems(nodes, state, items[..i], fuel).Some?
    decreases |items|
  {
    if i < |items| {
      var front := items[..|items| - 1];
      CachedItemsPrefix(nodes, state, front, fuel, i);
      assert front[..i] == items[..i];
    } else {
      assert items[..i] == items;
    }
  }

  /**
   * A node resolves to one value whatever the depth bound: a cached value
   * found with some fuel is found, the same, with more.
   */
  lemma CachedMoreFuel(nodes: seq<Node>, state: seq<State>, n: nat, fuel: nat, more: nat)
    requires Wf(nodes, state) && n < |nodes| && fuel <= more
    requires Cached(nodes, state, n, fuel).Some?
    ensures Cached(nodes, state, n, more) == Cached(nodes, state, n, fuel)
    decreases fuel, 1, 0
  {
    assert NodeOk(nodes[n], n, |nodes|) && StateFits(nodes[n].kind, state[n], |nodes|);
    match nodes[n].kind
    case ValueKind(_, _, _, _) =>
    case DictKind(kids) => CachedEntriesMoreFuel(nodes, state, kids, fuel, more);
    case ListKind(items) => CachedItemsMoreFuel(nodes, state, items, fuel, more);
    case CallKind(_, _, _, _) => CachedMoreFuel(nodes, state, state[n].target, fuel - 1, more - 1);
  }

  lemma CachedEntriesMoreFuel(nodes: seq<Node>, state: seq<State>, kids: seq<(string, nat)>, fuel: nat, more: nat)
    requires Wf(nodes, state) && forall j | 0 <= j < |kids| :: kids[j].1 < |nodes|
    requires fuel <= more && CachedEntries(nodes, state, kids, fuel).Some?
    ensures CachedEntries(nodes, state, kids, more) == CachedEntries(nodes, state, kids, fuel)
    decreases fuel, 0, |kids|
  {
    if kids != [] {
      CachedEntriesMoreFuel(nodes, state, kids[..|kids| - 1], fuel, more);
      CachedMoreFuel(nodes, state, kids[|kids| - 1].1, fuel - 1, more - 1);
    }
  }

  lemma CachedItemsMoreFuel(nodes: seq<Node>, state: seq<State>, items: seq<nat>, fuel: nat, more: nat)
    requires Wf(nodes, state) && forall j | 0 <= j < |items| :: items[j] < |nodes|
    requires fuel <= more && CachedItems(nodes, state, items, fuel).Some?
    ensures CachedItems(nodes, state, items, more) == CachedItems(nodes, state, items, fuel)
    decreases fuel, 0, |items|
  {
    if items != [] {
      CachedItemsMoreFuel(nodes, state, items[..|items| - 1], fuel, more);
      CachedMoreFuel(nodes, state, items[|items| - 1], fuel - 1, more - 1);
    }
  }

  /** A dict node's cached value is a dict with the node's keys, each entry the child's cached value. */
  lemma {:induction false} CachedEntriesAt(nodes: seq<Node>, state: seq<State>, kids: seq<(string, nat)>, fuel: nat)
    requires Wf(nodes, state) && forall j | 0 <= j < |kids| :: kids[j].1 < |nodes|
    requires CachedEntries(nodes, state, kids, fuel).Some?
    ensures var e := CachedEntries(nodes, state, kids, fuel).value;
      |e| == |kids| && Keys(e) == KidKeys(kids) &&
      forall j | 0 <= j < |kids| :: fuel > 0 && Cached(nodes, state, kids[j].1, fuel - 1) == Some(e[j].1)
    decreases |kids|
  {
    if kids != [] {
      var front := kids[..|kids| - 1];
      var kid := kids[|kids| - 1];
      CachedEntriesAt(nodes, state, front, fuel);
      var e0 := CachedEntries(nodes, state, front, fuel).value;
      var v := Cached(nodes, state, kid.1, fuel - 1).value;
      var e := e0 + [(kid.0, v)];
      assert CachedEntries(nodes, state, kids, fuel).value == e;
      assert front + [kid] == kids;
      KeysSnoc(e0, kid.0, v);
      KidKeysSnoc(front, kid);
      forall j | 0 <= j < |kids|
        ensures Cached(nodes, state, kids[j].1, fuel - 1) == Some(e[j].1)
      {
        if j < |front| {
          assert kids[j] == front[j] && e[j] == e0[j];
        }
      }
    }
  }

  /** One more child resolved: its value extends the cached entries. */
  lemma CachedEntriesSnoc(nodes: seq<Node>, state: seq<State>, kids: seq<(string, nat)>, fuel: nat, i: nat,
                          out: Entries, v: Value)
    requires Wf(nodes, state) && forall j | 0 <= j < |kids| :: kids[j].1 < |nodes|
    requires i < |kids| && fuel > 0
    requires CachedEntries(nodes, state, kids[..i], fuel) == Some(out)
    requires Cached(nodes, state, kids[i].1, fuel - 1) == Some(v)
    ensures CachedEntries(nodes, state, kids[..i + 1], fuel) == Some(out + [(kids[i].0, v)])
  {
    assert kids[..i + 1][..i] == kids[..i];
  }

  /** One more element resolved: its value extends the cached items. */
  lemma CachedItemsSnoc(nodes: seq<Node>, state: seq<State>, items: seq<nat>, fuel: nat, i: nat,
                        out: seq<Value>, v: Value)
    requires Wf(nodes, state) && forall j | 0 <= j < |items| :: items[j] < |nodes|
    requires i < |items| && fuel > 0
    requires CachedItems(nodes, state, items[..i], fuel) == Some(out)
    requires Cached(nodes, state, items[i], fuel - 1) == Some(v)
    ensures CachedItems(nodes, state, items[..i + 1], fuel) == Some(out + [v])
  {
    assert items[..i + 1][..i] == items[..i];
  }

  lemma CachedEntriesChild(nodes: seq<Node>, state: seq<State>, kids: seq<(string, nat)>, fuel: nat, j: nat)
    requires Wf(nodes, state) && forall j | 0 <= j < |kids| :: kids[j].1 < |nodes|
    requires CachedEntries(nodes, state, kids, fuel).Some? && j < |kids|
    ensures fuel > 0 && Cached(nodes, state, kids[j].1, fuel - 1).Some?
  {
    CachedEntriesAt(nodes, state, kids, fuel);
  }

  lemma KeysSnoc(e: Entries, k: string, v: Value)
    ensures Keys(e + [(k, v)]) == Keys(e) + [k]
  {
    assert forall j | 0 <= j < |e| :: (e + [(k, v)])[j] == e[j];
  }

  lemma KidKeysSnoc(kids: seq<(string, nat)>, kid: (string, nat))
    ensures KidKeys(kids + [kid]) == KidKeys(kids) + [kid.0]
  {
    assert forall j | 0 <= j < |kids| :: (kids + [kid])[j] == kids[j];
  }

  /** A list node's cached value has one element per item, each the item's cached value. */
  lemma {:induction false} CachedItemsAt(nodes: seq<Node>, state: seq<State>, items: seq<nat>, fuel: nat)
    requires Wf(nodes, state) && forall j | 0 <= j < |items| :: items[j] < |nodes|
    requires CachedItems(nodes, state, items, fuel).Some?
    ensures var vs := CachedItems(nodes, state, items, fuel).value;
      |vs| == |items| && forall j | 0 <= j < |items| :: fuel > 0 && Cached(nodes, state, items[j], fuel - 1) == Some(vs[j])
    decreases |items|
  {
    if items != [] {
      var front := items[..|items| - 1];
      CachedItemsAt(nodes, state, front, fuel);
      assert forall j | 0 <= j < |front| :: front[j] == items[j];
    }
  }

  // ------------------------------------------- what a lookup finds in the arena

  /**
   * The outcome of a lookup in the arena as it stands: a binding, a miss, or
   * not yet decided because it passes through a node never reached.
   */
  datatype Look = Found(b: Binding) | Absent | Unsettled

  function LookOf(o: Option<Binding>): (r: Look)
    ensures r.Found? <==> o.Some?
    ensures o.Some? ==> r.b == o.value
    ensures r != Unsettled
  {
    if o.Some? then Found(o.value) else Absent
  }

  /** A value node as a binding: its cached value; a pending (or failed) node gives nothing. */
  function ValueLook(s: State): Look
  {
    match s
    case Undiscovered => Unsettled
    case Resolved(v) => Found(Bound(v))
    case _ => Absent
  }

  /**
   * What the lazy containers give for child n: a dict or list node itself,
   * a value node's resolved value, a call's evaluated node the same way.
   */
  ghost function Designated(nodes: seq<Node>, state: seq<State>, n: nat): (r: Look)
    requires Wf(nodes, state) && n < |nodes|
    ensures r.Found? ==> BindingIn(r.b, |nodes|)
  {
    assert StateFits(nodes[n].kind, state[n], |nodes|);
    match nodes[n].kind
    case DictKind(_) => Found(LazyNode(n))
    case ListKind(_) => Found(LazyNode(n))
    case ValueKind(_, _, _, _) => ValueLook(state[n])
    case CallKind(_, _, _, _) =>
      match state[n]
      case Undiscovered => Unsettled
      case Evaluated(t) => if nodes[t].kind.ValueKind? then ValueLook(state[t]) else Found(LazyNode(t))
      case _ => Absent
  }

  /** The dict or list node a container binding stands for: itself, or what its call evaluated to. */
  ghost function Container(nodes: seq<Node>, state: seq<State>, n: nat): (r: Look)
    requires Wf(nodes, state) && n < |nodes|
    ensures r.Found? ==> r.b.LazyNode? && r.b.id < |nodes|
    ensures r.Found? ==> nodes[r.b.id].kind.DictKind? || nodes[r.b.id].kind.ListKind?
  {
    assert StateFits(nodes[n].kind, state[n], |nodes|);
    match nodes[n].kind
    case DictKind(_) => Found(LazyNode(n))
    case ListKind(_) => Found(LazyNode(n))
    case ValueKind(_, _, _, _) => Absent
    case CallKind(_, _, _, _) =>
      match state[n]
      case Undiscovered => Unsettled
      case Evaluated(t) => if nodes[t].kind.ValueKind? then Absent else Found(LazyNode(t))
      case _ => Absent
  }

  /** `root_container[key]`: the named child of the root's dict, found or missed. */
  ghost function RootLook(nodes: seq<Node>, state: seq<State>, rt: nat, key: string): (r: Look)
    requires Wf(nodes, state) && rt < |nodes|
    ensures r.Found? ==> BindingIn(r.b, |nodes|)
  {
    match Container(nodes, state, rt)
    case Unsettled => Unsettled
    case Absent => Absent
    case Found(c) =>
      if nodes[c.id].kind.ListKind? then Absent
      else
        assert NodeOk(nodes[c.id], c.id, |nodes|);
        match FindKey(nodes[c.id].kind.children, key)
        case None => Absent
        case Some(x) => Designated(nodes, state, x)
  }

  /** Jinja's `b.seg` (or `b[seg]`): a plain value's member, or a lazy container's child. */
  ghost function MemberLook(nodes: seq<Node>, state: seq<State>, b: Binding, seg: string): (r: Look)
    requires Wf(nodes, state) && BindingIn(b, |nodes|)
    ensures r.Found? ==> BindingIn(r.b, |nodes|)
  {
    match b
    case Bound(v) => LookOf(BoundMember(v, seg))
    case LazyNode(n) =>
      match Container(nodes, state, n)
      case Unsettled => Unsettled
      case Absent => Absent
      case Found(c) =>
        assert NodeOk(nodes[c.id], c.id, |nodes|);
        if nodes[c.id].kind.DictKind? then
          if IsIndex(seg) then Absent
          else
            match FindKey(nodes[c.id].kind.children, seg)
            case None => Absent
            case Some(x) => Designated(nodes, state, x)
        else if IsIndex(seg) && ParseNat(seg) < |nodes[c.id].kind.items| then
          Designated(nodes, state, nodes[c.id].kind.items[ParseNat(seg)])
        else Absent
  }

  /**
   * `resolve_or_missing(key)` at node id: its local variables up the parent
   * chain, then the root container, then the root's own name and the globals.
   */
  ghost function VarLook(ctx: Context, nodes: seq<Node>, state: seq<State>, id: nat, key: string): (r: Look)
    requires Wf(nodes, state) && id < |nodes|
    ensures r.Found? ==> BindingIn(r.b, |nodes|)
  {
    LocalVariableIn(nodes, id, key);
    match LocalVariable(nodes, id, key)
    case Some(b) => Found(b)
    case None =>
      match RootLook(nodes, state, Root(nodes, id), key)
      case Found(b) => Found(b)
      case Unsettled => Unsettled
      case Absent =>
        var g := GlobalVariable(ctx, nodes, Root(nodes, id), key);
        assert g.Some? && g.value.LazyNode? ==> g.value.id < |nodes|;
        LookOf(g)
  }

  /** A dotted reference `a.b.c`: the variable `a`, then each member in turn. */
  ghost function PathLook(ctx: Context, nodes: seq<Node>, state: seq<State>, id: nat, path: seq<string>): (r: Look)
    requires Wf(nodes, state) && id < |nodes| && |path| >= 1
    ensures r.Found? ==> BindingIn(r.b, |nodes|)
    decreases |path|
  {
    if |path| == 1 then VarLook(ctx, nodes, state, id, path[0])
    else
      match PathLook(ctx, nodes, state, id, path[..|path| - 1])
      case Found(b) => MemberLook(nodes, state, b, path[|path| - 1])
      case Absent => Absent
      case Unsettled => Unsettled
  }

  lemma PathLookFirst(ctx: Context, nodes: seq<Node>, state: seq<State>, id: nat, path: seq<string>)
    requires Wf(nodes, state) && id < |nodes| && |path| >= 1
    ensures PathLook(ctx, nodes, state, id, path[..1]) == VarLook(ctx, nodes, state, id, path[0])
  {
  }

  lemma PathLookStep(ctx: Context, nodes: seq<Node>, state: seq<State>, id: nat, path: seq<string>, i: nat)
    requires Wf(nodes, state) && id < |nodes| && 1 <= i < |path|
    requires PathLook(ctx, nodes, state, id, path[..i]).Found?
    ensures PathLook(ctx, nodes, state, id, path[..i + 1]) ==
      MemberLook(nodes, state, PathLook(ctx, nodes, state, id, path[..i]).b, path[i])
  {
    assert path[..i + 1][..i] == path[..i];
  }

  /** The text `${expr}` renders to at node id, when everything it names is found. */
  ghost function RefText(ctx: Context, nodes: seq<Node>, state: seq<State>, id: nat, expr: string): Option<string>
    requires Wf(nodes, state) && id < |nodes|
  {
    match PathLook(ctx, nodes, state, id, Path(expr))
    case Found(b) => Some(TextOf(ctx, b))
    case _ => None
  }

  /** The texts of a template's references, left to right, each as `RefText` gives it. */
  ghost function RefTexts(ctx: Context, nodes: seq<Node>, state: seq<State>, id: nat, segs: seq<Segment>): Option<seq<string>>
    requires Wf(nodes, state) && id < |nodes|
    decreases |segs|
  {
    if segs == [] then Some([])
    else
      match RefTexts(ctx, nodes, state, id, segs[..|segs| - 1])
      case None => None
      case Some(ts) =>
        match segs[|segs| - 1]
        case Lit(_) => Some(ts)
        case Ref(e) =>
          match RefText(ctx, nodes, state, id, e)
          case None => None
          case Some(t) => Some(ts + [t])
  }

  lemma RefTextsSnoc(ctx: Context, nodes: seq<Node>, state: seq<State>, id: nat, segs: seq<Segment>, i: nat)
    requires Wf(nodes, state) && id < |nodes| && i < |segs|
    requires RefTexts(ctx, nodes, state, id, segs[..i]).Some?
    ensures segs[i].Lit? ==> RefTexts(ctx, nodes, state, id, segs[..i + 1]) == RefTexts(ctx, nodes, state, id, segs[..i])
    ensures segs[i].Ref? && RefText(ctx, nodes, state, id, segs[i].expr).Some? ==>
      RefTexts(ctx, nodes, state, id, segs[..i + 1]) ==
        Some(RefTexts(ctx, nodes, state, id, segs[..i]).value + [RefText(ctx, nodes, state, id, segs[i].expr).value])
  {
    var p := segs[..i + 1];
    assert p[..|p| - 1] == segs[..i] && p[|p| - 1] == segs[i] && p != [];
  }

  /** A rendering whose texts are what its template's references look up at node id. */
  ghost predicate TextsFit(ctx: Context, nodes: seq<Node>, state: seq<State>, id: nat, p: Rendering)
    requires Wf(nodes, state) && id < |nodes|
  {
    Templates.Parse(p.input).Some? && RefTexts(ctx, nodes, state, id, Templates.Parse(p.input).value) == Some(p.texts)
  }

  /** A template whose references all gave texts is rendered, and those texts fit it. */
  lemma RenderedOf(ctx: Context, nodes: seq<Node>, state: seq<State>, id: nat, s: string, segs: seq<Segment>,
                   texts: seq<string>)
    requires Wf(nodes, state) && id < |nodes| && Templates.Parse(s) == Some(segs) && |texts| == RefCount(segs)
    requires RefTexts(ctx, nodes, state, id, segs) == Some(texts)
    ensures Rendered(Rendering(s, texts)) && Output(Rendering(s, texts)) == Fill(segs, texts)
    ensures TextsFit(ctx, nodes, state, id, Rendering(s, texts))
  {
  }

  // Lookups that are decided stay decided, the same way, as the arena grows.

  lemma LocalVariableStable(n0: seq<Node>, n1: seq<Node>, id: nat, key: string)
    requires ParentsOk(n0) && ParentsOk(n1) && id < |n0| <= |n1| && forall i | 0 <= i < |n0| :: n1[i] == n0[i]
    ensures LocalVariable(n1, id, key) == LocalVariable(n0, id, key) && Root(n1, id) == Root(n0, id)
    decreases id
  {
    if n0[id].parent.Some? {
      LocalVariableStable(n0, n1, n0[id].parent.value, key);
    }
  }

  lemma DesignatedStable(n0: seq<Node>, s0: seq<State>, n1: seq<Node>, s1: seq<State>, n: nat)
    requires Wf(n0, s0) && Wf(n1, s1) && Extends(n0, s0, n1, s1) && n < |n0|
    requires Designated(n0, s0, n) != Unsettled
    ensures Designated(n1, s1, n) == Designated(n0, s0, n)
  {
    assert StateFits(n0[n].kind, s0[n], |n0|);
  }

  lemma ContainerStable(n0: seq<Node>, s0: seq<State>, n1: seq<Node>, s1: seq<State>, n: nat)
    requires Wf(n0, s0) && Wf(n1, s1) && Extends(n0, s0, n1, s1) && n < |n0|
    requires Container(n0, s0, n) != Unsettled
    ensures Container(n1, s1, n) == Container(n0, s0, n)
  {
    assert StateFits(n0[n].kind, s0[n], |n0|);
  }

  lemma RootLookStable(n0: seq<Node>, s0: seq<State>, n1: seq<Node>, s1: seq<State>, rt: nat, key: string)
    requires Wf(n0, s0) && Wf(n1, s1) && Extends(n0, s0, n1, s1) && rt < |n0|
    requires RootLook(n0, s0, rt, key) != Unsettled
    ensures RootLook(n1, s1, rt, key) == RootLook(n0, s0, rt, key)
  {
    ContainerStable(n0, s0, n1, s1, rt);
    var c := Container(n0, s0, rt);
    if c.Found? && n0[c.b.id].kind.DictKind? {
      assert NodeOk(n0[c.b.id], c.b.id, |n0|);
      var x := FindKey(n0[c.b.id].kind.children, key);
      if x.Some? {
        DesignatedStable(n0, s0, n1, s1, x.value);
      }
    }
  }

  lemma MemberLookStable(n0: seq<Node>, s0: seq<State>, n1: seq<Node>, s1: seq<State>, b: Binding, seg: string)
    requires Wf(n0, s0) && Wf(n1, s1) && Extends(n0, s0, n1, s1) && BindingIn(b, |n0|)
    requires MemberLook(n0, s0, b, seg) != Unsettled
    ensures MemberLook(n1, s1, b, seg) == MemberLook(n0, s0, b, seg)
  {
    if b.LazyNode? {
      ContainerStable(n0, s0, n1, s1, b.id);
      var c := Container(n0, s0, b.id);
      if c.Found? {
        assert NodeOk(n0[c.b.id], c.b.id, |n0|);
        if n0[c.b.id].kind.DictKind? {
          var x := FindKey(n0[c.b.id].kind.children, seg);
          if !IsIndex(seg) && x.Some? {
            DesignatedStable(n0, s0, n1, s1, x.value);
          }
        } else if IsIndex(seg) && ParseNat(seg) < |n0[c.b.id].kind.items| {
          DesignatedStable(n0, s0, n1, s1, n0[c.b.id].kind.items[ParseNat(seg)]);
        }
      }
    }
  }

  lemma VarLookStable(ctx: Context, n0: seq<Node>, s0: seq<State>, n1: seq<Node>, s1: seq<State>, id: nat, key: string)
    requires Wf(n0, s0) && Wf(n1, s1) && Extends(n0, s0, n1, s1) && id < |n0|
    requires VarLook(ctx, n0, s0, id, key) != Unsettled
    ensures VarLook(ctx, n1, s1, id, key) == VarLook(ctx, n0, s0, id, key)
  {
    LocalVariableStable(n0, n1, id, key);
    if LocalVariable(n0, id, key).None? {
      RootLookStable(n0, s0, n1, s1, Root(n0, id), key);
    }
  }

  lemma {:induction false} PathLookStable(ctx: Context, n0: seq<Node>, s0: seq<State>, n1: seq<Node>, s1: seq<State>,
                                           id: nat, path: seq<string>)
    requires Wf(n0, s0) && Wf(n1, s1) && Extends(n0, s0, n1, s1) && id < |n0| && |path| >= 1
    requires PathLook(ctx, n0, s0, id, path) != Unsettled
    ensures PathLook(ctx, n1, s1, id, path) == PathLook(ctx, n0, s0, id, path)
    decreases |path|
  {
    if |path| == 1 {
      VarLookStable(ctx, n0, s0, n1, s1, id, path[0]);
    } else {
      var front := path[..|path| - 1];
      PathLookStable(ctx, n0, s0, n1, s1, id, front);
      var p := PathLook(ctx, n0, s0, id, front);
      if p.Found? {
        MemberLookStable(n0, s0, n1, s1, p.b, path[|path| - 1]);
      }
    }
  }

  lemma {:induction false} RefTextsStable(ctx: Context, n0: seq<Node>, s0: seq<State>, n1: seq<Node>, s1: seq<State>,
                                           id: nat, segs: seq<Segment>)
    requires Wf(n0, s0) && Wf(n1, s1) && Extends(n0, s0, n1, s1) && id < |n0|
    requires RefTexts(ctx, n0, s0, id, segs).Some?
    ensures RefTexts(ctx, n1, s1, id, segs) == RefTexts(ctx, n0, s0, id, segs)
    decreases |segs|
  {
    if segs != [] {
      RefTextsStable(ctx, n0, s0, n1, s1, id, segs[..|segs| - 1]);
      var last := segs[|segs| - 1];
      if last.Ref? {
        PathLookStable(ctx, n0, s0, n1, s1, id, Path(last.expr));
      }
    }
  }

  lemma TextsFitStable(ctx: Context, n0: seq<Node>, s0: seq<State>, n1: seq<Node>, s1: seq<State>,
                       id: nat, passes: seq<Rendering>)
    requires Wf(n0, s0) && Wf(n1, s1) && Extends(n0, s0, n1, s1) && id < |n0|
    requires forall k | 0 <= k < |passes| :: TextsFit(ctx, n0, s0, id, passes[k])
    ensures forall k | 0 <= k < |passes| :: TextsFit(ctx, n1, s1, id, passes[k])
  {
    forall k | 0 <= k < |passes| ensures TextsFit(ctx, n1, s1, id, passes[k]) {
      RefTextsStable(ctx, n0, s0, n1, s1, id, Templates.Parse(passes[k].input).value);
    }
  }

  // ------------------------------------------------ what a keypath reaches

  /**
   * The node `get_keypath` reaches from n along `path` in the arena as it
   * stands: a call on the way, or at the end, is taken through the node it
   * evaluated to. `None` when a step misses or a call is not evaluated yet.
   */
  ghost function NodeAt(nodes: seq<Node>, state: seq<State>, n: nat, path: seq<string>): (r: Option<nat>)
    requires Wf(nodes, state) && n < |nodes| && |path| >= 1
    ensures r.Some? ==> r.value < |nodes| && !nodes[r.value].kind.CallKind?
    decreases |path|, if nodes[n].kind.CallKind? then 2 else 1
  {
    assert NodeOk(nodes[n], n, |nodes|) && StateFits(nodes[n].kind, state[n], |nodes|);
    match nodes[n].kind
    case CallKind(_, _, _, _) =>
      if state[n].Evaluated? && !nodes[state[n].target].kind.ValueKind? then NodeAt(nodes, state, state[n].target, path)
      else None
    case ValueKind(_, _, _, _) => None
    case DictKind(kids) =>
      (match FindKey(kids, path[0])
       case None => None
       case Some(c) => NodeBelow(nodes, state, c, path))
    case ListKind(items) =>
      match ParseIndex(path[0])
      case None => None
      case Some(ix) =>
        match ListSlot(|items|, ix)
        case None => None
        case Some(slot) => NodeBelow(nodes, state, items[slot], path)
  }

  /** The child c found for `path[0]`, taken through its evaluation, then the rest of the path from it. */
  ghost function NodeBelow(nodes: seq<Node>, state: seq<State>, c: nat, path: seq<string>): (r: Option<nat>)
    requires Wf(nodes, state) && c < |nodes| && |path| >= 1
    ensures r.Some? ==> r.value < |nodes| && !nodes[r.value].kind.CallKind?
    decreases |path|, 0
  {
    assert StateFits(nodes[c].kind, state[c], |nodes|);
    var d := if !nodes[c].kind.CallKind? then Some(c) else if state[c].Evaluated? then Some(state[c].target) else None;
    match d
    case None => None
    case Some(x) =>
      if |path| == 1 then Some(x)
      else if nodes[x].kind.ValueKind? then None
      else NodeAt(nodes, state, x, path[1..])
  }

  lemma NodeAtStable(n0: seq<Node>, s0: seq<State>, n1: seq<Node>, s1: seq<State>, n: nat, path: seq<string>)
    requires Wf(n0, s0) && Wf(n1, s1) && Extends(n0, s0, n1, s1) && n < |n0| && |path| >= 1
    requires NodeAt(n0, s0, n, path).Some?
    ensures NodeAt(n1, s1, n, path) == NodeAt(n0, s0, n, path)
    decreases |path|, if n0[n].kind.CallKind? then 2 else 1
  {
    assert n1[n] == n0[n] && NodeOk(n0[n], n, |n0|) && StateFits(n0[n].kind, s0[n], |n0|);
    match n0[n].kind
    case CallKind(_, _, _, _) =>
      NodeAtStable(n0, s0, n1, s1, s0[n].target, path);
    case DictKind(kids) =>
      NodeBelowStable(n0, s0, n1, s1, FindKey(kids, path[0]).value, path);
    case ListKind(items) =>
      NodeBelowStable(n0, s0, n1, s1, items[ListSlot(|items|, ParseIndex(path[0]).value).value], path);
  }

  lemma NodeBelowStable(n0: seq<Node>, s0: seq<State>, n1: seq<Node>, s1: seq<State>, c: nat, path: seq<string>)
    requires Wf(n0, s0) && Wf(n1, s1) && Extends(n0, s0, n1, s1) && c < |n0| && |path| >= 1
    requires NodeBelow(n0, s0, c, path).Some?
    ensures NodeBelow(n1, s1, c, path) == NodeBelow(n0, s0, c, path)
    decreases |path|, 0
  {
    assert n1[c] == n0[c] && StateFits(n0[c].kind, s0[c], |n0|);
    var x := if !n0[c].kind.CallKind? then c else s0[c].target;
    if |path| > 1 {
      NodeAtStable(n0, s0, n1, s1, x, path[1..]);
    }
  }

  /**
   * `cfg` built under `schema` at the call's keypath and in its mode, placed
   * at `at` below the call `id`, and resolved to `v`. `fuel` is the build's.
   */
  ghost predicate BuiltBelow(builder: Builder, nodes: seq<Node>, state: seq<State>, call: Node, id: nat,
                             cfg: Value, schema: Value, at: nat, v: Value, fuel: nat)
    requires call.kind.CallKind?
  {
    var b := Build(builder, cfg, schema, call.kind.keypath, call.mode, fuel);
    Wf(nodes, state) && b.Ok? && fuel > 0 && at < |nodes| && nodes[at].parent == Some(id) &&
    Placed(nodes, b.value, at) && Cached(nodes, state, at, fuel - 1) == Some(v)
  }

  /**
   * A configuration built and placed at `at` below the call `id`, then
   * resolved: the node is still there, under the call, and holds the value.
   */
  lemma ResolvedBelow(builder: Builder, cfg: Value, schema: Value, call: Node, n0: seq<Node>, s0: seq<State>,
                      n1: seq<Node>, s1: seq<State>, n2: seq<Node>, s2: seq<State>, id: nat, at: nat,
                      r: Result<Value>, fuel: nat)
    requires Wf(n2, s2) && Extends(n0, s0, n1, s1) && Extends(n1, s1, n2, s2)
    requires call.kind.CallKind? && |n0| == at < |n1| && n1[at].parent == Some(id) && fuel > 0
    requires Build(builder, cfg, schema, call.kind.keypath, call.mode, fuel).Ok?
    requires Placed(n1, Build(builder, cfg, schema, call.kind.keypath, call.mode, fuel).value, at)
    requires r.Ok? ==> Cached(n2, s2, at, fuel - 1) == Some(r.value)
    ensures Extends(n0, s0, n2, s2)
    ensures r.Ok? ==> BuiltBelow(builder, n2, s2, call, id, cfg, schema, at, r.value, fuel)
  {
    ExtendsTrans(n0, s0, n1, s1, n2, s2);
    var t := Build(builder, cfg, schema, call.kind.keypath, call.mode, fuel).value;
    assert n2[at] == n1[at];
    PlacedGrow(n1, n2, t, at);
  }

  // ------------------------------------------------------ what a `use` did

  /**
   * A finished `use` below the call `call`: the node at the request's keypath
   * from the root `rt` is `src`, resolved to `resolved`; its value merged with
   * the overrides was built under the call's schema in STANDARD mode and
   * placed at `out`. `fuel` is one less than the call's.
   */
  ghost predicate UseDone(builder: Builder, nodes: seq<Node>, state: seq<State>, call: Node, rt: nat,
                          req: UseRequest, src: nat, resolved: Value, out: nat, fuel: nat)
    requires call.kind.CallKind?
  {
    var contents := UseContents(resolved, req.overrides, call.kind.keypath);
    Wf(nodes, state) && rt < |nodes| && src < |nodes| &&
    NodeAt(nodes, state, rt, SplitDotted(req.keypath)) == Some(src) &&
    Cached(nodes, state, src, fuel) == Some(resolved) &&
    contents.Ok? && Build(builder, contents.value, call.kind.schema, call.kind.keypath, Standard, fuel + 1).Ok? &&
    Placed(nodes, Build(builder, contents.value, call.kind.schema, call.kind.keypath, Standard, fuel + 1).value, out)
  }

  // ------------------------------------------------------ what an `if` did

  /**
   * What an `if` went through: the condition's value and its node, the
   * branch that value picked, and the branch's value and its node.
   */
  datatype IfTrace = IfTrace(cond: Value, condAt: nat, chosen: Value, value: Value, valueAt: nat)

  /**
   * A finished `if` below the call `call`: the condition was built under a
   * boolean schema and resolved to `cond`; the branch its truth value picks
   * (and only that one) was built under the call's schema and resolved to
   * `value`; and the node `out` is that value built under the call's schema.
   * `fuel` is one less than the call's.
   */
  ghost predicate IfDone(builder: Builder, nodes: seq<Node>, state: seq<State>, call: Node, parts: IfParts,
                         trace: IfTrace, out: nat, fuel: nat)
    requires call.kind.CallKind?
  {
    var cb := Build(builder, parts.condition, BooleanSchema(), call.kind.keypath, call.mode, fuel);
    Wf(nodes, state) && fuel > 0 && trace.condAt < |nodes| &&
    trace.chosen == (if Truthy(trace.cond) then parts.whenTrue else parts.whenFalse) &&
    cb.Ok? && Placed(nodes, cb.value, trace.condAt) && Cached(nodes, state, trace.condAt, fuel - 1) == Some(trace.cond) &&
    BranchDone(builder, nodes, state, call, trace.chosen, trace.value, trace.valueAt, out, fuel)
  }

  /**
   * The chosen branch of an `if` below the call `call`: built under the
   * call's schema at `valueAt` and resolved to `value`; and the node `out`
   * is that value built under the call's schema. `fuel` is the call's less one.
   */
  ghost predicate BranchDone(builder: Builder, nodes: seq<Node>, state: seq<State>, call: Node, branch: Value,
                             value: Value, valueAt: nat, out: nat, fuel: nat)
    requires call.kind.CallKind?
  {
    var k := call.kind;
    var vb := Build(builder, branch, k.schema, k.keypath, call.mode, fuel);
    var ob := Build(builder, value, k.schema, k.keypath, call.mode, fuel + 1);
    Wf(nodes, state) && fuel > 0 && valueAt < |nodes| && out < |nodes| &&
    vb.Ok? && Placed(nodes, vb.value, valueAt) && Cached(nodes, state, valueAt, fuel - 1) == Some(value) &&
    ob.Ok? && Placed(nodes, ob.value, out)
  }

  /** The branch's facts, established as it was resolved, still hold once its value is built. */
  lemma BranchDoneOf(builder: Builder, n1: seq<Node>, s1: seq<State>, n2: seq<Node>, s2: seq<State>,
                     call: Node, branch: Value, value: Value, valueAt: nat, out: nat, fuel: nat)
    requires call.kind.CallKind? && Wf(n1, s1) && Wf(n2, s2) && Extends(n1, s1, n2, s2)
    requires fuel > 0 && valueAt < |n1| && out < |n2|
    requires var vb := Build(builder, branch, call.kind.schema, call.kind.keypath, call.mode, fuel);
      vb.Ok? && Placed(n1, vb.value, valueAt) && Cached(n1, s1, valueAt, fuel - 1) == Some(value)
    requires var ob := Build(builder, value, call.kind.schema, call.kind.keypath, call.mode, fuel + 1);
      ob.Ok? && Placed(n2, ob.value, out)
    ensures BranchDone(builder, n2, s2, call, branch, value, valueAt, out, fuel)
  {
    var vb := Build(builder, branch, call.kind.schema, call.kind.keypath, call.mode, fuel);
    PlacedGrow(n1, n2, vb.value, valueAt);
    CachedStable(n1, s1, n2, s2, valueAt, fuel - 1);
  }

  /** The facts of an `if`, each established when it was made, hold at its end. */
  lemma IfDoneOf(builder: Builder, n1: seq<Node>, s1: seq<State>, n3: seq<Node>, s3: seq<State>,
                 call: Node, parts: IfParts, trace: IfTrace, out: nat, fuel: nat)
    requires call.kind.CallKind? && Wf(n1, s1) && Wf(n3, s3)
    requires Extends(n1, s1, n3, s3)
    requires fuel > 0 && trace.condAt < |n1|
    requires trace.chosen == (if Truthy(trace.cond) then parts.whenTrue else parts.whenFalse)
    requires var cb := Build(builder, parts.condition, BooleanSchema(), call.kind.keypath, call.mode, fuel);
      cb.Ok? && Placed(n1, cb.value, trace.condAt) && Cached(n1, s1, trace.condAt, fuel - 1) == Some(trace.cond)
    requires BranchDone(builder, n3, s3, call, trace.chosen, trace.value, trace.valueAt, out, fuel)
    ensures IfDone(builder, n3, s3, call, parts, trace, out, fuel)
  {
    var cb := Build(builder, parts.condition, BooleanSchema(), call.kind.keypath, call.mode, fuel);
    PlacedGrow(n1, n3, cb.value, trace.condAt);
    CachedStable(n1, s1, n3, s3, trace.condAt, fuel - 1);
  }

  // ------------------------------------------------------ what a `let` did

  /** The first nodes of `n1` have the kinds and parents of `n0`'s (their local variables may differ). */
  ghost predicate SameShape(n0: seq<Node>, n1: seq<Node>)
  {
    |n0| <= |n1| && forall i | 0 <= i < |n0| :: n1[i].kind == n0[i].kind && n1[i].parent == n0[i].parent
  }

  /** The variables of a `let` and the bindings of its references, as they went. */
  datatype LetTrace = LetTrace(vars: Option<Value>, varsAt: nat, bound: seq<Option<Binding>>)

  /** The body's local variables from the `let`'s resolved variables: none when there were none. */
  function VarLocals(vars: Option<Value>): (r: Locals)
    ensures vars.None? ==> r == []
    ensures vars.Some? && vars.value.Dict? ==>
      |r| == |vars.value.entries| &&
      forall j | 0 <= j < |r| :: r[j] == (vars.value.entries[j].0, Bound(vars.value.entries[j].1))
  {
    if vars.Some? && vars.value.Dict? then BoundLocals(vars.value.entries) else []
  }

  /**
   * The variables of a `let` below the call `call`: given exactly when
   * `vars` is, then built under `any` and resolved to `vars`, a dict.
   * `fuel` is the call's.
   */
  ghost predicate VarsDone(builder: Builder, nodes: seq<Node>, state: seq<State>, call: Node, p: LetParts,
                           vars: Option<Value>, at: nat, fuel: nat)
    requires call.kind.CallKind?
  {
    Wf(nodes, state) && (vars.Some? <==> p.variables.Some?) &&
    (vars.Some? ==>
      fuel > 1 && at < |nodes| &&
      var b := Build(builder, p.variables.value, AnySchema(), call.kind.keypath, call.mode, fuel - 1);
      b.Ok? && Placed(nodes, b.value, at) && Cached(nodes, state, at, fuel - 2) == vars)
  }

  /**
   * The body of a `let`: the `in` configuration built under the call's
   * schema at `body`; its local variables are the variables, with each
   * reference's binding added in order when there are references (which
   * must be a dict).
   */
  ghost predicate BodyDone(builder: Builder, nodes: seq<Node>, state: seq<State>, id: nat, call: Node, p: LetParts,
                           locals: Locals, bound: seq<Option<Binding>>, body: nat, fuel: nat)
    requires call.kind.CallKind?
  {
    var b := Build(builder, p.body, call.kind.schema, call.kind.keypath, call.mode, fuel);
    Wf(nodes, state) && id < body < |nodes| && nodes[id] == call &&
    b.Ok? && Placed(nodes, b.value, body) &&
    (p.references.None? ==> nodes[body].locals == locals) &&
    (p.references.Some? ==>
      p.references.value.Dict? && fuel > 0 &&
      RefsDone(nodes, state, id, body, locals, p.references.value.entries, bound))
  }

  /** The references' bindings, each what its target names, added in order to the body's variables. */
  ghost predicate RefsDone(nodes: seq<Node>, state: seq<State>, id: nat, body: nat, locals: Locals, refs: Entries,
                           bound: seq<Option<Binding>>)
  {
    Wf(nodes, state) && id < body < |nodes| && nodes[id].kind.CallKind? &&
    |bound| == |refs| && nodes[body].locals == AddRefs(locals, refs, bound) &&
    forall j | 0 <= j < |refs| :: BindsTo(nodes, state, id, body, TargetOf(refs[j].1), bound[j])
  }

  /**
   * What one reference binds, read in the arena: `__this__` the body,
   * `__previous__` the call's previous sibling (the value it resolved to
   * if it is a value node), any other target nothing.
   */
  ghost predicate BindsTo(nodes: seq<Node>, state: seq<State>, id: nat, body: nat, t: Target, b: Option<Binding>)
    requires Wf(nodes, state) && id < |nodes| && nodes[id].kind.CallKind?
  {
    match t
    case Other => b.None?
    case This => b == Some(LazyNode(body))
    case Previous =>
      var prev := PreviousOf(nodes, id);
      prev.Ok? &&
      if nodes[prev.value].kind.ValueKind? then state[prev.value].Resolved? && b == Some(Bound(state[prev.value].value))
      else b == Some(LazyNode(prev.value))
  }

  /** The locals after each reference's binding is put in order; a reference that binds nothing adds nothing. */
  function AddRefs(locals: Locals, refs: Entries, bound: seq<Option<Binding>>): Locals
    requires |refs| == |bound|
    decreases |refs|
  {
    if refs == [] then locals
    else
      var l := AddRefs(locals, refs[..|refs| - 1], bound[..|refs| - 1]);
      var b := bound[|refs| - 1];
      if b.Some? then PutLocal(l, refs[|refs| - 1].0, b.value) else l
  }

  lemma AddRefsSnoc(locals: Locals, refs: Entries, bound: seq<Option<Binding>>, b: Option<Binding>, i: nat)
    requires i < |refs| && |bound| == i
    ensures AddRefs(locals, refs[..i + 1], bound + [b]) ==
      var l := AddRefs(locals, refs[..i], bound);
      if b.Some? then PutLocal(l, refs[i].0, b.value) else l
  {
    assert refs[..i + 1][..i] == refs[..i];
    assert (bound + [b])[..i] == bound;
  }

  /** A name no reference binds keeps what the variables bound it to. */
  lemma {:induction false} AddRefsUnbound(locals: Locals, refs: Entries, bound: seq<Option<Binding>>, key: string)
    requires |refs| == |bound|
    requires forall j | 0 <= j < |refs| :: refs[j].0 == key ==> bound[j].None?
    ensures FindKey(AddRefs(locals, refs, bound), key) == FindKey(locals, key)
    decreases |refs|
  {
    if refs != [] {
      var n := |refs| - 1;
      AddRefsUnbound(locals, refs[..n], bound[..n], key);
    }
  }

  /** A later reference to a name overrides an earlier one: the name is bound to the last binding given for it. */
  lemma {:induction false} AddRefsLast(locals: Locals, refs: Entries, bound: seq<Option<Binding>>, key: string, j: nat)
    requires |refs| == |bound| && j < |refs| && refs[j].0 == key && bound[j].Some?
    requires forall m | j < m < |refs| :: refs[m].0 == key ==> bound[m].None?
    ensures FindKey(AddRefs(locals, refs, bound), key) == bound[j]
    decreases |refs|
  {
    var n := |refs| - 1;
    if j < n {
      AddRefsLast(locals, refs[..n], bound[..n], key, j);
    }
  }

  /** What a reference binds survives an extension of the arena, or a change of local variables only. */
  lemma BindsToStable(n0: seq<Node>, s0: seq<State>, n1: seq<Node>, s1: seq<State>, id: nat, body: nat, t: Target,
                      b: Option<Binding>)
    requires Wf(n0, s0) && Wf(n1, s1) && id < |n0| && n0[id].kind.CallKind?
    requires SameShape(n0, n1) && |s0| <= |s1| && forall i | 0 <= i < |s0| :: s0[i] == Undiscovered || s1[i] == s0[i]
    requires BindsTo(n0, s0, id, body, t, b)
    ensures BindsTo(n1, s1, id, body, t, b)
  {
    if t == Previous {
      PreviousOfStable(n0, n1, id);
    }
  }

  /** Every reference's binding so far survives an extension of the arena. */
  lemma BindsAllStable(n0: seq<Node>, s0: seq<State>, n1: seq<Node>, s1: seq<State>, id: nat, body: nat,
                       refs: Entries, bound: seq<Option<Binding>>)
    requires Wf(n0, s0) && Wf(n1, s1) && id < |n0| && n0[id].kind.CallKind? && Extends(n0, s0, n1, s1)
    requires |bound| <= |refs|
    requires forall j | 0 <= j < |bound| :: BindsTo(n0, s0, id, body, TargetOf(refs[j].1), bound[j])
    ensures forall j | 0 <= j < |bound| :: BindsTo(n1, s1, id, body, TargetOf(refs[j].1), bound[j])
  {
    forall j | 0 <= j < |bound| ensures BindsTo(n1, s1, id, body, TargetOf(refs[j].1), bound[j]) {
      BindsToStable(n0, s0, n1, s1, id, body, TargetOf(refs[j].1), bound[j]);
    }
  }

  /** One more reference bound: the facts about the earlier ones carry over, and the locals grow by it. */
  lemma BindsSnoc(n0: seq<Node>, s0: seq<State>, n1: seq<Node>, s1: seq<State>, id: nat, body: nat,
                  locals: Locals, refs: Entries, bound: seq<Option<Binding>>, b: Option<Binding>,
                  out: Locals, next: Locals)
    requires Wf(n0, s0) && Wf(n1, s1) && id < |n0| && n0[id].kind.CallKind? && Extends(n0, s0, n1, s1)
    requires |bound| < |refs| && out == AddRefs(locals, refs[..|bound|], bound)
    requires forall j | 0 <= j < |bound| :: BindsTo(n0, s0, id, body, TargetOf(refs[j].1), bound[j])
    requires BindsTo(n1, s1, id, body, TargetOf(refs[|bound|].1), b)
    requires next == if b.Some? then PutLocal(out, refs[|bound|].0, b.value) else out
    ensures next == AddRefs(locals, refs[..|bound| + 1], bound + [b])
    ensures forall j | 0 <= j < |bound| + 1 :: BindsTo(n1, s1, id, body, TargetOf(refs[j].1), (bound + [b])[j])
  {
    BindsAllStable(n0, s0, n1, s1, id, body, refs, bound);
    AddRefsSnoc(locals, refs, bound, b, |bound|);
  }

  /** The variables' facts survive an extension of the arena. */
  lemma VarsDoneStable(builder: Builder, n0: seq<Node>, s0: seq<State>, n1: seq<Node>, s1: seq<State>, call: Node,
                       p: LetParts, vars: Option<Value>, at: nat, fuel: nat)
    requires call.kind.CallKind? && Wf(n1, s1) && Extends(n0, s0, n1, s1)
    requires VarsDone(builder, n0, s0, call, p, vars, at, fuel)
    ensures VarsDone(builder, n1, s1, call, p, vars, at, fuel)
  {
    if vars.Some? {
      PlacedGrow(n0, n1, Build(builder, p.variables.value, AnySchema(), call.kind.keypath, call.mode, fuel - 1).value, at);
      CachedStable(n0, s0, n1, s1, at, fuel - 2);
    }
  }

  // ------------------------------------------------------------ the engine

  class Arena {
    var nodes: seq<Node>
    var state: seq<State>
    const ctx: Context

    ghost predicate Valid()
      reads this
    {
      Wf(nodes, state)
    }

    constructor(ctx: Context)
      ensures Valid() && nodes == [] && state == [] && this.ctx == ctx
    {
      this.ctx := ctx;
      nodes := [];
      state := [];
    }

    /**
     * Places a tree built by `make_node` into the arena: a dict or list node
     * first, then its children under it. Only the top node gets the local
     * variables; every node gets the mode.
     */
    method Attach(t: Tree, parent: Option<nat>, locals: Locals, mode: Mode) returns (id: nat)
      requires Valid()
      requires parent.Some? ==> parent.value < |nodes|
      requires LocalsIn(locals, |nodes|)
      modifies this
      ensures Valid() && Extends(old(nodes), old(state), nodes, state)
      ensures id == old(|nodes|) && id < |nodes|
      ensures state[..old(|state|)] == old(state)
      ensures forall i | 0 <= i < |nodes| :: i < old(|nodes|) ==> nodes[i] == old(nodes)[i]
      ensures nodes[id].parent == parent && nodes[id].locals == locals && nodes[id].mode == mode
      ensures t.TDict? ==> nodes[id].kind.DictKind? && KidKeys(nodes[id].kind.children) == KidKeys(t.children)
      ensures t.TList? ==> nodes[id].kind.ListKind? && |nodes[id].kind.items| == |t.items|
      ensures t.TValue? ==> nodes[id].kind == ValueKind(t.value, t.typeName, t.nullable, t.keypath)
      ensures t.TCall? ==> nodes[id].kind == CallKind(t.name, t.input, t.schema, t.keypath)
      ensures Placed(nodes, t, id)
      ensures forall i | id <= i < |state| :: state[i] == Undiscovered
      decreases t, 2
    {
      match t
      case TValue(v, tn, nl, kp) =>
        id := |nodes|;
        nodes := nodes + [Node(ValueKind(v, tn, nl, kp), parent, locals, mode)];
        state := state + [Undiscovered];
      case TCall(name, input, schema, kp) =>
        id := |nodes|;
        nodes := nodes + [Node(CallKind(name, input, schema, kp), parent, locals, mode)];
        state := state + [Undiscovered];
      case TDict(_) =>
        id := AttachDict(t, parent, locals, mode);
      case TList(_) =>
        id := AttachList(t, parent, locals, mode);
    }

    /** A dict node first, then its children in order under it. */
    method AttachDict(t: Tree, parent: Option<nat>, locals: Locals, mode: Mode) returns (id: nat)
      requires t.TDict? && Valid()
      requires parent.Some? ==> parent.value < |nodes|
      requires LocalsIn(locals, |nodes|)
      modifies this
      ensures Valid() && Extends(old(nodes), old(state), nodes, state)
      ensures id == old(|nodes|) && id < |nodes|
      ensures state[..old(|state|)] == old(state)
      ensures forall i | 0 <= i < |nodes| :: i < old(|nodes|) ==> nodes[i] == old(nodes)[i]
      ensures nodes[id].parent == parent && nodes[id].locals == locals && nodes[id].mode == mode
      ensures nodes[id].kind.DictKind? && KidKeys(nodes[id].kind.children) == KidKeys(t.children)
      ensures Placed(nodes, t, id)
      ensures forall i | id <= i < |state| :: state[i] == Undiscovered
      decreases t, 1
    {
      var cs := t.children;
      id := |nodes|;
      var top := Node(DictKind([]), parent, locals, mode);
      WfAppend(nodes, state, top);
      nodes := nodes + [top];
      state := state + [Undiscovered];
      ghost var n1, s1 := nodes, state;
      var kids := AttachChildren(t, id, mode);
      ExtendsTrans(old(nodes), old(state), n1, s1, nodes, state);
      var full := Node(DictKind(kids), parent, locals, mode);
      assert NodeOk(nodes[id], id, |nodes|);
      WfReplace(nodes, state, id, full);
      ExtendsReplace(old(nodes), old(state), nodes, state, id, full);
      SameKeys(kids, cs);
      forall j | 0 <= j < |cs| ensures Placed(nodes[id := full], cs[j].1, kids[j].1) {
        PlacedReplace(nodes, cs[j].1, kids[j].1, id, full);
      }
      nodes := nodes[id := full];
    }

    /** The children of a dict tree, attached in order under node `id`. */
    method AttachChildren(t: Tree, id: nat, mode: Mode) returns (kids: seq<(string, nat)>)
      requires t.TDict? && Valid() && id < |nodes|
      requires forall j | id <= j < |state| :: state[j] == Undiscovered
      modifies this
      ensures Valid() && Extends(old(nodes), old(state), nodes, state)
      ensures state[..old(|state|)] == old(state)
      ensures forall j | 0 <= j < |nodes| :: j < old(|nodes|) ==> nodes[j] == old(nodes)[j]
      ensures |kids| == |t.children|
      ensures forall j | 0 <= j < |kids| ::
        kids[j].0 == t.children[j].0 && id < kids[j].1 < |nodes| && Placed(nodes, t.children[j].1, kids[j].1)
      ensures forall j | id <= j < |state| :: state[j] == Undiscovered
      decreases t, 0
    {
      var cs := t.children;
      kids := [];
      var i := 0;
      while i < |cs|
        invariant 0 <= i <= |cs| && |kids| == i
        invariant Valid() && Extends(old(nodes), old(state), nodes, state)
        invariant id < |nodes|
        invariant state[..old(|state|)] == old(state)
        invariant forall j | 0 <= j < |nodes| :: j < old(|nodes|) ==> nodes[j] == old(nodes)[j]
        invariant forall j | 0 <= j < i :: kids[j].0 == cs[j].0 && id < kids[j].1 < |nodes| && Placed(nodes, cs[j].1, kids[j].1)
        invariant forall j | id <= j < |state| :: state[j] == Undiscovered
      {
        assert cs[i] in cs;
        ghost var n0, s0 := nodes, state;
        var c := Attach(cs[i].1, Some(id), [], mode);
        ExtendsTrans(old(nodes), old(state), n0, s0, nodes, state);
        forall j | 0 <= j < i ensures Placed(nodes, cs[j].1, kids[j].1) {
          PlacedGrow(n0, nodes, cs[j].1, kids[j].1);
        }
        kids := kids + [(cs[i].0, c)];
        i := i + 1;
      }
    }

    /** A list node first, then its elements in order under it. */
    method AttachList(t: Tree, parent: Option<nat>, locals: Locals, mode: Mode) returns (id: nat)
      requires t.TList? && Valid()
      requires parent.Some? ==> parent.value < |nodes|
      requires LocalsIn(locals, |nodes|)
      modifies this
      ensures Valid() && Extends(old(nodes), old(state), nodes, state)
      ensures id == old(|nodes|) && id < |nodes|
      ensures state[..old(|state|)] == old(state)
      ensures forall i | 0 <= i < |nodes| :: i < old(|nodes|) ==> nodes[i] == old(nodes)[i]
      ensures nodes[id].parent == parent && nodes[id].locals == locals && nodes[id].mode == mode
      ensures nodes[id].kind.ListKind? && |nodes[id].kind.items| == |t.items|
      ensures Placed(nodes, t, id)
      ensures forall i | id <= i < |state| :: state[i] == Undiscovered
      decreases t, 1
    {
      var items := t.items;
      id := |nodes|;
      var top := Node(ListKind([]), parent, locals, mode);
      WfAppend(nodes, state, top);
      nodes := nodes + [top];
      state := state + [Undiscovered];
      ghost var n1, s1 := nodes, state;
      var kids := AttachItems(t, id, mode);
      ExtendsTrans(old(nodes), old(state), n1, s1, nodes, state);
      var full := Node(ListKind(kids), parent, locals, mode);
      assert NodeOk(nodes[id], id, |nodes|);
      WfReplace(nodes, state, id, full);
      ExtendsReplace(old(nodes), old(state), nodes, state, id, full);
      forall j | 0 <= j < |items| ensures Placed(nodes[id := full], items[j], kids[j]) {
        PlacedReplace(nodes, items[j], kids[j], id, full);
      }
      nodes := nodes[id := full];
    }

    /** The elements of a list tree, attached in order under node `id`. */
    method AttachItems(t: Tree, id: nat, mode: Mode) returns (kids: seq<nat>)
      requires t.TList? && Valid() && id < |nodes|
      requires forall j | id <= j < |state| :: state[j] == Undiscovered
      modifies this
      ensures Valid() && Extends(old(nodes), old(state), nodes, state)
      ensures state[..old(|state|)] == old(state)
      ensures forall j | 0 <= j < |nodes| :: j < old(|nodes|) ==> nodes[j] == old(nodes)[j]
      ensures |kids| == |t.items|
      ensures forall j | 0 <= j < |kids| :: id < kids[j] < |nodes| && Placed(nodes, t.items[j], kids[j])
      ensures forall j | id <= j < |state| :: state[j] == Undiscovered
      decreases t, 0
    {
      var items := t.items;
      kids := [];
      var i := 0;
      while i < |items|
        invariant 0 <= i <= |items| && |kids| == i
        invariant Valid() && Extends(old(nodes), old(state), nodes, state)
        invariant id < |nodes|
        invariant state[..old(|state|)] == old(state)
        invariant forall j | 0 <= j < |nodes| :: j < old(|nodes|) ==> nodes[j] == old(nodes)[j]
        invariant forall j | 0 <= j < i :: id < kids[j] < |nodes| && Placed(nodes, items[j], kids[j])
        invariant forall j | id <= j < |state| :: state[j] == Undiscovered
      {
        ghost var n0, s0 := nodes, state;
        var c := Attach(items[i], Some(id), [], mode);
        ExtendsTrans(old(nodes), old(state), n0, s0, nodes, state);
        forall j | 0 <= j < i ensures Placed(nodes, items[j], kids[j]) {
          PlacedGrow(n0, nodes, items[j], kids[j]);
        }
        kids := kids + [c];
        i := i + 1;
      }
    }

    /**
     * `make_node` followed by placing the tree: the built tree's top node is
     * the first new node, under the given parent, with the given locals and mode.
     */
    method BuildAttach(cfg: Value, schema: Value, keypath: KeyPath, mode: Mode, parent: Option<nat>,
                       locals: Locals, fuel: nat) returns (r: Result<nat>)
      requires Valid() && (parent.Some? ==> parent.value < |nodes|) && LocalsIn(locals, |nodes|)
      modifies this
      ensures Valid() && Extends(old(nodes), old(state), nodes, state)
      ensures r.Ok? <==> Build(ctx.builder, cfg, schema, keypath, mode, fuel).Ok?
      ensures r.Err? ==>
        r.error == Build(ctx.builder, cfg, schema, keypath, mode, fuel).error &&
        nodes == old(nodes) && state == old(state)
      ensures r.Ok? ==>
        r.value == old(|nodes|) && r.value < |nodes| && state[r.value] == Undiscovered &&
        nodes[r.value].parent == parent && nodes[r.value].locals == locals && nodes[r.value].mode == mode &&
        Placed(nodes, Build(ctx.builder, cfg, schema, keypath, mode, fuel).value, r.value)
    {
      match Build(ctx.builder, cfg, schema, keypath, mode, fuel)
      case Err(e) =>
        r := Err(e);
      case Ok(t) =>
        var id := Attach(t, parent, locals, mode);
        r := Ok(id);
    }

    // ------------------------------------------------------------ resolving

    /**
     * `resolve` of any node: a dict node resolves its children in order, a
     * list node its elements, a value node runs its state machine, and a
     * function-call node is evaluated and what it evaluated to is resolved.
     */
    method ResolveNode(n: nat, fuel: nat) returns (r: Result<Value>)
      requires Valid() && n < |nodes|
      modifies this
      ensures Valid() && Extends(old(nodes), old(state), nodes, state)
      ensures old(nodes[n].kind).DictKind? && r.Ok? ==>
        r.value.Dict? && Keys(r.value.entries) == KidKeys(old(nodes[n].kind).children)
      ensures old(nodes[n].kind).ListKind? && r.Ok? ==>
        r.value.List? && |r.value.items| == |old(nodes[n].kind).items|
      ensures old(nodes[n].kind).ValueKind? && old(state[n]).Resolved? ==>
        r == Ok(old(state[n]).value) && nodes == old(nodes) && state == old(state)
      ensures old(nodes[n].kind).ValueKind? && old(state[n]).Pending? ==>
        r == Err(Resolution("Circular reference.", old(nodes[n].kind).keypath)) &&
        nodes == old(nodes) && state == old(state)
      ensures r.Ok? ==> Cached(nodes, state, n, fuel) == Some(r.value)
      ensures Cached(old(nodes), old(state), n, fuel).Some? ==>
        r == Ok(Cached(old(nodes), old(state), n, fuel).value) && nodes == old(nodes) && state == old(state)
      decreases fuel, 3
    {
      var k := nodes[n].kind;
      if k.ValueKind? {
        ghost var passes;
        r, passes := ResolveValue(n, fuel);
      } else if k.DictKind? {
        var e := ResolveChildren(k.children, fuel);
        r := if e.Ok? then Ok(Dict(e.value)) else Err(e.error);
      } else if k.ListKind? {
        var items := ResolveItems(k.items, fuel);
        r := if items.Ok? then Ok(List(items.value)) else Err(items.error);
      } else {
        if fuel == 0 {
          return Err(RecursionLimit);
        }
        var t := Evaluate(n, fuel - 1);
        if t.Err? {
          return Err(t.error);
        }
        ghost var n1, s1 := nodes, state;
        r := ResolveNode(t.value, fuel - 1);
        assert state[n] == s1[n] by {
          assert Extends(n1, s1, nodes, state);
        }
      }
    }

    /** `{key: child.resolve() for key, child in children.items()}`. */
    method ResolveChildren(kids: seq<(string, nat)>, fuel: nat) returns (r: Result<Entries>)
      requires Valid() && forall j | 0 <= j < |kids| :: kids[j].1 < |nodes|
      modifies this
      ensures Valid() && Extends(old(nodes), old(state), nodes, state)
      ensures r.Ok? ==> Keys(r.value) == KidKeys(kids)
      ensures r.Ok? ==> CachedEntries(nodes, state, kids, fuel) == Some(r.value)
      ensures CachedEntries(old(nodes), old(state), kids, fuel).Some? ==>
        r == Ok(CachedEntries(old(nodes), old(state), kids, fuel).value) && nodes == old(nodes) && state == old(state)
      decreases fuel, 0
    {
      var out: Entries := [];
      var i := 0;
      while i < |kids|
        invariant 0 <= i <= |kids|
        invariant Valid() && Extends(old(nodes), old(state), nodes, state)
        invariant forall j | 0 <= j < |kids| :: kids[j].1 < |nodes|
        invariant CachedEntries(nodes, state, kids[..i], fuel) == Some(out)
        invariant CachedEntries(old(nodes), old(state), kids, fuel).Some? ==> nodes == old(nodes) && state == old(state)
      {
        if CachedEntries(old(nodes), old(state), kids, fuel).Some? {
          CachedEntriesChild(nodes, state, kids, fuel, i);
        }
        if fuel == 0 {
          return Err(RecursionLimit);
        }
        ghost var n1, s1 := nodes, state;
        var v := ResolveCached(kids[i].1, fuel - 1);
        if v.Err? {
          return Err(v.error);
        }
        CachedEntriesStable(n1, s1, nodes, state, kids[..i], fuel);
        CachedEntriesSnoc(nodes, state, kids, fuel, i, out, v.value);
        out := out + [(kids[i].0, v.value)];
        i := i + 1;
      }
      assert kids[..i] == kids;
      CachedEntriesAt(nodes, state, kids, fuel);
      r := Ok(out);
    }

    /** `[child.resolve() for child in children]`. */
    method ResolveItems(items: seq<nat>, fuel: nat) returns (r: Result<seq<Value>>)
      requires Valid() && forall j | 0 <= j < |items| :: items[j] < |nodes|
      modifies this
      ensures Valid() && Extends(old(nodes), old(state), nodes, state)
      ensures r.Ok? ==> |r.value| == |items|
      ensures r.Ok? ==> CachedItems(nodes, state, items, fuel) == Some(r.value)
      ensures CachedItems(old(nodes), old(state), items, fuel).Some? ==>
        r == Ok(CachedItems(old(nodes), old(state), items, fuel).value) && nodes == old(nodes) && state == old(state)
      decreases fuel, 0
    {
      var out: seq<Value> := [];
      var i := 0;
      while i < |items|
        invariant 0 <= i <= |items| && |out| == i
        invariant Valid() && Extends(old(nodes), old(state), nodes, state)
        invariant forall j | 0 <= j < |items| :: items[j] < |nodes|
        invariant CachedItems(nodes, state, items[..i], fuel) == Some(out)
        invariant CachedItems(old(nodes), old(state), items, fuel).Some? ==> nodes == old(nodes) && state == old(state)
      {
        if CachedItems(old(nodes), old(state), items, fuel).Some? {
          CachedItemsAt(nodes, state, items, fuel);
        }
        if fuel == 0 {
          return Err(RecursionLimit);
        }
        ghost var n1, s1 := nodes, state;
        var v := ResolveCached(items[i], fuel - 1);
        if v.Err? {
          return Err(v.error);
        }
        CachedItemsStable(n1, s1, nodes, state, items[..i], fuel);
        CachedItemsSnoc(nodes, state, items, fuel, i, out, v.value);
        out := out + [v.value];
        i := i + 1;
      }
      assert items[..i] == items;
      r := Ok(out);
    }

    /**
     * `_ValueNode.resolve`: a pending node is a circular reference, a resolved
     * one gives its cached value, and an undiscovered one becomes pending, is
     * interpolated (unless RAW or not a string; once in STANDARD mode, to a
     * fixpoint in FULL mode), converted (unless a nullable null) and cached.
     * A failure leaves it pending.
     */
    method ResolveValue(id: nat, fuel: nat) returns (r: Result<Value>, ghost passes: seq<Rendering>)
      requires Valid() && id < |nodes| && nodes[id].kind.ValueKind?
      modifies this
      ensures Valid() && Extends(old(nodes), old(state), nodes, state)
      ensures old(state[id]).Pending? ==>
        r == Err(Resolution("Circular reference.", old(nodes[id].kind).keypath)) &&
        nodes == old(nodes) && state == old(state)
      ensures old(state[id]).Resolved? ==>
        r == Ok(old(state[id]).value) && nodes == old(nodes) && state == old(state)
      ensures old(state[id]).Undiscovered? ==> state[id] == (if r.Ok? then Resolved(r.value) else Pending)
      ensures r.Ok? ==> state[id] == Resolved(r.value)
      ensures r.Err? ==> state[id] == Pending
      ensures old(state[id]).Undiscovered? && old(nodes[id].kind).nullable && old(nodes[id].kind).value.Null? ==>
        r == Ok(Null)
      ensures (old(state[id]).Undiscovered? && !(old(nodes[id].kind).nullable && old(nodes[id].kind).value.Null?) &&
               (old(nodes[id].mode).Raw? || !old(nodes[id].kind).value.Str?)) ==>
        r == ConvertValue(ctx, old(nodes[id].kind).value, old(nodes[id].kind).typeName, old(nodes[id].kind).keypath)
      ensures old(state[id]).Undiscovered? && !old(nodes[id].mode).Raw? && old(nodes[id].kind).value.Str? && r.Ok? ==>
        Chain(old(nodes[id].kind).value.s, passes, old(nodes[id].mode).Full?) &&
        r == ConvertValue(ctx, Text(Final(passes)), old(nodes[id].kind).typeName, old(nodes[id].kind).keypath)
      decreases fuel, 2
    {
      var k := nodes[id].kind;
      passes := [];
      if state[id].Pending? {
        return Err(Resolution("Circular reference.", k.keypath)), [];
      }
      if state[id].Resolved? {
        return Ok(state[id].value), [];
      }
      WfSetState(nodes, state, id, Pending);
      state := state[id := Pending];
      ghost var n1, s1 := nodes, state;
      r, passes := ComputeValue(id, fuel);
      assert nodes[id] == n1[id] && state[id] == Pending by {
        assert Extends(n1, s1, nodes, state);
      }
      if r.Ok? {
        WfSetState(nodes, state, id, Resolved(r.value));
        ghost var s2 := state;
        state := state[id := Resolved(r.value)];
        assert forall i | 0 <= i < |s2| && i != id :: state[i] == s2[i];
      }
    }

    /**
     * The value a value node resolves to: its string interpolated (unless RAW),
     * then converted to its type; a nullable null stays null.
     */
    method ComputeValue(id: nat, fuel: nat) returns (r: Result<Value>, ghost passes: seq<Rendering>)
      requires Valid() && id < |nodes| && nodes[id].kind.ValueKind?
      modifies this
      ensures Valid() && Extends(old(nodes), old(state), nodes, state)
      ensures old(nodes[id].kind).nullable && old(nodes[id].kind).value.Null? ==> r == Ok(Null)
      ensures (!(old(nodes[id].kind).nullable && old(nodes[id].kind).value.Null?) &&
               (old(nodes[id].mode).Raw? || !old(nodes[id].kind).value.Str?)) ==>
        r == ConvertValue(ctx, old(nodes[id].kind).value, old(nodes[id].kind).typeName, old(nodes[id].kind).keypath)
      ensures !old(nodes[id].mode).Raw? && old(nodes[id].kind).value.Str? && r.Ok? ==>
        Chain(old(nodes[id].kind).value.s, passes, old(nodes[id].mode).Full?) &&
        r == ConvertValue(ctx, Text(Final(passes)), old(nodes[id].kind).typeName, old(nodes[id].kind).keypath)
      ensures !old(nodes[id].mode).Raw? && old(nodes[id].kind).value.Str? && r.Ok? ==>
        forall k | 0 <= k < |passes| :: TextsFit(ctx, nodes, state, id, passes[k])
      decreases fuel, 1
    {
      var nd := nodes[id];
      var k := nd.kind;
      passes := [];
      var v := k.value;
      if v.Str? && !nd.mode.Raw? {
        if fuel == 0 {
          return Err(RecursionLimit), [];
        }
        var s;
        s, passes := Interpolate(id, v.s, nd.mode.Full?, fuel - 1);
        if s.Err? {
          return Err(Safely(s.error, k.keypath)), passes;
        }
        v := Text(s.value);
      }
      if k.nullable && k.value.Null? {
        r := Ok(Null);
      } else {
        r := ConvertValue(ctx, v, k.typeName, k.keypath);
      }
    }

    // -------------------------------------------------------- interpolation

    /**
     * `_interpolate`: one rendering pass, repeated on its output while `full`
     * and the pass changed the string.
     */
    method Interpolate(id: nat, s: string, full: bool, fuel: nat) returns (r: Result<string>, ghost passes: seq<Rendering>)
      requires Valid() && id < |nodes| && nodes[id].kind.ValueKind?
      modifies this
      ensures Valid() && Extends(old(nodes), old(state), nodes, state)
      ensures Templates.Parse(s).None? ==> r == Err(SyntaxError(UnclosedMessage()))
      ensures r.Ok? ==> Chain(s, passes, full) && r.value == Final(passes)
      ensures r.Ok? ==> forall k | 0 <= k < |passes| :: TextsFit(ctx, nodes, state, id, passes[k])
      decreases fuel, 1
    {
      var out;
      ghost var texts;
      out, texts := RenderOnce(id, s, fuel);
      passes := [Rendering(s, texts)];
      if out.Err? {
        return Err(out.error), passes;
      }
      if full && out.value != s {
        if fuel == 0 {
          return Err(RecursionLimit), passes;
        }
        var rest;
        ghost var more;
        ghost var n1, s1 := nodes, state;
        rest, more := Interpolate(id, out.value, true, fuel - 1);
        if rest.Err? {
          return Err(rest.error), passes;
        }
        TextsFitStable(ctx, n1, s1, nodes, state, id, passes);
        ChainCons(Rendering(s, texts), more);
        passes := [Rendering(s, texts)] + more;
        r := rest;
      } else {
        r := out;
      }
    }

    /**
     * One rendering of a template: its literal text kept, each `${...}`
     * replaced by the text of what it names, left to right.
     */
    method RenderOnce(id: nat, s: string, fuel: nat) returns (r: Result<string>, ghost texts: seq<string>)
      requires Valid() && id < |nodes| && nodes[id].kind.ValueKind?
      modifies this
      ensures Valid() && Extends(old(nodes), old(state), nodes, state)
      ensures Templates.Parse(s).None? ==>
        r == Err(SyntaxError(UnclosedMessage())) && nodes == old(nodes) && state == old(state)
      ensures r.Ok? ==> Rendered(Rendering(s, texts)) && r.value == Output(Rendering(s, texts))
      ensures r.Ok? ==> TextsFit(ctx, nodes, state, id, Rendering(s, texts))
      decreases fuel, 0
    {
      texts := [];
      var parsed := Templates.Parse(s);
      if parsed.None? {
        return Err(SyntaxError(UnclosedMessage())), [];
      }
      var segs := parsed.value;
      var collected: seq<string> := [];
      var i := 0;
      while i < |segs|
        invariant 0 <= i <= |segs| && |collected| == RefCount(segs[..i])
        invariant Valid() && Extends(old(nodes), old(state), nodes, state)
        invariant RefTexts(ctx, nodes, state, id, segs[..i]) == Some(collected)
      {
        RefCountSnoc(segs, i);
        if segs[i].Ref? {
          if fuel == 0 {
            return Err(RecursionLimit), [];
          }
          var more := CollectRef(id, segs, i, collected, fuel - 1);
          if more.Err? {
            return Err(more.error), [];
          }
          collected := more.value;
        } else {
          RefTextsSnoc(ctx, nodes, state, id, segs, i);
        }
        i := i + 1;
      }
      assert segs[..|segs|] == segs;
      RenderedOf(ctx, nodes, state, id, s, segs, collected);
      texts := collected;
      r := Ok(Fill(segs, collected));
    }

    /** The texts collected so far, with the text of the i-th segment, a reference, added. */
    method CollectRef(id: nat, segs: seq<Segment>, i: nat, collected: seq<string>, fuel: nat) returns (r: Result<seq<string>>)
      requires Valid() && id < |nodes| && nodes[id].kind.ValueKind? && i < |segs| && segs[i].Ref?
      requires RefTexts(ctx, nodes, state, id, segs[..i]) == Some(collected)
      modifies this
      ensures Valid() && Extends(old(nodes), old(state), nodes, state)
      ensures r.Ok? ==> |r.value| == |collected| + 1 && RefTexts(ctx, nodes, state, id, segs[..i + 1]) == Some(r.value)
      decreases fuel, 8
    {
      var t := ReferenceText(id, segs[i].expr, fuel);
      if t.Err? {
        return Err(t.error);
      }
      RefTextsStable(ctx, old(nodes), old(state), nodes, state, id, segs[..i]);
      RefTextsSnoc(ctx, nodes, state, id, segs, i);
      r := Ok(collected + [t.value]);
    }

    /**
     * The text a `${a.b.c}` reference renders to: `a` looked up as a
     * variable, then each further segment as an attribute or item of what the
     * previous one gave; anything undefined is an error at the node.
     */
    method ReferenceText(id: nat, expr: string, fuel: nat) returns (r: Result<string>)
      requires Valid() && id < |nodes| && nodes[id].kind.ValueKind?
      modifies this
      ensures Valid() && Extends(old(nodes), old(state), nodes, state)
      ensures |Path(expr)| == 1 && LocalVariable(old(nodes), id, Path(expr)[0]).Some? ==>
        r == Ok(TextOf(ctx, LocalVariable(old(nodes), id, Path(expr)[0]).value)) &&
        nodes == old(nodes) && state == old(state)
      ensures r.Ok? ==> RefText(ctx, nodes, state, id, expr) == Some(r.value)
      decreases fuel, 7
    {
      var kp := nodes[id].kind.keypath;
      var path := Path(expr);
      var v := Variable(id, path[0], fuel);
      if v.Err? {
        return Err(v.error);
      }
      if v.value.None? {
        return Err(Resolution(UndefinedName(path[0]), kp));
      }
      PathLookFirst(ctx, nodes, state, id, path);
      if |path| == 1 {
        assert path[..1] == path;
        return Ok(TextOf(ctx, v.value.value));
      }
      var b := FollowMembers(id, path, v.value.value, fuel);
      if b.Err? {
        return Err(b.error);
      }
      r := Ok(TextOf(ctx, b.value));
    }

    /**
     * The further segments of a reference, from what its first one gave:
     * each looked up as an attribute or item of the previous one.
     */
    method FollowMembers(id: nat, path: seq<string>, first: Binding, fuel: nat) returns (r: Result<Binding>)
      requires Valid() && id < |nodes| && nodes[id].kind.ValueKind? && |path| >= 1 && BindingIn(first, |nodes|)
      requires PathLook(ctx, nodes, state, id, path[..1]) == Found(first)
      modifies this
      ensures Valid() && Extends(old(nodes), old(state), nodes, state)
      ensures r.Ok? ==> PathLook(ctx, nodes, state, id, path) == Found(r.value)
      decreases fuel, 6
    {
      var kp := nodes[id].kind.keypath;
      var b := first;
      var i := 1;
      while i < |path|
        invariant 1 <= i <= |path| && BindingIn(b, |nodes|)
        invariant Valid() && Extends(old(nodes), old(state), nodes, state)
        invariant PathLook(ctx, nodes, state, id, path[..i]) == Found(b)
      {
        ghost var n1, s1 := nodes, state;
        var m := Member(b, path[i], fuel);
        if m.Err? {
          return Err(m.error);
        }
        if m.value.None? {
          return Err(Resolution(UndefinedMember(path[i]), kp));
        }
        PathLookStable(ctx, n1, s1, nodes, state, id, path[..i]);
        PathLookStep(ctx, nodes, state, id, path, i);
        b := m.value.value;
        i := i + 1;
      }
      assert path[..i] == path;
      r := Ok(b);
    }

    /**
     * `resolve_or_missing(key)`: the node's local variables up the parent
     * chain, then the root container, then the root under `inject_root_as`,
     * then the global variables; `None` when all of them miss.
     */
    method Variable(id: nat, key: string, fuel: nat) returns (r: Result<Option<Binding>>)
      requires Valid() && id < |nodes|
      modifies this
      ensures Valid() && Extends(old(nodes), old(state), nodes, state)
      ensures r.Ok? && r.value.Some? ==> BindingIn(r.value.value, |nodes|)
      ensures LocalVariable(old(nodes), id, key).Some? ==>
        r == Ok(LocalVariable(old(nodes), id, key)) && nodes == old(nodes) && state == old(state)
      ensures LocalVariable(old(nodes), id, key).None? && RootMisses(old(nodes), Root(old(nodes), id), key) ==>
        r == Ok(GlobalVariable(ctx, old(nodes), Root(old(nodes), id), key)) &&
        nodes == old(nodes) && state == old(state)
      ensures r.Ok? ==> VarLook(ctx, nodes, state, id, key) == LookOf(r.value)
      decreases fuel, 5
    {
      var local := LocalVariable(nodes, id, key);
      LocalVariableIn(nodes, id, key);
      if local.Some? {
        return Ok(local);
      }
      var rt := Root(nodes, id);
      ghost var n1 := nodes;
      var found := RootMember(rt, key, fuel);
      LocalVariableStable(n1, nodes, id, key);
      if found.Err? {
        return Err(found.error);
      }
      if found.value.Some? {
        return found;
      }
      r := Ok(GlobalVariable(ctx, nodes, rt, key));
    }

    /**
     * `root_container[key]`: a dict root gives its child, a call root is
     * evaluated first, a list or value root has no names; a KeyError or
     * IndexError on the way counts as a miss.
     */
    method RootMember(rt: nat, key: string, fuel: nat) returns (r: Result<Option<Binding>>)
      requires Valid() && rt < |nodes|
      modifies this
      ensures Valid() && Extends(old(nodes), old(state), nodes, state)
      ensures r.Ok? && r.value.Some? ==> BindingIn(r.value.value, |nodes|)
      ensures r.Err? ==> !LookupMiss(r.error)
      ensures RootMisses(old(nodes), rt, key) ==> r == Ok(None) && nodes == old(nodes) && state == old(state)
      ensures (old(nodes[rt].kind).DictKind? && FindKey(old(nodes[rt].kind).children, key).Some? &&
               !old(nodes[FindKey(nodes[rt].kind.children, key).value].kind).ValueKind? &&
               !old(nodes[FindKey(nodes[rt].kind.children, key).value].kind).CallKind?) ==>
        r == Ok(Some(LazyNode(FindKey(old(nodes[rt].kind).children, key).value))) &&
        nodes == old(nodes) && state == old(state)
      ensures r.Ok? ==> RootLook(nodes, state, rt, key) == LookOf(r.value)
      decreases fuel, 4
    {
      var k := nodes[rt].kind;
      if k.ValueKind? || k.ListKind? {
        return Ok(None);
      }
      var container := rt;
      if k.CallKind? {
        if fuel == 0 {
          return Err(RecursionLimit);
        }
        var t := Evaluate(rt, fuel - 1);
        if t.Err? {
          return if LookupMiss(t.error) then Ok(None) else Err(t.error);
        }
        if nodes[t.value].kind.ValueKind? {
          return Err(AssertionFailed);
        }
        container := t.value;
      }
      if nodes[container].kind.ListKind? {
        return Ok(None);
      }
      var c := FindKey(nodes[container].kind.children, key);
      if c.None? {
        return Ok(None);
      }
      assert Container(nodes, state, rt) == Found(LazyNode(container));
      ghost var n1, s1 := nodes, state;
      var a := Access(c.value, fuel);
      ContainerStable(n1, s1, nodes, state, rt);
      if a.Err? {
        return if LookupMiss(a.error) then Ok(None) else Err(a.error);
      }
      r := Ok(Some(a.value));
    }

    /**
     * The lazy containers' `__getitem__` once the child is found: a call is
     * evaluated first, a dict or list gives another lazy container, a value
     * node is resolved.
     */
    method Access(n: nat, fuel: nat) returns (r: Result<Binding>)
      requires Valid() && n < |nodes|
      modifies this
      ensures Valid() && Extends(old(nodes), old(state), nodes, state)
      ensures r.Ok? ==> BindingIn(r.value, |nodes|)
      ensures r.Ok? && r.value.LazyNode? ==>
        nodes[r.value.id].kind.DictKind? || nodes[r.value.id].kind.ListKind?
      ensures old(nodes[n].kind).DictKind? || old(nodes[n].kind).ListKind? ==>
        r == Ok(LazyNode(n)) && nodes == old(nodes) && state == old(state)
      ensures old(nodes[n].kind).ValueKind? && old(state[n]).Resolved? ==>
        r == Ok(Bound(old(state[n]).value)) && nodes == old(nodes) && state == old(state)
      ensures old(nodes[n].kind).ValueKind? && old(state[n]).Pending? ==>
        r == Err(Resolution("Circular reference.", old(nodes[n].kind).keypath)) &&
        nodes == old(nodes) && state == old(state)
      ensures r.Ok? ==> Designated(nodes, state, n) == Found(r.value)
      ensures r.Err? && r.error != RecursionLimit ==> Designated(nodes, state, n) == Absent
      decreases fuel, 3
    {
      var k := nodes[n].kind;
      if k.DictKind? || k.ListKind? {
        return Ok(LazyNode(n));
      }
      var m := n;
      var f := fuel;
      if k.CallKind? {
        if fuel == 0 {
          return Err(RecursionLimit);
        }
        var t := Evaluate(n, fuel - 1);
        if t.Err? {
          return Err(t.error);
        }
        if !nodes[t.value].kind.ValueKind? {
          return Ok(LazyNode(t.value));
        }
        m, f := t.value, fuel - 1;
      }
      ghost var n1, s1 := nodes, state;
      var v;
      ghost var passes;
      v, passes := ResolveValue(m, f);
      if k.CallKind? {
        assert state[n] == s1[n] && nodes[n] == n1[n] by {
          assert Extends(n1, s1, nodes, state);
        }
      }
      r := if v.Ok? then Ok(Bound(v.value)) else Err(v.error);
    }

    /**
     * Jinja's `x.seg` (or `x[seg]` for digits) on what a reference gave so far:
     * a plain value is indexed directly; a lazy container looks up its child,
     * a call being evaluated first. `None` is Jinja's undefined.
     */
    method Member(b: Binding, seg: string, fuel: nat) returns (r: Result<Option<Binding>>)
      requires Valid() && BindingIn(b, |nodes|)
      modifies this
      ensures Valid() && Extends(old(nodes), old(state), nodes, state)
      ensures r.Ok? ==> MemberLook(nodes, state, b, seg) == LookOf(r.value)
      ensures r.Ok? && r.value.Some? ==> BindingIn(r.value.value, |nodes|)
      ensures b.Bound? ==> r == Ok(BoundMember(b.value, seg)) && nodes == old(nodes) && state == old(state)
      ensures (b.LazyNode? && old(nodes[b.id].kind).DictKind? &&
               (IsIndex(seg) || FindKey(old(nodes[b.id].kind).children, seg).None?)) ==>
        r == Ok(None) && nodes == old(nodes) && state == old(state)
      ensures (b.LazyNode? && old(nodes[b.id].kind).ListKind? &&
               !(IsIndex(seg) && ParseNat(seg) < |old(nodes[b.id].kind).items|)) ==>
        r == Ok(None) && nodes == old(nodes) && state == old(state)
      decreases fuel, 4
    {
      if b.Bound? {
        return Ok(BoundMember(b.value, seg));
      }
      var open := OpenContainer(b.id, fuel);
      if open.Err? {
        return Err(open.error);
      }
      if open.value.None? {
        return Ok(None);
      }
      var n := open.value.value;
      var c: nat;
      if nodes[n].kind.DictKind? {
        if IsIndex(seg) {
          return Ok(None);
        }
        var f := FindKey(nodes[n].kind.children, seg);
        if f.None? {
          return Ok(None);
        }
        c := f.value;
      } else {
        var items := nodes[n].kind.items;
        if !(IsIndex(seg) && ParseNat(seg) < |items|) {
          return Ok(None);
        }
        c := items[ParseNat(seg)];
      }
      assert Container(nodes, state, b.id) == Found(LazyNode(n));
      ghost var n1, s1 := nodes, state;
      var a := Access(c, fuel);
      ContainerStable(n1, s1, nodes, state, b.id);
      if a.Err? {
        return if AccessMiss(a.error) then Ok(None) else Err(a.error);
      }
      r := Ok(Some(a.value));
    }

    /**
     * The container a lazy binding stands for: a dict or list node itself, a
     * call's evaluated node; a value node is not one, and a call whose
     * evaluation misses gives nothing.
     */
    method OpenContainer(id: nat, fuel: nat) returns (r: Result<Option<nat>>)
      requires Valid() && id < |nodes|
      modifies this
      ensures Valid() && Extends(old(nodes), old(state), nodes, state)
      ensures r.Ok? && r.value.Some? ==> Container(nodes, state, id) == Found(LazyNode(r.value.value))
      ensures r.Ok? && r.value.None? ==> Container(nodes, state, id) == Absent
      ensures old(nodes[id].kind).ValueKind? ==> r == Err(AssertionFailed)
      ensures !old(nodes[id].kind).CallKind? ==> nodes == old(nodes) && state == old(state)
      ensures (old(nodes[id].kind).DictKind? || old(nodes[id].kind).ListKind?) ==> r == Ok(Some(id))
      decreases fuel, 3
    {
      if nodes[id].kind.ValueKind? {
        return Err(AssertionFailed);
      }
      if !nodes[id].kind.CallKind? {
        return Ok(Some(id));
      }
      if fuel == 0 {
        return Err(RecursionLimit);
      }
      var t := Evaluate(id, fuel - 1);
      if t.Err? {
        return if AccessMiss(t.error) then Ok(None) else Err(t.error);
      }
      if nodes[t.value].kind.ValueKind? {
        return Err(AssertionFailed);
      }
      r := Ok(Some(t.value));
    }

    // ------------------------------------------------------ function calls

    /**
     * `_FunctionCallNode.evaluate`: a pending call is a circular reference, an
     * evaluated one gives its cached node, and an undiscovered one becomes
     * pending, gets its input (resolved if the function asks for it), calls
     * the function, evaluates a result that is itself a call, and caches the
     * dict, list or value node it ends with. A failure leaves it pending.
     */
    method Evaluate(id: nat, fuel: nat) returns (r: Result<nat>)
      requires Valid() && id < |nodes| && nodes[id].kind.CallKind?
      modifies this
      ensures Valid() && Extends(old(nodes), old(state), nodes, state)
      ensures r.Ok? ==> r.value < |nodes| && !nodes[r.value].kind.CallKind?
      ensures old(state[id]).Pending? ==>
        r == Err(Resolution("Circular reference", old(nodes[id].kind).keypath)) &&
        nodes == old(nodes) && state == old(state)
      ensures old(state[id]).Evaluated? ==>
        r == Ok(old(state[id]).target) && nodes == old(nodes) && state == old(state)
      ensures old(state[id]).Undiscovered? ==> state[id] == (if r.Ok? then Evaluated(r.value) else Pending)
      ensures r.Ok? ==> state[id] == Evaluated(r.value)
      ensures r.Err? ==> state[id] == Pending
      ensures old(state[id]).Undiscovered? && old(nodes[id].kind).name !in ctx.functions ==>
        r == Err(KeyError(old(nodes[id].kind).name))
      decreases fuel, 0
    {
      var k := nodes[id].kind;
      if state[id].Pending? {
        return Err(Resolution("Circular reference", k.keypath));
      }
      if state[id].Evaluated? {
        return Ok(state[id].target);
      }
      WfSetState(nodes, state, id, Pending);
      ExtendsSetState(nodes, state, nodes, state, id, Pending);
      state := state[id := Pending];
      if k.name !in ctx.functions {
        return Err(KeyError(k.name));
      }
      if fuel == 0 {
        return Err(RecursionLimit);
      }
      ghost var n1, s1 := nodes, state;
      var t := Invoke(id, ctx.functions[k.name], fuel - 1);
      ExtendsTrans(old(nodes), old(state), n1, s1, nodes, state);
      if t.Err? {
        return t;
      }
      WfSetState(nodes, state, id, Evaluated(t.value));
      ExtendsSetState(old(nodes), old(state), nodes, state, id, Evaluated(t.value));
      state := state[id := Evaluated(t.value)];
      r := t;
    }

    /**
     * The work of evaluating a call once it is pending: its input, the
     * function called on it, and a result that is itself a call evaluated in
     * turn, down to a dict, list or value node.
     */
    method Invoke(id: nat, impl: Impl, fuel: nat) returns (r: Result<nat>)
      requires Valid() && id < |nodes| && nodes[id].kind.CallKind?
      modifies this
      ensures Valid() && Extends(old(nodes), old(state), nodes, state)
      ensures r.Ok? ==> r.value < |nodes| && !nodes[r.value].kind.CallKind?
      decreases fuel, 4
    {
      var input := FunctionInput(id, impl, fuel);
      if input.Err? {
        return Err(input.error);
      }
      if nodes[Root(nodes, id)].kind.ValueKind? {
        return Err(AssertionFailed);
      }
      ghost var n1, s1 := nodes, state;
      var out := CallFunction(id, impl, input.value, fuel);
      ExtendsTrans(old(nodes), old(state), n1, s1, nodes, state);
      if out.Err? {
        return Err(out.error);
      }
      var t := out.value;
      if nodes[t].kind.CallKind? {
        ghost var n2, s2 := nodes, state;
        var e := Evaluate(t, fuel);
        ExtendsTrans(old(nodes), old(state), n2, s2, nodes, state);
        if e.Err? {
          return Err(e.error);
        }
        t := e.value;
      }
      r := Ok(t);
    }

    /**
     * The input a function receives: its raw input, or, when the function
     * asks for it, that input resolved under `{"type": "any"}` below the call.
     */
    method FunctionInput(id: nat, impl: Impl, fuel: nat) returns (r: Result<Value>)
      requires Valid() && id < |nodes| && nodes[id].kind.CallKind?
      modifies this
      ensures Valid() && Extends(old(nodes), old(state), nodes, state)
      ensures !ResolveInput(impl) ==>
        r == Ok(old(nodes[id].kind).input) && nodes == old(nodes) && state == old(state)
      ensures (ResolveInput(impl) &&
               Build(ctx.builder, old(nodes[id].kind).input, AnySchema(), old(nodes[id].kind).keypath, old(nodes[id].mode), fuel).Err?) ==>
        r == Err(Build(ctx.builder, old(nodes[id].kind).input, AnySchema(), old(nodes[id].kind).keypath, old(nodes[id].mode), fuel).error)
      decreases fuel, 1
    {
      if !ResolveInput(impl) {
        return Ok(nodes[id].kind.input);
      }
      ghost var at;
      r, at := ResolveWith(id, nodes[id].kind.input, AnySchema(), fuel);
    }

    /**
     * The resolver a call hands to its function: the configuration built
     * under a schema below the call, at the call's keypath and in its mode,
     * then resolved.
     */
    method ResolveWith(id: nat, cfg: Value, schema: Value, fuel: nat) returns (r: Result<Value>, ghost at: nat)
      requires Valid() && id < |nodes| && nodes[id].kind.CallKind?
      modifies this
      ensures Valid() && Extends(old(nodes), old(state), nodes, state)
      ensures var b := Build(ctx.builder, cfg, schema, old(nodes[id].kind).keypath, old(nodes[id].mode), fuel);
        b.Err? ==> r == Err(b.error) && nodes == old(nodes) && state == old(state)
      ensures r.Ok? ==> old(|nodes|) == at && BuiltBelow(ctx.builder, nodes, state, old(nodes[id]), id, cfg, schema, at, r.value, fuel)
      decreases fuel, 0
    {
      at := |nodes|;
      var nd := nodes[id];
      var t := BuildAttach(cfg, schema, nd.kind.keypath, nd.mode, Some(id), [], fuel);
      if t.Err? {
        return Err(t.error), at;
      }
      assert fuel > 0;
      ghost var n1, s1 := nodes, state;
      r := ResolveCached(t.value, fuel - 1);
      ResolvedBelow(ctx.builder, cfg, schema, nd, old(nodes), old(state), n1, s1, nodes, state, id, at, r, fuel);
    }

    /** `resolve` of a node, seen only through the value it caches (a smaller contract for loops and callers). */
    method ResolveCached(n: nat, fuel: nat) returns (r: Result<Value>)
      requires Valid() && n < |nodes|
      modifies this
      ensures Valid() && Extends(old(nodes), old(state), nodes, state)
      ensures r.Ok? ==> Cached(nodes, state, n, fuel) == Some(r.value)
      ensures Cached(old(nodes), old(state), n, fuel).Some? ==>
        r == Ok(Cached(old(nodes), old(state), n, fuel).value) && nodes == old(nodes) && state == old(state)
      decreases fuel, 4
    {
      r := ResolveNode(n, fuel);
    }

    /**
     * Calls the function: a user function through `apply`, its output built
     * under the call's schema below the call; a core function by its own rules.
     */
    method CallFunction(id: nat, impl: Impl, input: Value, fuel: nat) returns (r: Result<nat>)
      requires Valid() && id < |nodes| && nodes[id].kind.CallKind?
      modifies this
      ensures Valid() && Extends(old(nodes), old(state), nodes, state)
      ensures r.Ok? ==> r.value < |nodes|
      ensures impl.UserImpl? ==>
        var k := old(nodes[id].kind);
        var out := ctx.apply(k.name, input, k.keypath, k.schema);
        (out.Err? ==> r == Err(out.error)) &&
        (out.Ok? ==> (r.Ok? <==> Build(ctx.builder, out.value, k.schema, k.keypath, old(nodes[id].mode), fuel).Ok?)) &&
        (out.Ok? && r.Ok? ==> nodes[r.value].parent == Some(id) && nodes[r.value].mode == old(nodes[id].mode))
      decreases fuel, 3
    {
      var nd := nodes[id];
      var k := nd.kind;
      if impl.UserImpl? {
        var out := ctx.apply(k.name, input, k.keypath, k.schema);
        if out.Err? {
          return Err(out.error);
        }
        r := BuildAttach(out.value, k.schema, k.keypath, nd.mode, Some(id), [], fuel);
      } else if Rebuilds(impl.core) {
        r := Rebuild(id, impl.core, input, fuel);
      } else {
        r := CallCore(id, impl.core, input, fuel);
      }
    }

    /** `splice`, `use`, `if` and `let`, each by its own rules. */
    method CallCore(id: nat, c: Core, input: Value, fuel: nat) returns (r: Result<nat>)
      requires Valid() && id < |nodes| && nodes[id].kind.CallKind? && !Rebuilds(c)
      modifies this
      ensures Valid() && Extends(old(nodes), old(state), nodes, state)
      ensures r.Ok? ==> r.value < |nodes|
      decreases fuel, 2
    {
      match c {
        case SpliceFn =>
          ghost var src, data;
          r, src, data := Splice(id, input, fuel);
        case UseFn =>
          ghost var src, resolved;
          r, src, resolved := Use(id, input, fuel);
        case IfFn => r := CallIf(id, input, fuel);
        case LetFn =>
          ghost var trace;
          r, trace := Let(id, input, fuel);
      }
    }

    /** `if`, with the branch it chose left aside. */
    method CallIf(id: nat, input: Value, fuel: nat) returns (r: Result<nat>)
      requires Valid() && id < |nodes| && nodes[id].kind.CallKind?
      modifies this
      ensures Valid() && Extends(old(nodes), old(state), nodes, state)
      ensures r.Ok? ==> r.value < |nodes|
      decreases fuel, 1
    {
      ghost var trace;
      r, trace := If(id, input, fuel);
    }

    // ------------------------------------------------------- core functions

    /**
     * `raw`, `resolve`, `fully_resolve` and `template`: the input (wrapped as
     * `{"__template__": input}` for `template`) built under the call's schema
     * in RAW, STANDARD, FULL and RAW mode; `raw` and `template` start a tree
     * of their own, the others hang it below the call.
     */
    method Rebuild(id: nat, c: Core, input: Value, fuel: nat) returns (r: Result<nat>)
      requires Valid() && id < |nodes| && nodes[id].kind.CallKind? && Rebuilds(c)
      modifies this
      ensures Valid() && Extends(old(nodes), old(state), nodes, state)
      ensures var k := old(nodes[id].kind);
        var b := Build(ctx.builder, RebuildInput(c, input), k.schema, k.keypath, RebuildMode(c), fuel);
        (r.Ok? <==> b.Ok?) && (r.Err? ==> r.error == b.error) &&
        (r.Ok? ==>
          r.value == old(|nodes|) && r.value < |nodes| && Placed(nodes, b.value, r.value) &&
          nodes[r.value].mode == RebuildMode(c) && nodes[r.value].parent == RebuildParent(c, id))
      decreases fuel, 0
    {
      var k := nodes[id].kind;
      r := BuildAttach(RebuildInput(c, input), k.schema, k.keypath, RebuildMode(c), RebuildParent(c, id), [], fuel);
    }

    /**
     * The node a `splice` or `use` keypath names, from the root: a KeyError
     * on the way becomes "Keypath '<k>' does not exist." at the call.
     */
    method FindSource(id: nat, keypath: string, fuel: nat) returns (r: Result<nat>)
      requires Valid() && id < |nodes| && nodes[id].kind.CallKind?
      modifies this
      ensures Valid() && Extends(old(nodes), old(state), nodes, state)
      ensures r.Ok? ==> r.value < |nodes| && !nodes[r.value].kind.CallKind?
      ensures r.Err? ==> !r.error.KeyError?
      ensures r.Ok? ==> NodeAt(nodes, state, Root(old(nodes), id), SplitDotted(keypath)) == Some(r.value)
      ensures var rt := old(nodes[Root(nodes, id)].kind);
        rt.DictKind? && FindKey(rt.children, SplitDotted(keypath)[0]).None? ==>
          r == Err(Resolution(MissingKeypathMessage(keypath), old(nodes[id].kind).keypath)) &&
          nodes == old(nodes) && state == old(state)
      decreases fuel, 2
    {
      var rt := Root(nodes, id);
      if nodes[rt].kind.ValueKind? {
        return Err(AssertionFailed);
      }
      var n := GetKeypath(rt, SplitDotted(keypath), fuel);
      if n.Err? && n.error.KeyError? {
        return Err(Resolution(MissingKeypathMessage(keypath), nodes[id].kind.keypath));
      }
      r := n;
    }

    /**
     * `get_keypath`: the node at a keypath below a dict, list or call node,
     * calls on the way (and at the end) being evaluated.
     */
    method GetKeypath(n: nat, path: seq<string>, fuel: nat) returns (r: Result<nat>)
      requires Valid() && n < |nodes| && !nodes[n].kind.ValueKind? && |path| >= 1
      modifies this
      ensures Valid() && Extends(old(nodes), old(state), nodes, state)
      ensures r.Ok? ==> r.value < |nodes| && !nodes[r.value].kind.CallKind?
      ensures old(nodes[n].kind).DictKind? && FindKey(old(nodes[n].kind).children, path[0]).None? ==>
        r == Err(KeyError(path[0])) && nodes == old(nodes) && state == old(state)
      ensures old(nodes[n].kind).ListKind? && ParseIndex(path[0]).None? ==>
        r == Err(ValueError(IntLiteralMessage(path[0]))) && nodes == old(nodes) && state == old(state)
      ensures (old(nodes[n].kind).ListKind? && ParseIndex(path[0]).Some? &&
               ListSlot(|old(nodes[n].kind).items|, ParseIndex(path[0]).value).None?) ==>
        r == Err(IndexError("list index out of range")) && nodes == old(nodes) && state == old(state)
      ensures (|path| == 1 && old(nodes[n].kind).DictKind? && FindKey(old(nodes[n].kind).children, path[0]).Some? &&
               !old(nodes[FindKey(nodes[n].kind.children, path[0]).value].kind).CallKind?) ==>
        r == Ok(FindKey(old(nodes[n].kind).children, path[0]).value) && nodes == old(nodes) && state == old(state)
      ensures r.Ok? ==> NodeAt(nodes, state, n, path) == Some(r.value)
      decreases fuel, 1
    {
      var k := nodes[n].kind;
      if k.CallKind? {
        r := GetKeypathOfCall(n, path, fuel);
        return;
      }
      var c: nat;
      if k.DictKind? {
        var f := FindKey(k.children, path[0]);
        if f.None? {
          return Err(KeyError(path[0]));
        }
        c := f.value;
      } else {
        var ix := ParseIndex(path[0]);
        if ix.None? {
          return Err(ValueError(IntLiteralMessage(path[0])));
        }
        var slot := ListSlot(|k.items|, ix.value);
        if slot.None? {
          return Err(IndexError("list index out of range"));
        }
        c := k.items[slot.value];
      }
      ghost var child := c;
      if nodes[c].kind.CallKind? {
        if fuel == 0 {
          return Err(RecursionLimit);
        }
        var t := Evaluate(c, fuel - 1);
        if t.Err? {
          return Err(t.error);
        }
        c := t.value;
      }
      assert NodeAt(nodes, state, n, path) == NodeBelow(nodes, state, child, path);
      if |path| == 1 {
        return Ok(c);
      }
      if nodes[c].kind.ValueKind? {
        return Err(KeyError(path[0]));
      }
      if fuel == 0 {
        return Err(RecursionLimit);
      }
      ghost var n1, s1 := nodes, state;
      r := GetKeypath(c, path[1..], fuel - 1);
      assert nodes[n] == n1[n] && nodes[child] == n1[child] && state[child] == s1[child] && nodes[c] == n1[c] by {
        assert Extends(n1, s1, nodes, state);
      }
    }

    /** `get_keypath` on a call node: the keypath followed from what the call evaluates to. */
    method GetKeypathOfCall(n: nat, path: seq<string>, fuel: nat) returns (r: Result<nat>)
      requires Valid() && n < |nodes| && nodes[n].kind.CallKind? && |path| >= 1
      modifies this
      ensures Valid() && Extends(old(nodes), old(state), nodes, state)
      ensures r.Ok? ==> r.value < |nodes| && !nodes[r.value].kind.CallKind?
      ensures r.Ok? ==> NodeAt(nodes, state, n, path) == Some(r.value)
      decreases fuel, 0
    {
      if fuel == 0 {
        return Err(RecursionLimit);
      }
      var t := Evaluate(n, fuel - 1);
      if t.Err? {
        return Err(t.error);
      }
      if nodes[t.value].kind.ValueKind? {
        return Err(KeyError(JoinDotted(path)));
      }
      ghost var n1, s1 := nodes, state;
      r := GetKeypath(t.value, path, fuel - 1);
      assert state[n] == s1[n] && nodes[n] == n1[n] && nodes[t.value] == n1[t.value] by {
        assert Extends(n1, s1, nodes, state);
      }
    }

    /**
     * `splice`: a string keypath only; the node there is resolved and its
     * value rebuilt under the call's schema, in STANDARD mode, below the call.
     */
    method Splice(id: nat, input: Value, fuel: nat) returns (r: Result<nat>, ghost src: nat, ghost data: Value)
      requires Valid() && id < |nodes| && nodes[id].kind.CallKind?
      modifies this
      ensures Valid() && Extends(old(nodes), old(state), nodes, state)
      ensures !input.Str? ==>
        r == Err(Resolution("Input to 'splice' must be a string.", old(nodes[id].kind).keypath)) &&
        nodes == old(nodes) && state == old(state)
      ensures r.Ok? ==> r.value < |nodes| && nodes[r.value].mode == Standard && nodes[r.value].parent == Some(id)
      ensures input.Str? && fuel > 0 &&
              old(nodes[Root(nodes, id)].kind).DictKind? &&
              FindKey(old(nodes[Root(nodes, id)].kind).children, SplitDotted(input.s)[0]).None? ==>
        r == Err(Resolution(MissingKeypathMessage(input.s), old(nodes[id].kind).keypath)) &&
        nodes == old(nodes) && state == old(state)
      ensures r.Ok? ==>
        input.Str? && fuel > 0 && src < |nodes| &&
        NodeAt(nodes, state, Root(old(nodes), id), SplitDotted(input.s)) == Some(src) &&
        Cached(nodes, state, src, fuel - 1) == Some(data) &&
        Build(ctx.builder, data, old(nodes[id].kind).schema, old(nodes[id].kind).keypath, Standard, fuel).Ok? &&
        Placed(nodes, Build(ctx.builder, data, old(nodes[id].kind).schema, old(nodes[id].kind).keypath, Standard, fuel).value, r.value)
      decreases fuel, 0
    {
      src, data := 0, Null;
      if !input.Str? {
        r := Err(Resolution("Input to 'splice' must be a string.", nodes[id].kind.keypath));
        return;
      }
      if fuel == 0 {
        r := Err(RecursionLimit);
        return;
      }
      r, src, data := SpliceFrom(id, input.s, fuel - 1);
    }

    /**
     * The part of `splice` after the input is checked: find, resolve,
     * rebuild. `fuel` is one less than the call's.
     */
    method SpliceFrom(id: nat, keypath: string, fuel: nat) returns (r: Result<nat>, ghost src: nat, ghost data: Value)
      requires Valid() && id < |nodes| && nodes[id].kind.CallKind?
      modifies this
      ensures Valid() && Extends(old(nodes), old(state), nodes, state)
      ensures r.Ok? ==> r.value < |nodes| && nodes[r.value].mode == Standard && nodes[r.value].parent == Some(id)
      ensures old(nodes[Root(nodes, id)].kind).DictKind? &&
              FindKey(old(nodes[Root(nodes, id)].kind).children, SplitDotted(keypath)[0]).None? ==>
        r == Err(Resolution(MissingKeypathMessage(keypath), old(nodes[id].kind).keypath)) &&
        nodes == old(nodes) && state == old(state)
      ensures r.Ok? ==>
        src < |nodes| &&
        NodeAt(nodes, state, Root(old(nodes), id), SplitDotted(keypath)) == Some(src) &&
        Cached(nodes, state, src, fuel) == Some(data) &&
        Build(ctx.builder, data, old(nodes[id].kind).schema, old(nodes[id].kind).keypath, Standard, fuel + 1).Ok? &&
        Placed(nodes, Build(ctx.builder, data, old(nodes[id].kind).schema, old(nodes[id].kind).keypath, Standard, fuel + 1).value, r.value)
      decreases fuel, 4
    {
      src, data := 0, Null;
      ghost var rt := Root(nodes, id);
      var found := FindSource(id, keypath, fuel);
      if found.Err? {
        r := Err(found.error);
        return;
      }
      ghost var n1, s1 := nodes, state;
      var resolved := ResolveNode(found.value, fuel);
      ExtendsTrans(old(nodes), old(state), n1, s1, nodes, state);
      if resolved.Err? {
        r := Err(resolved.error);
        return;
      }
      NodeAtStable(n1, s1, nodes, state, rt, SplitDotted(keypath));
      src, data := found.value, resolved.value;
      ghost var n2, s2 := nodes, state;
      assert nodes[id] == old(nodes[id]);
      r := BuildBelow(id, resolved.value, Standard, [], fuel + 1);
      ExtendsTrans(old(nodes), old(state), n2, s2, nodes, state);
      if r.Ok? {
        NodeAtStable(n2, s2, nodes, state, rt, SplitDotted(keypath));
        CachedStable(n2, s2, nodes, state, src, fuel);
      }
    }

    /**
     * `use`: the input checked, the template's node found and resolved, its
     * `__template__` contents taken (merged with the overrides, if any) and
     * rebuilt under the call's schema, in STANDARD mode, below the call.
     */
    method Use(id: nat, input: Value, fuel: nat) returns (r: Result<nat>, ghost src: nat, ghost resolved: Value)
      requires Valid() && id < |nodes| && nodes[id].kind.CallKind?
      modifies this
      ensures Valid() && Extends(old(nodes), old(state), nodes, state)
      ensures ParseUse(input, old(nodes[id].kind).keypath).Err? ==>
        r == Err(ParseUse(input, old(nodes[id].kind).keypath).error) && nodes == old(nodes) && state == old(state)
      ensures r.Ok? ==> r.value < |nodes| && nodes[r.value].mode == Standard && nodes[r.value].parent == Some(id)
      ensures r.Ok? ==>
        var req := ParseUse(input, old(nodes[id].kind).keypath);
        req.Ok? && fuel > 0 &&
        UseDone(ctx.builder, nodes, state, old(nodes[id]), Root(old(nodes), id), req.value, src, resolved, r.value, fuel - 1)
      decreases fuel, 0
    {
      src, resolved := 0, Null;
      var k := nodes[id].kind;
      var req := ParseUse(input, k.keypath);
      if req.Err? {
        r := Err(req.error);
        return;
      }
      if fuel == 0 {
        r := Err(RecursionLimit);
        return;
      }
      r, src, resolved := UseTemplate(id, req.value, fuel - 1);
    }

    /**
     * The part of `use` after the input is checked: find, resolve, merge,
     * rebuild. `fuel` is one less than the call's.
     */
    method UseTemplate(id: nat, req: UseRequest, fuel: nat) returns (r: Result<nat>, ghost src: nat, ghost resolved: Value)
      requires Valid() && id < |nodes| && nodes[id].kind.CallKind?
      modifies this
      ensures Valid() && Extends(old(nodes), old(state), nodes, state)
      ensures r.Ok? ==> r.value < |nodes| && nodes[r.value].mode == Standard && nodes[r.value].parent == Some(id)
      ensures old(nodes[Root(nodes, id)].kind).DictKind? &&
              FindKey(old(nodes[Root(nodes, id)].kind).children, SplitDotted(req.keypath)[0]).None? ==>
        r == Err(Resolution(MissingKeypathMessage(req.keypath), old(nodes[id].kind).keypath)) &&
        nodes == old(nodes) && state == old(state)
      ensures r.Ok? ==> UseDone(ctx.builder, nodes, state, old(nodes[id]), Root(old(nodes), id), req, src, resolved, r.value, fuel)
      decreases fuel, 4
    {
      src, resolved := 0, Null;
      ghost var rt := Root(nodes, id);
      var k := nodes[id].kind;
      var found := FindSource(id, req.keypath, fuel);
      if found.Err? {
        r := Err(found.error);
        return;
      }
      ghost var n1, s1 := nodes, state;
      var value := ResolveNode(found.value, fuel);
      ExtendsTrans(old(nodes), old(state), n1, s1, nodes, state);
      if value.Err? {
        r := Err(value.error);
        return;
      }
      NodeAtStable(n1, s1, nodes, state, rt, SplitDotted(req.keypath));
      src, resolved := found.value, value.value;
      var data := UseContents(value.value, req.overrides, k.keypath);
      if data.Err? {
        r := Err(data.error);
        return;
      }
      ghost var n2, s2 := nodes, state;
      assert nodes[id] == old(nodes[id]);
      r := BuildBelow(id, data.value, Standard, [], fuel + 1);
      ExtendsTrans(old(nodes), old(state), n2, s2, nodes, state);
      if r.Ok? {
        NodeAtStable(n2, s2, nodes, state, rt, SplitDotted(req.keypath));
        CachedStable(n2, s2, nodes, state, src, fuel);
      }
    }

    /**
     * `if`: the input checked, the condition resolved under a boolean schema,
     * and only the branch its truth value picks resolved under the call's
     * schema; that value is what the call returns, built below the call.
     */
    method If(id: nat, input: Value, fuel: nat) returns (r: Result<nat>, ghost trace: IfTrace)
      requires Valid() && id < |nodes| && nodes[id].kind.CallKind?
      modifies this
      ensures Valid() && Extends(old(nodes), old(state), nodes, state)
      ensures ParseIf(input, old(nodes[id].kind).keypath).Err? ==>
        r == Err(ParseIf(input, old(nodes[id].kind).keypath).error) && nodes == old(nodes) && state == old(state)
      ensures r.Ok? ==>
        r.value < |nodes| && nodes[r.value].parent == Some(id) && nodes[r.value].mode == old(nodes[id].mode)
      ensures r.Ok? ==>
        ParseIf(input, old(nodes[id].kind).keypath).Ok? && fuel > 0 &&
        IfDone(ctx.builder, nodes, state, old(nodes[id]), ParseIf(input, old(nodes[id].kind).keypath).value,
               trace, r.value, fuel - 1)
      decreases fuel, 0
    {
      var nd := nodes[id];
      var k := nd.kind;
      trace := IfTrace(Null, 0, Null, Null, 0);
      var parts := ParseIf(input, k.keypath);
      if parts.Err? {
        return Err(parts.error), trace;
      }
      if fuel == 0 {
        return Err(RecursionLimit), trace;
      }
      r, trace := IfBranch(id, parts.value, fuel - 1);
    }

    /**
     * The part of `if` after the input is checked: the condition resolved,
     * the branch it picks resolved and built below the call. `fuel` is one
     * less than the call's.
     */
    method IfBranch(id: nat, parts: IfParts, fuel: nat) returns (r: Result<nat>, ghost trace: IfTrace)
      requires Valid() && id < |nodes| && nodes[id].kind.CallKind?
      modifies this
      ensures Valid() && Extends(old(nodes), old(state), nodes, state)
      ensures r.Ok? ==>
        r.value < |nodes| && nodes[r.value].parent == Some(id) && nodes[r.value].mode == old(nodes[id].mode)
      ensures r.Ok? ==> IfDone(ctx.builder, nodes, state, old(nodes[id]), parts, trace, r.value, fuel)
      decreases fuel, 4
    {
      var nd := nodes[id];
      var k := nd.kind;
      trace := IfTrace(Null, 0, Null, Null, 0);
      ghost var condAt;
      var cond;
      cond, condAt := ResolveWith(id, parts.condition, BooleanSchema(), fuel);
      if cond.Err? {
        return Err(cond.error), trace;
      }
      assert nodes[id] == nd;
      var branch := if Truthy(cond.value) then parts.whenTrue else parts.whenFalse;
      ghost var n1, s1 := nodes, state;
      ghost var valueAt, value;
      r, valueAt, value := IfValue(id, branch, fuel);
      ExtendsTrans(old(nodes), old(state), n1, s1, nodes, state);
      trace := IfTrace(cond.value, condAt, branch, value, valueAt);
      if r.Ok? {
        IfDoneOf(ctx.builder, n1, s1, nodes, state, nd, parts, trace, r.value, fuel);
      }
    }

    /** The chosen branch of an `if` resolved under the call's schema, and its value built below the call. */
    method IfValue(id: nat, branch: Value, fuel: nat) returns (r: Result<nat>, ghost valueAt: nat, ghost value: Value)
      requires Valid() && id < |nodes| && nodes[id].kind.CallKind?
      modifies this
      ensures Valid() && Extends(old(nodes), old(state), nodes, state)
      ensures r.Ok? ==>
        r.value < |nodes| && nodes[r.value].parent == Some(id) && nodes[r.value].mode == old(nodes[id].mode)
      ensures r.Ok? ==> BranchDone(ctx.builder, nodes, state, old(nodes[id]), branch, value, valueAt, r.value, fuel)
      decreases fuel, 1
    {
      var nd := nodes[id];
      value := Null;
      var out;
      out, valueAt := ResolveWith(id, branch, nd.kind.schema, fuel);
      if out.Err? {
        return Err(out.error), valueAt, value;
      }
      value := out.value;
      assert nodes[id] == nd;
      ghost var n1, s1 := nodes, state;
      r := BuildBelow(id, out.value, nd.mode, [], fuel + 1);
      ExtendsTrans(old(nodes), old(state), n1, s1, nodes, state);
      if r.Ok? {
        BranchDoneOf(ctx.builder, n1, s1, nodes, state, nd, branch, value, valueAt, r.value, fuel);
      }
    }

    /**
     * `let`: the input checked, the variables resolved under `any` (they must
     * still be a dict), the body built below the call in the call's mode with
     * the variables as its local variables, then each reference bound on the
     * body.
     */
    method Let(id: nat, input: Value, fuel: nat) returns (r: Result<nat>, ghost trace: LetTrace)
      requires Valid() && id < |nodes| && nodes[id].kind.CallKind?
      modifies this
      ensures Valid() && Extends(old(nodes), old(state), nodes, state)
      ensures ParseLet(input, old(nodes[id].kind).keypath).Err? ==>
        r == Err(ParseLet(input, old(nodes[id].kind).keypath).error) && nodes == old(nodes) && state == old(state)
      ensures r.Ok? ==>
        var p := ParseLet(input, old(nodes[id].kind).keypath);
        p.Ok? && old(|nodes|) <= r.value < |nodes| &&
        nodes[r.value].parent == Some(id) && nodes[r.value].mode == old(nodes[id].mode) &&
        VarsDone(ctx.builder, nodes, state, old(nodes[id]), p.value, trace.vars, trace.varsAt, fuel) &&
        BodyDone(ctx.builder, nodes, state, id, old(nodes[id]), p.value, VarLocals(trace.vars), trace.bound, r.value, fuel)
      decreases fuel, 1
    {
      trace := LetTrace(None, 0, []);
      var k := nodes[id].kind;
      var parts := ParseLet(input, k.keypath);
      if parts.Err? {
        return Err(parts.error), trace;
      }
      ghost var vars, varsAt;
      var locals;
      locals, vars, varsAt := LetLocals(id, parts.value, fuel);
      if locals.Err? {
        return Err(locals.error), trace;
      }
      ghost var n1, s1 := nodes, state;
      ghost var bound;
      r, bound := LetBody(id, parts.value, locals.value, fuel);
      trace := LetTrace(vars, varsAt, bound);
      if r.Ok? {
        VarsDoneStable(ctx.builder, n1, s1, nodes, state, old(nodes[id]), parts.value, vars, varsAt, fuel);
      }
    }

    /**
     * The variables of a `let`, resolved under `any` below the call; they
     * must still be a dict. `vars` is their resolved value, when they were
     * given and resolved.
     */
    method LetLocals(id: nat, p: LetParts, fuel: nat) returns (r: Result<Locals>, ghost vars: Option<Value>, ghost at: nat)
      requires Valid() && id < |nodes| && nodes[id].kind.CallKind?
      modifies this
      ensures Valid() && Extends(old(nodes), old(state), nodes, state)
      ensures r.Ok? ==> forall n: nat :: LocalsIn(r.value, n)
      ensures p.variables.None? ==> r == Ok([]) && nodes == old(nodes) && state == old(state)
      ensures vars.Some? ==> VarsDone(ctx.builder, nodes, state, old(nodes[id]), p, vars, at, fuel)
      ensures vars.Some? && !vars.value.Dict? ==> r == Err(Resolution(LetVariablesMessage(), old(nodes[id].kind).keypath))
      ensures r.Ok? ==>
        VarsDone(ctx.builder, nodes, state, old(nodes[id]), p, vars, at, fuel) && r.value == VarLocals(vars)
      decreases fuel, 0
    {
      vars, at := None, 0;
      if p.variables.None? {
        return Ok([]), vars, at;
      }
      if fuel == 0 {
        return Err(RecursionLimit), vars, at;
      }
      var resolved;
      resolved, at := ResolveWith(id, p.variables.value, AnySchema(), fuel - 1);
      if resolved.Err? {
        return Err(resolved.error), vars, at;
      }
      vars := Some(resolved.value);
      if !resolved.value.Dict? {
        return Err(Resolution(LetVariablesMessage(), nodes[id].kind.keypath)), vars, at;
      }
      r := Ok(BoundLocals(resolved.value.entries));
    }

    /** `make_node` for a subtree of a call: built below the call, under its schema and keypath, in its mode. */
    method BuildBelow(id: nat, cfg: Value, mode: Mode, locals: Locals, fuel: nat) returns (r: Result<nat>)
      requires Valid() && id < |nodes| && nodes[id].kind.CallKind? && LocalsIn(locals, |nodes|)
      modifies this
      ensures Valid() && Extends(old(nodes), old(state), nodes, state)
      ensures r.Err? ==> nodes == old(nodes) && state == old(state)
      ensures r.Ok? ==>
        r.value == old(|nodes|) && r.value < |nodes| && nodes[r.value].parent == Some(id) &&
        nodes[r.value].locals == locals && nodes[r.value].mode == mode
      ensures var b := Build(ctx.builder, cfg, old(nodes[id].kind).schema, old(nodes[id].kind).keypath, mode, fuel);
        (r.Ok? <==> b.Ok?) && (r.Err? ==> r.error == b.error) && (r.Ok? ==> Placed(nodes, b.value, r.value))
    {
      var k := nodes[id].kind;
      r := BuildAttach(cfg, k.schema, k.keypath, mode, Some(id), locals, fuel);
    }

    /**
     * The body of a `let` built below the call in the call's mode with the
     * variables as its local variables; then its references bound on it.
     */
    method LetBody(id: nat, p: LetParts, locals: Locals, fuel: nat) returns (r: Result<nat>, ghost bound: seq<Option<Binding>>)
      requires Valid() && id < |nodes| && nodes[id].kind.CallKind? && LocalsIn(locals, |nodes|)
      modifies this
      ensures Valid() && Extends(old(nodes), old(state), nodes, state)
      ensures r.Ok? ==>
        old(|nodes|) <= r.value < |nodes| &&
        nodes[r.value].parent == Some(id) && nodes[r.value].mode == old(nodes[id].mode) &&
        BodyDone(ctx.builder, nodes, state, id, old(nodes[id]), p, locals, bound, r.value, fuel)
      decreases fuel, 0
    {
      bound := [];
      var nd := nodes[id];
      var body := BuildBelow(id, p.body, nodes[id].mode, locals, fuel);
      if body.Err? {
        return Err(body.error), bound;
      }
      if p.references.Some? {
        if !p.references.value.Dict? {
          return Err(Resolution(LetReferencesMessage(), nodes[id].kind.keypath)), bound;
        }
        if fuel == 0 {
          return Err(RecursionLimit), bound;
        }
        ghost var n1, s1 := nodes, state;
        var bind;
        bind, bound := LetBind(id, body.value, locals, p.references.value.entries, fuel - 1);
        if bind.Err? {
          return Err(bind.error), bound;
        }
        assert Extends(old(nodes), old(state), n1[..body.value], s1);
        ExtendsTrans(old(nodes), old(state), n1[..body.value], s1, nodes, state);
        PlacedGrow(n1, nodes, Build(ctx.builder, p.body, nd.kind.schema, nd.kind.keypath, nd.mode, fuel).value, body.value);
      }
      r := body;
    }

    /**
     * The references of a `let` bound on its freshly built body, which takes
     * them as its local variables: only the body's local variables change
     * among the nodes that were there.
     */
    method LetBind(id: nat, body: nat, locals: Locals, refs: Entries, fuel: nat)
      returns (r: Result<()>, ghost bound: seq<Option<Binding>>)
      requires Valid() && id < body < |nodes| && nodes[id].kind.CallKind? && LocalsIn(locals, |nodes|)
      modifies this
      ensures Valid() && Extends(old(nodes[..body]), old(state), nodes, state)
      ensures SameShape(old(nodes), nodes)
      ensures nodes[body].parent == old(nodes[body].parent) && nodes[body].mode == old(nodes[body].mode)
      ensures r.Ok? ==> RefsDone(nodes, state, id, body, locals, refs, bound)
      decreases fuel, 6
    {
      var b;
      b, bound := BindReferences(id, body, locals, refs, fuel);
      if b.Err? {
        return Err(b.error), bound;
      }
      ghost var n1 := nodes;
      SetLocals(body, b.value);
      forall j | 0 <= j < |refs| ensures BindsTo(nodes, state, id, body, TargetOf(refs[j].1), bound[j]) {
        BindsToStable(n1, state, nodes, state, id, body, TargetOf(refs[j].1), bound[j]);
      }
      r := Ok(());
    }

    /** `node.local_variables = ...`: only that node's local variables change. */
    method SetLocals(n: nat, l: Locals)
      requires Valid() && n < |nodes| && LocalsIn(l, |nodes|)
      modifies this
      ensures Valid()
      ensures nodes == old(nodes)[n := old(nodes[n]).(locals := l)] && state == old(state)
    {
      WfReplace(nodes, state, n, nodes[n].(locals := l));
      nodes := nodes[n := nodes[n].(locals := l)];
    }

    /**
     * The references of a `let`, added in order to the body's local
     * variables: `__this__` names the body (which must not be a value node),
     * `__previous__` the call's previous sibling in its list (resolved if it
     * is a value node); any other target is ignored.
     */
    method BindReferences(id: nat, body: nat, locals: Locals, refs: Entries, fuel: nat)
      returns (r: Result<Locals>, ghost bound: seq<Option<Binding>>)
      requires Valid() && id < body < |nodes| && nodes[id].kind.CallKind? && LocalsIn(locals, |nodes|)
      modifies this
      ensures Valid() && Extends(old(nodes), old(state), nodes, state)
      ensures r.Ok? ==> LocalsIn(r.value, |nodes|)
      ensures r.Ok? ==> |bound| == |refs| && r.value == AddRefs(locals, refs, bound)
      ensures r.Ok? ==> forall j | 0 <= j < |refs| :: BindsTo(nodes, state, id, body, TargetOf(refs[j].1), bound[j])
      ensures r.Ok? ==> forall j | 0 <= j < |refs| ::
        TargetOf(refs[j].1) == This ==> !old(nodes[body].kind).ValueKind?
      decreases fuel, 5
    {
      var out := locals;
      bound := [];
      var i := 0;
      while i < |refs|
        invariant 0 <= i <= |refs| && LocalsIn(out, |nodes|)
        invariant Valid() && Extends(old(nodes), old(state), nodes, state)
        invariant |bound| == i && out == AddRefs(locals, refs[..i], bound)
        invariant forall j | 0 <= j < i :: BindsTo(nodes, state, id, body, TargetOf(refs[j].1), bound[j])
        invariant forall j | 0 <= j < i :: TargetOf(refs[j].1) == This ==> !old(nodes[body].kind).ValueKind?
      {
        ghost var n1, s1 := nodes, state;
        assert n1[body] == old(nodes)[body];
        var next;
        ghost var b;
        next, b := BindStep(id, body, out, refs[i], fuel);
        ExtendsTrans(old(nodes), old(state), n1, s1, nodes, state);
        if next.Err? {
          return Err(next.error), bound;
        }
        BindsSnoc(n1, s1, nodes, state, id, body, locals, refs, bound, b, out, next.value);
        out := next.value;
        bound := bound + [b];
        i := i + 1;
      }
      assert refs[..i] == refs;
      r := Ok(out);
    }

    /** One reference of a `let` bound and added to the locals built so far. */
    method BindStep(id: nat, body: nat, locals: Locals, ref: (string, Value), fuel: nat)
      returns (r: Result<Locals>, ghost b: Option<Binding>)
      requires Valid() && id < body < |nodes| && nodes[id].kind.CallKind? && LocalsIn(locals, |nodes|)
      modifies this
      ensures Valid() && Extends(old(nodes), old(state), nodes, state)
      ensures r.Ok? ==> LocalsIn(r.value, |nodes|)
      ensures r.Ok? ==>
        BindsTo(nodes, state, id, body, TargetOf(ref.1), b) &&
        r.value == (if b.Some? then PutLocal(locals, ref.0, b.value) else locals)
      ensures r.Ok? && TargetOf(ref.1) == This ==> !old(nodes[body].kind).ValueKind?
      decreases fuel, 4
    {
      b := None;
      var one := BindOne(id, body, TargetOf(ref.1), fuel);
      if one.Err? {
        return Err(one.error), b;
      }
      b := one.value;
      LocalsGrow(locals, old(|nodes|), |nodes|);
      if one.value.Some? {
        r := Ok(PutLocal(locals, ref.0, one.value.value));
      } else {
        r := Ok(locals);
      }
    }

    /**
     * What one reference of a `let` binds: the body for `__this__`, the
     * previous sibling (resolved if it is a value node) for `__previous__`,
     * nothing for any other target.
     */
    method BindOne(id: nat, body: nat, t: Target, fuel: nat) returns (r: Result<Option<Binding>>)
      requires Valid() && id < body < |nodes| && nodes[id].kind.CallKind?
      modifies this
      ensures Valid() && Extends(old(nodes), old(state), nodes, state)
      ensures r.Ok? && r.value.Some? ==> BindingIn(r.value.value, |nodes|)
      ensures r.Ok? ==> BindsTo(nodes, state, id, body, t, r.value)
      ensures t == Other ==> r == Ok(None) && nodes == old(nodes) && state == old(state)
      ensures t == This ==>
        r == (if old(nodes[body].kind).ValueKind?
              then Err(Resolution("'__this__' cannot be used when 'in' is a scalar value.", old(nodes[id].kind).keypath))
              else Ok(Some(LazyNode(body)))) &&
        nodes == old(nodes) && state == old(state)
      ensures t == Previous && PreviousOf(old(nodes), id).Err? ==>
        r == Err(PreviousOf(old(nodes), id).error) && nodes == old(nodes) && state == old(state)
      decreases fuel, 3
    {
      match t
      case Other =>
        r := Ok(None);
      case This =>
        if nodes[body].kind.ValueKind? {
          r := Err(Resolution("'__this__' cannot be used when 'in' is a scalar value.", nodes[id].kind.keypath));
        } else {
          r := Ok(Some(LazyNode(body)));
        }
      case Previous =>
        var prev := PreviousOf(nodes, id);
        if prev.Err? {
          return Err(prev.error);
        }
        if nodes[prev.value].kind.ValueKind? {
          var v;
          ghost var passes;
          v, passes := ResolveValue(prev.value, fuel);
          PreviousOfStable(old(nodes), nodes, id);
          r := if v.Ok? then Ok(Some(Bound(v.value))) else Err(v.error);
        } else {
          r := Ok(Some(LazyNode(prev.value)));
        }
    }

    /**
     * Builds the configuration under the schema as a tree of its own and
     * resolves it: what `make_node(...).resolve()` gives.
     */
    method ResolveConfiguration(cfg: Value, schema: Value, fuel: nat) returns (r: Result<Value>, ghost root: nat)
      requires Valid()
      modifies this
      ensures Valid() && Extends(old(nodes), old(state), nodes, state)
      ensures Build(ctx.builder, cfg, schema, [], Standard, fuel).Err? ==>
        r == Err(Build(ctx.builder, cfg, schema, [], Standard, fuel).error)
      ensures (Build(ctx.builder, cfg, schema, [], Standard, fuel).Ok? &&
               Build(ctx.builder, cfg, schema, [], Standard, fuel).value.TDict? && r.Ok?) ==>
        r.value.Dict? && Keys(r.value.entries) == KidKeys(Build(ctx.builder, cfg, schema, [], Standard, fuel).value.children)
      ensures r.Ok? ==>
        Build(ctx.builder, cfg, schema, [], Standard, fuel).Ok? && root == old(|nodes|) && root < |nodes| &&
        nodes[root].parent.None? && Placed(nodes, Build(ctx.builder, cfg, schema, [], Standard, fuel).value, root) &&
        Cached(nodes, state, root, fuel) == Some(r.value)
    {
      root := |nodes|;
      var built := BuildAttach(cfg, schema, [], Standard, None, [], fuel);
      if built.Err? {
        return Err(built.error), root;
      }
      ghost var n1, s1 := nodes, state;
      r := ResolveNode(built.value, fuel);
      PlacedGrow(n1, nodes, Build(ctx.builder, cfg, schema, [], Standard, fuel).value, root);
    }
  }

  // ------------------------------------------------------ engine helpers


  /** The errors `except (KeyError, IndexError)` catches around the root lookup. */
  predicate LookupMiss(e: Error)
  {
    e.KeyError? || e.IndexError?
  }

  /** The errors Jinja's attribute and item access turn into an undefined value. */
  predicate AccessMiss(e: Error)
  {
    e.KeyError? || e.IndexError? || e.TypeError?
  }

  /** The root container has no entry for a name without evaluating anything. */
  predicate RootMisses(nodes: seq<Node>, rt: nat, key: string)
    requires rt < |nodes|
  {
    match nodes[rt].kind
    case DictKind(kids) => FindKey(kids, key).None?
    case ListKind(_) => true
    case ValueKind(_, _, _, _) => true
    case CallKind(_, _, _, _) => false
  }

  /**
   * The last two places a name is looked up: the root itself under the
   * `inject_root_as` name (an empty dict when the root is a value node), then
   * the global variables.
   */
  function GlobalVariable(ctx: Context, nodes: seq<Node>, rt: nat, key: string): (r: Option<Binding>)
    requires rt < |nodes|
    ensures ctx.injectRootAs == Some(key) ==> r.Some?
    ensures ctx.injectRootAs != Some(key) ==> (r.Some? <==> key in KeySet(ctx.globals))
    ensures ctx.injectRootAs != Some(key) && r.Some? ==> r == Some(Bound(Get(ctx.globals, key).value))
  {
    if ctx.injectRootAs == Some(key) then
      Some(if nodes[rt].kind.ValueKind? then Bound(Dict([])) else LazyNode(rt))
    else
      match Get(ctx.globals, key)
      case Some(v) => Some(Bound(v))
      case None => None
  }

  /** Attribute or item access on a plain value, as a binding. */
  function BoundMember(v: Value, seg: string): (r: Option<Binding>)
    ensures r.Some? <==> MemberOfValue(v, seg).Some?
    ensures r.Some? ==> r.value == Bound(MemberOfValue(v, seg).value)
  {
    match MemberOfValue(v, seg)
    case Some(x) => Some(Bound(x))
    case None => None
  }

  /** A dict of resolved variables as local variables. */
  function BoundLocals(e: Entries): (r: Locals)
    ensures |r| == |e| && forall j | 0 <= j < |e| :: r[j] == (e[j].0, Bound(e[j].1))
    ensures forall n: nat :: LocalsIn(r, n)
  {
    if e == [] then [] else [(e[0].0, Bound(e[0].1))] + BoundLocals(e[1..])
  }

  /** `list.index(x)`: the first position of x. */
  function PositionOf(items: seq<nat>, x: nat): (r: Option<nat>)
    ensures r.Some? ==> r.value < |items| && items[r.value] == x && x !in items[..r.value]
    ensures r.None? <==> x !in items
  {
    if items == [] then None
    else if items[0] == x then Some(0)
    else
      match PositionOf(items[1..], x)
      case Some(j) => (assert items[1..][..j] == items[1..j + 1]; Some(j + 1))
      case None => None
  }

  function IntLiteralMessage(seg: string): string
  {
    "invalid literal for " + "int() with base 10: " + "'" + seg + "'"
  }

  function UnclosedMessage(): string
  {
    "unexpected end of " + "template, expected " + "'end of print " + "statement'."
  }

  /**
   * The sibling `__previous__` names: the call's parent must be a list node
   * and the call must not be its first element.
   */
  function PreviousOf(nodes: seq<Node>, id: nat): (r: Result<nat>)
    requires id < |nodes| && ArenaOk(nodes) && ParentsOk(nodes) && nodes[id].kind.CallKind?
    ensures r.Ok? ==> r.value < |nodes|
    ensures r.Ok? <==>
      nodes[id].parent.Some? && nodes[nodes[id].parent.value].kind.ListKind? &&
      PositionOf(nodes[nodes[id].parent.value].kind.items, id).Some? &&
      PositionOf(nodes[nodes[id].parent.value].kind.items, id).value > 0
    ensures nodes[id].parent.None? || !nodes[nodes[id].parent.value].kind.ListKind? ==>
      r == Err(Resolution("'__previous__' can " + "only be used inside " + "a list.", nodes[id].kind.keypath))
  {
    var parent := nodes[id].parent;
    var kp := nodes[id].kind.keypath;
    if parent.None? || !nodes[parent.value].kind.ListKind? then
      Err(Resolution("'__previous__' can " + "only be used inside " + "a list.", kp))
    else
      var items := nodes[parent.value].kind.items;
      assert NodeOk(nodes[parent.value], parent.value, |nodes|);
      match PositionOf(items, id)
      case None => Err(ValueError(NatToString(id) + " is not in list"))
      case Some(j) =>
        if j == 0 then Err(Resolution("'__previous__' " + "cannot be used on " + "the first element " + "of a list.", kp))
        else Ok(items[j - 1])
  }

  /** The previous sibling depends only on the kinds and parents of nodes. */
  lemma PreviousOfStable(n0: seq<Node>, n1: seq<Node>, id: nat)
    requires id < |n0| <= |n1| && ArenaOk(n0) && ParentsOk(n0) && ArenaOk(n1) && ParentsOk(n1)
    requires n0[id].kind.CallKind? && SameShape(n0, n1)
    ensures PreviousOf(n0, id) == PreviousOf(n1, id)
  {
  }

  /** A pass that changed its string, put in front of the passes made on what it rendered. */
  lemma ChainCons(p: Rendering, more: seq<Rendering>)
    requires Rendered(p) && Output(p) != p.input && Chain(Output(p), more, true)
    ensures Chain(p.input, [p] + more, true) && Final([p] + more) == Final(more)
  {
    var ps := [p] + more;
    assert forall k | 1 <= k < |ps| :: ps[k] == more[k - 1];
    assert ps[|ps| - 1] == more[|more| - 1];
    forall k | 0 <= k < |ps| - 1
      ensures ps[k + 1].input == Output(ps[k]) != ps[k].input
    {
      if k > 0 {
        assert ps[k] == more[k - 1] && ps[k + 1] == more[k];
      }
    }
  }

  /** The mode `raw`, `resolve`, `fully_resolve` and `template` rebuild their input in. */
  function RebuildMode(c: Core): Mode
  {
    match c
    case RawFn => Raw
    case TemplateFn => Raw
    case FullyResolveFn => Full
    case _ => Standard
  }

  /** `raw` and `template` build a tree of their own; the others hang it under the call. */
  function RebuildParent(c: Core, id: nat): Option<nat>
  {
    if c == RawFn || c == TemplateFn then None else Some(id)
  }

  /** What is rebuilt: the input itself, or `{"__template__": input}` for `template`. */
  function RebuildInput(c: Core, input: Value): Value
  {
    if c == TemplateFn then Dict([("__template__", input)]) else input
  }

  predicate Rebuilds(c: Core)
  {
    c == RawFn || c == ResolveFn || c == FullyResolveFn || c == TemplateFn
  }

}
