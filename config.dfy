// Configuration values (src/smartconfig/types.py): the JSON-like data a
// configuration, a schema and a resolved result are made of.
module Config {
  import opened Exceptions

  /**
   * Plain strings and the two marker string types: RawString (never
   * interpolated) and RecursiveString (interpolated until it stops changing).
   * All three are Python `str`.
   */
  datatype StrKind = Plain | RawText | RecursiveText

  /**
   * A configuration value. Dictionaries keep their insertion order, as Python
   * dicts do, so they are association lists. Floats are exact reals. A date is
   * a proleptic ordinal (day 1 is 0001-01-01); a datetime counts seconds from
   * midnight of ordinal 0, so its date is `sec / 86400`. `Callable` stands
   * for a Python function object (a dynamic schema), known by its name.
   */
  datatype Value =
    | Null
    | Bool(b: bool)
    | Int(i: int)
    | Float(f: real)
    | Str(s: string, kind: StrKind)
    | Date(day: int)
    | DateTime(sec: int)
    | List(items: seq<Value>)
    | Dict(entries: Entries)
    | Callable(name: string)

  type Entries = seq<(string, Value)>

  function Text(s: string): Value { Str(s, Plain) }

  /** `isinstance(v, int)`: in Python a bool is an int too. */
  predicate IsPyInt(v: Value) { v.Int? || v.Bool? }

  /** The integer a Python int (or bool) stands for. */
  function PyInt(v: Value): int
    requires IsPyInt(v)
  {
    if v.Int? then v.i else if v.b then 1 else 0
  }

  /** The keys of a dict in insertion order. */
  function Keys(e: Entries): (ks: seq<string>)
    ensures |ks| == |e|
    ensures forall i :: 0 <= i < |e| ==> ks[i] == e[i].0
  {
    if e == [] then [] else [e[0].0] + Keys(e[1..])
  }

  function KeySet(e: Entries): set<string>
  {
    if e == [] then {} else {e[0].0} + KeySet(e[1..])
  }

  lemma {:induction false} KeySetIndex(e: Entries, k: string)
    ensures k in KeySet(e) <==> exists i :: 0 <= i < |e| && e[i].0 == k
  {
    if e != [] {
      KeySetIndex(e[1..], k);
      if exists i :: 0 <= i < |e| && e[i].0 == k {
        var i :| 0 <= i < |e| && e[i].0 == k;
        if i > 0 { assert e[1..][i - 1].0 == k; }
      }
      if exists i :: 0 <= i < |e| - 1 && e[1..][i].0 == k {
        var i :| 0 <= i < |e| - 1 && e[1..][i].0 == k;
        assert e[i + 1].0 == k;
      }
    }
  }

  /** The set of elements of a sequence. */
  function Elems(s: seq<string>): (r: set<string>)
    ensures forall x :: x in r <==> x in s
  {
    if s == [] then {} else {s[0]} + Elems(s[1..])
  }

  predicate UniqueKeys(e: Entries)
  {
    forall i, j :: 0 <= i < j < |e| ==> e[i].0 != e[j].0
  }

  /** `d.get(k)`: the value stored under the first entry with key k. */
  function Get(e: Entries, k: string): (r: Option<Value>)
    ensures r.None? <==> k !in KeySet(e)
  {
    if e == [] then None
    else if e[0].0 == k then Some(e[0].1)
    else Get(e[1..], k)
  }

  lemma {:induction false} GetEntry(e: Entries, k: string)
    requires Get(e, k).Some?
    ensures exists i :: 0 <= i < |e| && e[i] == (k, Get(e, k).value)
  {
    if e[0].0 != k {
      GetEntry(e[1..], k);
      var i :| 0 <= i < |e| - 1 && e[1..][i] == (k, Get(e, k).value);
      assert e[i + 1] == (k, Get(e, k).value);
    }
  }

  /** `d[k] = v`: replaces the value of an existing key in place, otherwise appends. */
  function Put(e: Entries, k: string, v: Value): (r: Entries)
    ensures Get(r, k) == Some(v)
    ensures forall j :: j != k ==> Get(r, j) == Get(e, j)
    ensures KeySet(r) == KeySet(e) + {k}
  {
    if e == [] then [(k, v)]
    else if e[0].0 == k then [(k, v)] + e[1..]
    else
      var r := [e[0]] + Put(e[1..], k, v);
      assert r[1..] == Put(e[1..], k, v);
      r
  }

  /** Put keeps the key order; a new key goes last, and keys stay distinct. */
  lemma {:induction false} PutKeys(e: Entries, k: string, v: Value)
    ensures Keys(Put(e, k, v)) == if k in KeySet(e) then Keys(e) else Keys(e) + [k]
    ensures UniqueKeys(e) ==> UniqueKeys(Put(e, k, v))
  {
    if e == [] {
    } else if e[0].0 == k {
      assert Keys(Put(e, k, v)) == Keys(e);
    } else {
      PutKeys(e[1..], k, v);
      var r := Put(e, k, v);
      assert r == [e[0]] + Put(e[1..], k, v);
      if UniqueKeys(e) {
        assert UniqueKeys(e[1..]) by {
          forall i, j | 0 <= i < j < |e| - 1 ensures e[1..][i].0 != e[1..][j].0 {
            assert e[1..][i] == e[i + 1] && e[1..][j] == e[j + 1];
          }
        }
        KeySetIndex(e[1..], e[0].0);
        assert e[0].0 !in KeySet(Put(e[1..], k, v));
        KeySetIndex(Put(e[1..], k, v), e[0].0);
        forall i, j | 0 <= i < j < |r| ensures r[i].0 != r[j].0 {
          if i > 0 {
            assert r[i] == Put(e[1..], k, v)[i - 1] && r[j] == Put(e[1..], k, v)[j - 1];
          } else {
            assert r[j] == Put(e[1..], k, v)[j - 1];
          }
        }
      }
    }
  }

  /** A size measure: every value nested inside a list or dict is shallower. */
  function Depth(v: Value): nat
  {
    match v
    case List(items) => 1 + MaxOf(seq(|items|, i requires 0 <= i < |items| => Depth(items[i])))
    case Dict(e) => 1 + MaxOf(seq(|e|, i requires 0 <= i < |e| => Depth(e[i].1)))
    case _ => 0
  }

  function MaxOf(s: seq<nat>): (m: nat)
    ensures forall i :: 0 <= i < |s| ==> s[i] <= m
  {
    if s == [] then 0 else if s[0] > MaxOf(s[1..]) then s[0] else MaxOf(s[1..])
  }

  lemma DepthEntry(e: Entries, i: nat)
    requires i < |e|
    ensures Depth(e[i].1) < Depth(Dict(e))
  {
    var s := seq(|e|, j requires 0 <= j < |e| => Depth(e[j].1));
    assert s[i] == Depth(e[i].1);
  }

  lemma DepthGet(e: Entries, k: string)
    requires Get(e, k).Some?
    ensures Depth(Get(e, k).value) < Depth(Dict(e))
  {
    GetEntry(e, k);
    var i :| 0 <= i < |e| && e[i] == (k, Get(e, k).value);
    DepthEntry(e, i);
  }

  lemma DepthItem(items: seq<Value>, i: nat)
    requires i < |items|
    ensures Depth(items[i]) < Depth(List(items))
  {
    var s := seq(|items|, j requires 0 <= j < |items| => Depth(items[j]));
    assert s[i] == Depth(items[i]);
  }

  /** Decimal text of a natural number, as Python's `str` writes it. */
  function NatToString(n: nat): (s: string)
    ensures |s| >= 1
    ensures forall i :: 0 <= i < |s| ==> '0' <= s[i] <= '9'
  {
    if n < 10 then [DigitChar(n)] else NatToString(n / 10) + [DigitChar(n % 10)]
  }

  function DigitChar(d: nat): (c: char)
    requires d < 10
    ensures '0' <= c <= '9'
  {
    ['0', '1', '2', '3', '4', '5', '6', '7', '8', '9'][d]
  }

  predicate IsDigit(c: char) { '0' <= c <= '9' }

  function DigitValue(c: char): nat
    requires IsDigit(c)
  {
    (c as int) - ('0' as int)
  }

  /** `int(s)` for a non-empty string of ASCII digits. */
  function ParseNat(s: string): nat
    requires forall i :: 0 <= i < |s| ==> IsDigit(s[i])
  {
    if |s| == 0 then 0 else ParseNat(s[..|s| - 1]) * 10 + DigitValue(s[|s| - 1])
  }

  lemma {:induction false} ParseNatToString(n: nat)
    ensures ParseNat(NatToString(n)) == n
  {
    var s := NatToString(n);
    if n < 10 {
      assert s == [DigitChar(n)];
      assert DigitValue(DigitChar(n)) == n;
    } else {
      assert s[..|s| - 1] == NatToString(n / 10);
      assert DigitValue(DigitChar(n % 10)) == n % 10;
      ParseNatToString(n / 10);
    }
  }

  /** `str(i)` for an int. */
  function IntToString(i: int): string
  {
    if i < 0 then "-" + NatToString(-i) else NatToString(i)
  }

  /** Python truthiness: `bool(v)`. */
  predicate Truthy(v: Value)
  {
    match v
    case Null => false
    case Bool(b) => b
    case Int(i) => i != 0
    case Float(f) => f != 0.0
    case Str(s, _) => s != ""
    case List(items) => items != []
    case Dict(e) => e != []
    case _ => true
  }

  /** `type(v).__name__`. */
  function TypeName(v: Value): string
  {
    match v
    case Null => "NoneType"
    case Bool(_) => "bool"
    case Int(_) => "int"
    case Float(_) => "float"
    case Str(_, kind) => if kind == RawText then "RawString" else if kind == RecursiveText then "RecursiveString" else "str"
    case Date(_) => "date"
    case DateTime(_) => "datetime"
    case List(_) => "list"
    case Dict(_) => "dict"
    case Callable(_) => "function"
  }

  /** `v == s` for a Python string s: RawString and RecursiveString compare as str. */
  predicate IsText(v: Value, s: string)
  {
    v.Str? && v.s == s
  }

  /** `str(type(v))`: the class of a value as Python prints it. */
  function ClassRepr(v: Value): string
  {
    var qualified :=
      if v.Str? && v.kind == RawText then "smartconfig.types.RawString"
      else if v.Str? && v.kind == RecursiveText then "smartconfig.types.RecursiveString"
      else if v.Date? then "datetime.date"
      else if v.DateTime? then "datetime.datetime"
      else TypeName(v);
    "<class '" + qualified + "'>"
  }

  /**
   * `str(v)` as the code's error messages show it, for None, bools, ints,
   * strings, lists and dicts; floats, dates, datetimes and functions are shown
   * by a placeholder naming their type.
   */
  function Show(v: Value): string
  {
    match v
    case Str(s, _) => s
    case _ => Repr(v)
  }

  /** `repr(v)`, with the same placeholders as Show. */
  function Repr(v: Value): string
    decreases Depth(v), 1, 0
  {
    match v
    case Null => "None"
    case Bool(b) => if b then "True" else "False"
    case Int(i) => IntToString(i)
    case Float(_) => "<float>"
    case Str(s, _) => "'" + s + "'"
    case Date(_) => "<date>"
    case DateTime(_) => "<datetime>"
    case Callable(name) => "<function " + name + ">"
    case List(items) => "[" + ReprItems(items, 0) + "]"
    case Dict(e) => "{" + ReprEntries(e, 0) + "}"
  }

  /** The reprs of items[i..], separated by ", ". */
  function ReprItems(items: seq<Value>, i: nat): string
    requires i <= |items|
    decreases Depth(List(items)), 0, |items| - i
  {
    if i == |items| then ""
    else
      var head := (DepthItem(items, i); Repr(items[i]));
      if i + 1 == |items| then head else head + ", " + ReprItems(items, i + 1)
  }

  /** The entries e[i..] written as 'key': repr(value), separated by ", ". */
  function ReprEntries(e: Entries, i: nat): string
    requires i <= |e|
    decreases Depth(Dict(e)), 0, |e| - i
  {
    if i == |e| then ""
    else
      var head := (DepthEntry(e, i); "'" + e[i].0 + "': " + Repr(e[i].1));
      if i + 1 == |e| then head else head + ", " + ReprEntries(e, i + 1)
  }
}
