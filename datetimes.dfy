// The date built-ins of src/smartconfig/stdlib/datetime.py: at, offset,
// first and parse, with their helpers. Inputs arrive resolved (these
// functions are registered with the default `resolve_input=True`).
module DateTimes {
  import opened Exceptions
  import opened Config
  import opened Calls
  import opened Strings
  import opened Patterns
  import opened Calendar
  import opened DateText

  /** `_read_datetime`: a datetime as is, a date at midnight, an ISO string parsed. */
  function ReadDateTime(iso: Iso, value: Value, keypath: KeyPath): (r: Result<int>)
    ensures value.DateTime? ==> r == Ok(value.sec)
    ensures value.Date? ==> r.Ok? && DateOf(r.value) == value.day && TimeOfDay(r.value) == 0
    ensures value.Str? ==> (r.Ok? <==> iso.dateTime(value.s).Some?)
    ensures value.Str? && r.Ok? ==> r.value == iso.dateTime(value.s).value
    ensures !(value.DateTime? || value.Date? || value.Str?) ==> r.Err?
  {
    if value.DateTime? then Ok(value.sec)
    else if value.Date? then Ok(Midnight(value.day))
    else if value.Str? then
      match iso.dateTime(value.s)
      case Some(t) => Ok(t)
      case None => Err(Resolution(InvalidDateMessage(value.s), keypath))
    else Err(Resolution(DateTypeMessage(value), keypath))
  }

  /** `datetime.combine(day, time())`: the first second of a day. */
  function Midnight(day: int): (t: int)
    ensures DateOf(t) == day && TimeOfDay(t) == 0
  {
    CombineParts(day, 0);
    Combine(day, 0)
  }

  /** The message for a string that is not an ISO datetime. */
  function InvalidDateMessage(s: string): string
  {
    "Invalid date: '" + s + "'."
  }

  /** The message for a value that is neither a string nor a date or datetime. */
  function DateTypeMessage(value: Value): string
  {
    "Invalid date: " + "expected a string " + "or date/datetime " + "object, got " + TypeName(value) + "."
  }

  // ------------------------------------------------------------------ offsets

  /** `_VALID_TIMEDELTA_UNITS`, in sorted order. */
  const Units: seq<string> := ["days", "hours", "minutes", "seconds", "weeks"]

  /** The length of one unit of a `timedelta` keyword, in seconds. */
  function UnitSeconds(unit: string): int
  {
    if unit == "weeks" then 7 * DaySeconds
    else if unit == "days" then DaySeconds
    else if unit == "hours" then 3600
    else if unit == "minutes" then 60
    else 1
  }

  /** Python's `<` on strings: code point by code point, a proper prefix first. */
  predicate LexLess(a: string, b: string)
  {
    if a == [] then b != []
    else if b == [] then false
    else if a[0] != b[0] then a[0] < b[0]
    else LexLess(a[1..], b[1..])
  }

  lemma {:induction false} LexTotal(a: string, b: string)
    ensures a != b ==> LexLess(a, b) || LexLess(b, a)
    ensures !(LexLess(a, b) && LexLess(b, a))
  {
    if a != [] && b != [] && a[0] == b[0] {
      LexTotal(a[1..], b[1..]);
      assert a == [a[0]] + a[1..] && b == [b[0]] + b[1..];
    }
  }

  /** Each element precedes the next. */
  predicate Ascending(xs: seq<string>)
  {
    forall i :: 0 <= i < |xs| - 1 ==> LexLess(xs[i], xs[i + 1])
  }

  /** x added to a sorted sequence, unless it is already there. */
  function Insert(x: string, xs: seq<string>): (r: seq<string>)
    requires Ascending(xs)
    ensures Ascending(r) && Elems(r) == Elems(xs) + {x}
    ensures r != [] && (r[0] == x || (xs != [] && r[0] == xs[0]))
  {
    if xs == [] then [x]
    else if x == xs[0] then xs
    else if LexLess(x, xs[0]) then
      ConsAscending(x, xs);
      ConsElems(x, xs);
      [x] + xs
    else
      LexTotal(x, xs[0]);
      var rest := Insert(x, xs[1..]);
      InsertStep(x, xs, rest);
      [xs[0]] + rest
  }

  /** The recursive case of Insert: the head stays in front of the rest with x inserted. */
  lemma InsertStep(x: string, xs: seq<string>, rest: seq<string>)
    requires Ascending(xs) && xs != [] && LexLess(xs[0], x)
    requires Ascending(rest) && Elems(rest) == Elems(xs[1..]) + {x}
    requires rest != [] && (rest[0] == x || (xs[1..] != [] && rest[0] == xs[1..][0]))
    ensures Ascending([xs[0]] + rest) && Elems([xs[0]] + rest) == Elems(xs) + {x}
  {
    HeadBeforeRest(x, xs, rest[0]);
    ConsAscending(xs[0], rest);
    InsertStepElems(x, xs, rest);
  }

  lemma HeadBeforeRest(x: string, xs: seq<string>, y: string)
    requires Ascending(xs) && xs != [] && LexLess(xs[0], x)
    requires y == x || (xs[1..] != [] && y == xs[1..][0])
    ensures LexLess(xs[0], y)
  {
    if y != x {
      assert y == xs[1];
    }
  }

  lemma InsertStepElems(x: string, xs: seq<string>, rest: seq<string>)
    requires xs != [] && Elems(rest) == Elems(xs[1..]) + {x}
    ensures Elems([xs[0]] + rest) == Elems(xs) + {x}
  {
    var t := xs[1..];
    assert xs == [xs[0]] + t;
    ConsElems(xs[0], rest);
    ConsElems(xs[0], t);
  }

  /** The elements of a sequence with one string in front. */
  lemma ConsElems(a: string, r: seq<string>)
    ensures Elems([a] + r) == {a} + Elems(r)
  {
    assert ([a] + r)[1..] == r;
  }

  /** A string before the head of an ascending sequence keeps it ascending. */
  lemma ConsAscending(a: string, r: seq<string>)
    requires Ascending(r) && (r != [] ==> LexLess(a, r[0]))
    ensures Ascending([a] + r)
  {
    var s := [a] + r;
    forall i | 0 <= i < |s| - 1
      ensures LexLess(s[i], s[i + 1])
    {
      if i > 0 {
        assert s[i] == r[i - 1] && s[i + 1] == r[i];
      }
    }
  }

  /** `sorted(set(xs))`: the distinct strings of xs in ascending order. */
  function SortedSet(xs: seq<string>): (r: seq<string>)
    ensures Ascending(r) && Elems(r) == Elems(xs)
  {
    if xs == [] then []
    else
      var r := Insert(xs[|xs| - 1], SortedSet(xs[..|xs| - 1]));
      SnocElems(xs[..|xs| - 1], xs[|xs| - 1], xs);
      r
  }

  /** The elements of a sequence with one string at the end. */
  lemma SnocElems(init: seq<string>, a: string, xs: seq<string>)
    requires xs == init + [a]
    ensures Elems(xs) == Elems(init) + {a}
  {
    forall y | y in Elems(xs)
      ensures y in Elems(init) + {a}
    {
      assert y in xs;
    }
  }

  /** The keys of a dict, in order, that are not valid units. */
  function UnknownKeys(e: Entries): (ks: seq<string>)
    ensures forall k :: k in ks <==> k in KeySet(e) && k !in Units
  {
    if e == [] then []
    else (if e[0].0 in Units then [] else [e[0].0]) + UnknownKeys(e[1..])
  }

  /** The `units` dict the loop builds from e[..]: every value must be an int (or bool). */
  function DictUnits(e: Entries, keypath: KeyPath): Result<Entries>
  {
    if e == [] then Ok([])
    else
      match DictUnits(e[..|e| - 1], keypath)
      case Err(err) => Err(err)
      case Ok(units) =>
        var (k, v) := e[|e| - 1];
        if !IsPyInt(v) then
          Err(Resolution("Offset values must " + "be integers, got " + TypeName(v) + " for '" + k + "'.", keypath))
        else Ok(Put(units, k, v))
  }

  /** `timedelta(**units)` in seconds. */
  function TotalSeconds(units: Entries): int
  {
    if units == [] then 0
    else
      var (k, v) := units[|units| - 1];
      TotalSeconds(units[..|units| - 1]) + (if IsPyInt(v) then PyInt(v) else 0) * UnitSeconds(k)
  }

  /** `r"^(\d+)\s+(week|day|hour|minute|second)s?$"`, matched against one stripped part. */
  function OffsetPartPattern(): Pattern
  {
    Pattern([Repeat(Digit, 1, None, true), Repeat(Space, 1, None, true),
             Alt(["week", "day", "hour", "minute", "second"]), Repeat(OneOf("s"), 0, Some(1), true)], false)
  }

  /** The digits and unit word of a part matched by the offset-part pattern. */
  lemma OffsetPartShape(part: string, ends: seq<nat>)
    requires IsMatch(OffsetPartPattern(), 0, part, 0, ends)
    ensures |ends| == 4 && 0 < ends[0] < ends[1] < ends[2] <= ends[3] <= |part|
    ensures forall i :: 0 <= i < ends[0] ==> IsDigit(part[i])
    ensures forall i :: ends[0] <= i < ends[1] ==> IsSpace(part[i])
    ensures part[ends[1]..ends[2]] in ["week", "day", "hour", "minute", "second"]
    ensures part[ends[2]..ends[3]] in ["", "s"]
    ensures AtLineEnd(part, ends[3])
  {
    var p := OffsetPartPattern();
    assert IsMatch(p, 1, part, ends[0], ends[1..]);
    assert IsMatch(p, 2, part, ends[1], ends[2..]);
    assert IsMatch(p, 3, part, ends[2], ends[3..]);
    assert IsMatch(p, 4, part, ends[3], ends[4..]);
    var words := ["week", "day", "hour", "minute", "second"];
    assert Covers(Alt(words), false, part, ends[1], ends[2]);
    var j :| 0 <= j < |words| && LitAt(part, ends[1], words[j], false) && ends[2] == ends[1] + |words[j]|;
    assert part[ends[1]..ends[2]] == words[j];
    assert Covers(Repeat(OneOf("s"), 0, Some(1), true), false, part, ends[2], ends[3]);
    if ends[3] == ends[2] {
      assert part[ends[2]..ends[3]] == "";
    } else {
      assert InClass(part[ends[2]], OneOf("s"), false);
      assert part[ends[2]..ends[3]] == [part[ends[2]]] == "s";
    }
  }

  /** One part of a string offset: its `timedelta` keyword (the unit plus "s") and amount. */
  function PartUnit(part: string): Option<(string, nat)>
  {
    match Match(OffsetPartPattern(), part)
    case None => None
    case Some(ends) =>
      OffsetPartShape(part, ends);
      Some((part[ends[1]..ends[2]] + "s", ParseNat(part[..ends[0]])))
  }

  /** The `kwargs` the loop builds from the stripped parts parts[..]; None when one does not match. */
  function TextUnits(parts: seq<string>): Option<Entries>
  {
    if parts == [] then Some([])
    else
      match TextUnits(parts[..|parts| - 1])
      case None => None
      case Some(kwargs) =>
        match PartUnit(parts[|parts| - 1])
        case None => None
        case Some((unit, amount)) => Some(Put(kwargs, unit, Int(amount)))
  }

  /** The stripped comma-separated parts of a string offset. */
  function OffsetParts(value: string): (parts: seq<string>)
    ensures |parts| == |SplitOn(value, ',')|
  {
    var pieces := SplitOn(value, ',');
    seq(|pieces|, i requires 0 <= i < |pieces| => Strip(pieces[i]))
  }

  /** The message for unit names outside the valid ones, both lists sorted. */
  function UnknownUnitsMessage(unknown: seq<string>): string
  {
    "Unknown unit(s) in " + "'by': " + Join(SortedSet(unknown), ", ")
      + ". Valid units are: " + Join(Units, ", ") + "."
  }

  /** The message for an offset string with a part that names no amount and unit. */
  function BadOffsetMessage(s: string): string
  {
    "Cannot parse offset: '" + s + "'."
  }

  /** The message for a 'by' that is neither a string nor a dict. */
  function OffsetTypeMessage(value: Value): string
  {
    "'by' must be a " + "string or " + "dictionary, got " + TypeName(value) + "."
  }

  /** `_read_offset` as a specification: the offset in seconds. */
  function OffsetSpec(value: Value, keypath: KeyPath): Result<int>
  {
    match value
    case Dict(e) => DictOffset(e, keypath)
    case Str(s, _) => TextOffset(s, keypath)
    case _ => Err(Resolution(OffsetTypeMessage(value), keypath))
  }

  /** A dict offset: only unit names as keys, each with an int amount. */
  function DictOffset(e: Entries, keypath: KeyPath): Result<int>
  {
    var unknown := UnknownKeys(e);
    if unknown != [] then
      Err(Resolution(UnknownUnitsMessage(unknown), keypath))
    else
      match DictUnits(e, keypath)
      case Err(err) => Err(err)
      case Ok(units) => Ok(TotalSeconds(units))
  }

  /** A text offset: every part an amount followed by a unit. */
  function TextOffset(s: string, keypath: KeyPath): Result<int>
  {
    match TextUnits(OffsetParts(s))
    case None => Err(Resolution(BadOffsetMessage(s), keypath))
    case Some(kwargs) => Ok(TotalSeconds(kwargs))
  }

  /** The dict branch's loop: each value must be an int, and is recorded under its key. */
  method CopyUnits(e: Entries, keypath: KeyPath) returns (r: Result<Entries>)
    ensures r == DictUnits(e, keypath)
  {
    var units: Entries := [];
    var i := 0;
    while i < |e|
      invariant 0 <= i <= |e|
      invariant DictUnits(e[..i], keypath) == Ok(units)
    {
      assert e[..i + 1][..i] == e[..i];
      var (k, v) := e[i];
      if !IsPyInt(v) {
        DictUnitsPrefixErr(e, i + 1, keypath);
        return Err(Resolution("Offset values must " + "be integers, got " + TypeName(v) + " for '" + k + "'.", keypath));
      }
      units := Put(units, k, v);
      i := i + 1;
    }
    assert e[..i] == e;
    r := Ok(units);
  }

  /** The string branch's loop: each part must match, and its amount is recorded under its unit. */
  method CollectUnits(parts: seq<string>) returns (r: Option<Entries>)
    ensures r == TextUnits(parts)
  {
    var kwargs: Entries := [];
    var i := 0;
    while i < |parts|
      invariant 0 <= i <= |parts|
      invariant TextUnits(parts[..i]) == Some(kwargs)
    {
      assert parts[..i + 1][..i] == parts[..i];
      var unit := PartUnit(parts[i]);
      if unit.None? {
        TextUnitsPrefixNone(parts, i + 1);
        return None;
      }
      kwargs := Put(kwargs, unit.value.0, Int(unit.value.1));
      i := i + 1;
    }
    assert parts[..i] == parts;
    r := Some(kwargs);
  }

  /**
   * `_read_offset` as written: the dict branch checks the keys, then copies
   * the values one by one; the string branch matches each stripped part and
   * records its amount under its unit.
   */
  method ReadOffset(value: Value, keypath: KeyPath) returns (r: Result<int>)
    ensures r == OffsetSpec(value, keypath)
  {
    match value {
      case Dict(e) =>
        r := ReadDictOffset(e, keypath);
      case Str(s, _) =>
        r := ReadTextOffset(s, keypath);
      case _ =>
        r := Err(Resolution(OffsetTypeMessage(value), keypath));
    }
  }

  /** The dict branch of `_read_offset`. */
  method ReadDictOffset(e: Entries, keypath: KeyPath) returns (r: Result<int>)
    ensures r == DictOffset(e, keypath)
  {
    var unknown := UnknownKeys(e);
    if unknown != [] {
      return Err(Resolution(UnknownUnitsMessage(unknown), keypath));
    }
    var units := CopyUnits(e, keypath);
    if units.Err? {
      return Err(units.error);
    }
    r := Ok(TotalSeconds(units.value));
  }

  /** The string branch of `_read_offset`. */
  method ReadTextOffset(s: string, keypath: KeyPath) returns (r: Result<int>)
    ensures r == TextOffset(s, keypath)
  {
    var kwargs := CollectUnits(OffsetParts(s));
    if kwargs.None? {
      return Err(Resolution(BadOffsetMessage(s), keypath));
    }
    r := Ok(TotalSeconds(kwargs.value));
  }

  lemma {:induction false} DictUnitsPrefixErr(e: Entries, n: nat, keypath: KeyPath)
    requires n <= |e|
    requires DictUnits(e[..n], keypath).Err?
    ensures DictUnits(e, keypath) == DictUnits(e[..n], keypath)
    decreases |e| - n
  {
    if n < |e| {
      assert e[..|e| - 1][..n] == e[..n];
      DictUnitsPrefixErr(e[..|e| - 1], n, keypath);
    } else {
      assert e[..n] == e;
    }
  }

  lemma {:induction false} TextUnitsPrefixNone(parts: seq<string>, n: nat)
    requires n <= |parts|
    requires TextUnits(parts[..n]).None?
    ensures TextUnits(parts).None?
    decreases |parts| - n
  {
    if n < |parts| {
      assert parts[..|parts| - 1][..n] == parts[..n];
      TextUnitsPrefixNone(parts[..|parts| - 1], n);
    } else {
      assert parts[..n] == parts;
    }
  }

  /** The amount of the last part naming `unit` (the keyword, with its "s"). */
  function LastAmount(parts: seq<string>, unit: string): Option<Value>
  {
    if parts == [] then None
    else
      var last := PartUnit(parts[|parts| - 1]);
      if last.Some? && last.value.0 == unit then Some(Int(last.value.1))
      else LastAmount(parts[..|parts| - 1], unit)
  }

  /** A repeated unit overwrites the earlier one: each keyword holds the amount of the last part naming it. */
  lemma {:induction false} TextUnitsLast(parts: seq<string>, unit: string)
    requires TextUnits(parts).Some?
    ensures Get(TextUnits(parts).value, unit) == LastAmount(parts, unit)
  {
    if parts != [] {
      TextUnitsLast(parts[..|parts| - 1], unit);
    }
  }

  /** part starts with d > 0 digits, followed by whitespace. */
  predicate DigitRun(part: string, d: nat)
  {
    0 < d < |part| && IsSpace(part[d]) && forall i :: 0 <= i < d ==> IsDigit(part[i])
  }

  /**
   * An accepted part names one of the valid units, and its amount is the
   * number its leading digits spell.
   */
  lemma PartUnitSound(part: string)
    requires PartUnit(part).Some?
    ensures PartUnit(part).value.0 in Units
    ensures exists d: nat :: DigitRun(part, d) && PartUnit(part).value.1 == ParseNat(part[..d])
  {
    var ends := Match(OffsetPartPattern(), part).value;
    OffsetPartShape(part, ends);
    WordUnit(part[ends[1]..ends[2]]);
    assert DigitRun(part, ends[0]);
  }

  lemma WordUnit(word: string)
    requires word in ["week", "day", "hour", "minute", "second"]
    ensures word + "s" in Units
  {
    if word == "week" { assert word + "s" == Units[4]; }
    else if word == "day" { assert word + "s" == Units[0]; }
    else if word == "hour" { assert word + "s" == Units[1]; }
    else if word == "minute" { assert word + "s" == Units[2]; }
    else { assert word + "s" == Units[3]; }
  }

  /** A dict offset with only valid units has every value an int: the total weighs each by its unit. */
  lemma DictUnitsKeys(e: Entries, keypath: KeyPath)
    requires DictUnits(e, keypath).Ok?
    ensures KeySet(DictUnits(e, keypath).value) == KeySet(e)
    ensures forall i :: 0 <= i < |e| ==> IsPyInt(e[i].1)
  {
    if e != [] {
      var n := |e| - 1;
      DictUnitsKeys(e[..n], keypath);
      KeySetSnoc(e[..n], e[n]);
      assert e == e[..n] + [e[n]];
      assert forall i :: 0 <= i < n ==> e[..n][i] == e[i];
    }
  }

  lemma KeySetSnoc(e: Entries, x: (string, Value))
    ensures KeySet(e + [x]) == KeySet(e) + {x.0}
  {
    forall k ensures k in KeySet(e + [x]) <==> k in KeySet(e) + {x.0} {
      KeySetIndex(e + [x], k);
      KeySetIndex(e, k);
      if k != x.0 && k in KeySet(e + [x]) {
        var i :| 0 <= i < |e| + 1 && (e + [x])[i].0 == k;
        assert e[i].0 == k;
      }
      if k in KeySet(e) {
        var i :| 0 <= i < |e| && e[i].0 == k;
        assert (e + [x])[i].0 == k;
      }
      if k == x.0 {
        assert (e + [x])[|e|].0 == k;
      }
    }
  }

  // ----------------------------------------------------------------- weekdays

  /** `_get_day_of_the_week`. */
  function DayOfTheWeek(v: Value, keypath: KeyPath): (r: Result<Weekday>)
    ensures r.Ok? <==> v.Str? && DayIndex(v.s).Some?
    ensures r.Ok? ==> r.value == DayIndex(v.s).value
  {
    if !v.Str? then Err(Resolution(DayTypeMessage(v), keypath))
    else match DayIndex(v.s)
      case None => Err(Resolution(BadDayMessage(v.s), keypath))
      case Some(w) => Ok(w)
  }

  /** The message for a day that is not a string. */
  function DayTypeMessage(v: Value): string
  {
    "Expected a day name " + "string, got " + TypeName(v) + "."
  }

  /** The message for a string that names no day. */
  function BadDayMessage(s: string): string
  {
    "Invalid day of week: '" + s + "'."
  }

  /** The set comprehension `{_get_day_of_the_week(d) for d in names}`: the first bad name fails it. */
  function WeekdaysOf(names: seq<Value>, keypath: KeyPath): Result<set<Weekday>>
  {
    if names == [] then Ok({})
    else
      match WeekdaysOf(names[..|names| - 1], keypath)
      case Err(e) => Err(e)
      case Ok(ws) =>
        match DayOfTheWeek(names[|names| - 1], keypath)
        case Err(e) => Err(e)
        case Ok(w) => Ok(ws + {w})
  }

  /** The set is built exactly when every name is a day name. */
  lemma {:induction false} WeekdaysOfOk(names: seq<Value>, keypath: KeyPath)
    ensures WeekdaysOf(names, keypath).Ok? <==> AllDays(names, keypath)
  {
    if names != [] {
      var n := |names| - 1;
      WeekdaysOfOk(names[..n], keypath);
      WeekdaysOfLast(names, keypath);
      AllDaysLast(names, keypath);
    }
  }

  /** Every name is a day name. */
  predicate AllDays(names: seq<Value>, keypath: KeyPath)
  {
    forall i :: 0 <= i < |names| ==> DayOfTheWeek(names[i], keypath).Ok?
  }

  lemma WeekdaysOfLast(names: seq<Value>, keypath: KeyPath)
    requires names != []
    ensures WeekdaysOf(names, keypath).Ok? <==>
      WeekdaysOf(names[..|names| - 1], keypath).Ok? && DayOfTheWeek(names[|names| - 1], keypath).Ok?
  {
  }

  lemma AllDaysLast(names: seq<Value>, keypath: KeyPath)
    requires names != []
    ensures AllDays(names, keypath) <==>
      AllDays(names[..|names| - 1], keypath) && DayOfTheWeek(names[|names| - 1], keypath).Ok?
  {
    var init := names[..|names| - 1];
    if AllDays(names, keypath) {
      forall i | 0 <= i < |init|
        ensures DayOfTheWeek(init[i], keypath).Ok?
      {
        assert init[i] == names[i];
      }
    }
    if AllDays(init, keypath) && DayOfTheWeek(names[|names| - 1], keypath).Ok? {
      forall i | 0 <= i < |names|
        ensures DayOfTheWeek(names[i], keypath).Ok?
      {
        if i < |init| {
          assert init[i] == names[i];
        }
      }
    }
  }

  /** Name i of names is a day name for weekday w. */
  predicate Names(names: seq<Value>, keypath: KeyPath, i: nat, w: Weekday)
  {
    i < |names| && DayOfTheWeek(names[i], keypath) == Ok(w)
  }

  /** The set holds exactly the weekdays of the names. */
  lemma {:induction false} WeekdaysOfMembers(names: seq<Value>, keypath: KeyPath, w: Weekday)
    requires WeekdaysOf(names, keypath).Ok?
    ensures w in WeekdaysOf(names, keypath).value <==> exists i: nat :: Names(names, keypath, i, w)
  {
    if names != [] {
      var n := |names| - 1;
      WeekdaysOfLast(names, keypath);
      WeekdaysOfMembers(names[..n], keypath, w);
      WeekdaysOfLastValue(names, keypath);
      NamesLast(names, names[..n], keypath, w);
    }
  }

  lemma WeekdaysOfLastValue(names: seq<Value>, keypath: KeyPath)
    requires names != [] && WeekdaysOf(names, keypath).Ok?
    ensures WeekdaysOf(names[..|names| - 1], keypath).Ok?
    ensures DayOfTheWeek(names[|names| - 1], keypath).Ok?
    ensures WeekdaysOf(names, keypath).value ==
      WeekdaysOf(names[..|names| - 1], keypath).value + {DayOfTheWeek(names[|names| - 1], keypath).value}
  {
  }

  lemma NamesLast(names: seq<Value>, init: seq<Value>, keypath: KeyPath, w: Weekday)
    requires names != [] && init == names[..|names| - 1]
    ensures (exists i: nat :: Names(names, keypath, i, w)) <==>
      (exists i: nat :: Names(init, keypath, i, w)) || DayOfTheWeek(names[|names| - 1], keypath) == Ok(w)
  {
    var n := |names| - 1;
    if exists i: nat :: Names(names, keypath, i, w) {
      var i: nat :| Names(names, keypath, i, w);
      if i < n {
        assert init[i] == names[i];
        assert Names(init, keypath, i, w);
      }
    }
    if exists i: nat :: Names(init, keypath, i, w) {
      var i: nat :| Names(init, keypath, i, w);
      assert init[i] == names[i];
      assert Names(names, keypath, i, w);
    }
    if DayOfTheWeek(names[n], keypath) == Ok(w) {
      assert Names(names, keypath, n, w);
    }
  }

  /** The text strings of parts, as values. */
  function Texts(parts: seq<string>): (vs: seq<Value>)
    ensures |vs| == |parts| && forall i :: 0 <= i < |parts| ==> vs[i] == Text(parts[i])
  {
    seq(|parts|, i requires 0 <= i < |parts| => Text(parts[i]))
  }

  /** `_parse_weekdays`: "," and " or " become spaces, then the words are day names. */
  function ParseWeekdays(raw: string, keypath: KeyPath): Result<set<Weekday>>
  {
    var normalized := ReplaceAll(ReplaceAll(raw, ",", " "), " or ", " ");
    WeekdaysOf(Texts(SplitWhitespace(normalized)), keypath)
  }

  /** A text with no words in it, such as ",", names no weekday at all. */
  lemma ParseWeekdaysComma(keypath: KeyPath)
    ensures ParseWeekdays(",", keypath) == Ok({})
  {
    assert ReplaceAll(",", ",", " ") == " ";
    assert ReplaceAll(" ", " or ", " ") == " ";
    assert TrimStart(" ") == [];
    assert SplitWhitespace(" ") == [];
  }

  // ------------------------------------------------------------- time and skip

  /** `_parse_and_remove_time`, with "Invalid time in '<s>'." for an impossible time. */
  function ParseAndRemoveTime(s: string, keypath: KeyPath): Result<(string, Option<Clock>)>
  {
    match RemoveTime(s)
    case None => Err(Resolution("Invalid time in '" + s + "'.", keypath))
    case Some(pair) => Ok(pair)
  }

  /** The dates of `_read_skip_dates` for items[..]. */
  function SkipDates(iso: Iso, items: seq<Value>, keypath: KeyPath): Result<set<int>>
  {
    if items == [] then Ok({})
    else
      match SkipDates(iso, items[..|items| - 1], keypath)
      case Err(e) => Err(e)
      case Ok(days) =>
        match ReadDateTime(iso, items[|items| - 1], keypath)
        case Err(e) => Err(e)
        case Ok(t) => Ok(days + {DateOf(t)})
  }

  /** `_read_skip_dates`. */
  function ReadSkipDates(iso: Iso, value: Value, keypath: KeyPath): Result<set<int>>
  {
    if !value.List? then Err(Resolution("'skip' must be a " + "list of dates.", keypath))
    else SkipDates(iso, value.items, keypath)
  }

  /** Every item of a skip list contributes its date. */
  lemma {:induction false} SkipDatesSpec(iso: Iso, items: seq<Value>, keypath: KeyPath)
    ensures SkipDates(iso, items, keypath).Ok? ==>
      forall d :: d in SkipDates(iso, items, keypath).value <==>
        exists i :: 0 <= i < |items| && ReadDateTime(iso, items[i], keypath).Ok?
                 && DateOf(ReadDateTime(iso, items[i], keypath).value) == d
  {
    if items != [] {
      var n := |items| - 1;
      SkipDatesSpec(iso, items[..n], keypath);
      assert forall i :: 0 <= i < n ==> items[..n][i] == items[i];
    }
  }

  const ExhaustedMessage: string := "Could not find a " + "valid date: all " + "candidates are " + "excluded."

  // ----------------------------------------------------------------------- at

  /** `at`: the date (or datetime) of "date" at the ISO time of "time". */
  function At(args: Args, iso: Iso): (r: Result<Value>)
    ensures !args.input.Dict? ==> r == Err(Resolution("Input to 'at' must " + "be a dictionary.", args.keypath))
    ensures args.input.Dict? && !Has(args.input, "date") ==>
      r == Err(Resolution("Input to 'at' must " + "contain 'date'.", args.keypath))
    ensures Has(args.input, "date") && !Has(args.input, "time") ==>
      r == Err(Resolution("Input to 'at' must " + "contain 'time'.", args.keypath))
    ensures Has(args.input, "date") && Has(args.input, "time") ==>
      var ref := ReadDateTime(iso, Lookup(args.input, "date").value, args.keypath);
      var raw := Lookup(args.input, "time").value;
      && (ref.Err? ==> r == Err(ref.error))
      && (ref.Ok? && !raw.Str? ==>
            r == Err(Resolution("'time' must be a " + "string, got " + TypeName(raw) + ".", args.keypath)))
      && (ref.Ok? && raw.Str? && iso.time(raw.s).None? ==>
            r == Err(Resolution("Invalid time: '" + raw.s + "'.", args.keypath)))
      && (ref.Ok? && raw.Str? && iso.time(raw.s).Some? ==> r.Ok?)
    ensures r.Ok? ==>
      && Has(args.input, "date") && Has(args.input, "time")
      && Lookup(args.input, "time").value.Str?
      && var t := iso.time(Lookup(args.input, "time").value.s);
         var ref := ReadDateTime(iso, Lookup(args.input, "date").value, args.keypath);
         t.Some? && ref.Ok? && r.value.DateTime?
         && DateOf(r.value.sec) == DateOf(ref.value) && TimeOfDay(r.value.sec) == t.value
  {
    var input := args.input;
    if !input.Dict? then Err(Resolution("Input to 'at' must " + "be a dictionary.", args.keypath))
    else if !Has(input, "date") then Err(Resolution("Input to 'at' must " + "contain 'date'.", args.keypath))
    else if !Has(input, "time") then Err(Resolution("Input to 'at' must " + "contain 'time'.", args.keypath))
    else
      match ReadDateTime(iso, Lookup(input, "date").value, args.keypath)
      case Err(e) => Err(e)
      case Ok(reference) =>
        var rawTime := Lookup(input, "time").value;
        if !rawTime.Str? then
          Err(Resolution("'time' must be a " + "string, got " + TypeName(rawTime) + ".", args.keypath))
        else
          match iso.time(rawTime.s)
          case None => Err(Resolution("Invalid time: '" + rawTime.s + "'.", args.keypath))
          case Some(time) =>
            CombineParts(DateOf(reference), time);
            Ok(DateTime(AtTime(reference, time)))
  }

  // ------------------------------------------------------------------- offset

  /** The direction checks of `offset` and `first`: exactly one of "before" and "after". */
  function CheckDirection(input: Value, name: string, keypath: KeyPath): (o: Outcome)
    requires input.Dict?
    ensures o == Pass <==> Has(input, "before") != Has(input, "after")
  {
    var hasBefore := Has(input, "before");
    var hasAfter := Has(input, "after");
    if !hasBefore && !hasAfter then
      Fail(Resolution("Input to '" + name + "' must contain " + "either 'before' or " + "'after'.", keypath))
    else if hasBefore && hasAfter then
      Fail(Resolution("Input to '" + name + "' must not contain " + "both 'before' and " + "'after'.", keypath))
    else Pass
  }

  /** The skip dates of an input dict; none when "skip" is absent. */
  function InputSkip(iso: Iso, input: Value, keypath: KeyPath): Result<set<int>>
    requires input.Dict?
  {
    if Has(input, "skip") then ReadSkipDates(iso, Lookup(input, "skip").value, keypath) else Ok({})
  }

  /** The skip step of the result, or the error once the retries are exhausted. */
  function Skipped(t: int, skip: set<int>, step: Step, keypath: KeyPath): Result<Value>
    requires StepOk(step)
  {
    if skip == {} then Ok(DateTime(t))
    else match SkipFrom(t, skip, step, 0)
      case None => Err(Resolution(ExhaustedMessage, keypath))
      case Some(u) => Ok(DateTime(u))
  }

  /** What an `offset` input asks for, once checked: the skipped dates, the reference, the direction and the offset. */
  datatype OffsetRequest = OffsetRequest(skip: set<int>, reference: int, before: bool, offset: Value)

  /** The checks and reads of `offset` before the offset itself is read, in the source's order. */
  function OffsetInputs(args: Args, iso: Iso): Result<OffsetRequest>
  {
    var input := args.input;
    if !input.Dict? then Err(Resolution("Input to 'offset' " + "must be a " + "dictionary.", args.keypath))
    else match CheckDirection(input, "offset", args.keypath)
      case Fail(e) => Err(e)
      case Pass =>
        if !Has(input, "by") then Err(Resolution("Input to 'offset' " + "must contain 'by'.", args.keypath))
        else match InputSkip(iso, input, args.keypath)
          case Err(e) => Err(e)
          case Ok(skip) =>
            var before := Has(input, "before");
            match ReadDateTime(iso, Lookup(input, if before then "before" else "after").value, args.keypath)
            case Err(e) => Err(e)
            case Ok(reference) => Ok(OffsetRequest(skip, reference, before, Lookup(input, "by").value))
  }

  /** The reference moved back (before) or forward (after) by delta seconds. */
  function Shift(reference: int, delta: int, before: bool): int
  {
    if before then reference - delta else reference + delta
  }

  /** `offset` as a specification. */
  function OffsetFunctionSpec(args: Args, iso: Iso): Result<Value>
  {
    match OffsetInputs(args, iso)
    case Err(e) => Err(e)
    case Ok(q) =>
      match OffsetSpec(q.offset, args.keypath)
      case Err(e) => Err(e)
      case Ok(delta) => Skipped(Shift(q.reference, delta, q.before), q.skip, DayStep(q.before), args.keypath)
  }

  /**
   * `offset`: the reference moved back or forward by the offset, then moved
   * a day at a time in the same direction past the skipped dates.
   */
  method Offset(args: Args, iso: Iso) returns (r: Result<Value>)
    ensures r == OffsetFunctionSpec(args, iso)
  {
    var q := OffsetInputs(args, iso);
    if q.Err? {
      return Err(q.error);
    }
    var delta := ReadOffset(q.value.offset, args.keypath);
    if delta.Err? {
      return Err(delta.error);
    }
    var result := Shift(q.value.reference, delta.value, q.value.before);
    if q.value.skip != {} {
      var skipped := SkipExcluded(result, q.value.skip, DayStep(q.value.before));
      if skipped.None? {
        return Err(Resolution(ExhaustedMessage, args.keypath));
      }
      result := skipped.value;
    }
    r := Ok(DateTime(result));
  }

  /** `offset` reads exactly one of "before" and "after", and requires "by". */
  lemma OffsetInputsSpec(args: Args, iso: Iso)
    ensures OffsetInputs(args, iso).Ok? ==>
      && args.input.Dict? && Has(args.input, "by")
      && Has(args.input, "before") != Has(args.input, "after")
      && OffsetInputs(args, iso).value.before == Has(args.input, "before")
  {
  }

  /**
   * Without skipped dates the result is exactly the reference minus (before)
   * or plus (after) the offset; with them it is a date that is not skipped,
   * at the same time of day.
   */
  lemma OffsetResult(args: Args, iso: Iso)
    requires OffsetFunctionSpec(args, iso).Ok?
    ensures var q := OffsetInputs(args, iso).value;
      var t := Shift(q.reference, OffsetSpec(q.offset, args.keypath).value, q.before);
      var r := OffsetFunctionSpec(args, iso).value;
      && r.DateTime?
      && (q.skip == {} ==> r.sec == t)
      && DateOf(r.sec) !in q.skip
      && TimeOfDay(r.sec) == TimeOfDay(t)
  {
    var q := OffsetInputs(args, iso).value;
    var t := Shift(q.reference, OffsetSpec(q.offset, args.keypath).value, q.before);
    SkipFromSpec(t, q.skip, DayStep(q.before), 0);
  }

  // -------------------------------------------------------------------- first

  /**
   * The message for an empty weekday set. The source has no such check: its
   * search loop never ends on an empty set (see `Calendar.SearchLoopEmpty`).
   */
  const NoWeekdayMessage: string := "Expected at least " + "one day of the week."

  /** The weekday set of "weekday": a string of names or a list of them. */
  function InputWeekdays(raw: Value, keypath: KeyPath): Result<set<Weekday>>
  {
    if raw.Str? then ParseWeekdays(raw.s, keypath)
    else if raw.List? then WeekdaysOf(raw.items, keypath)
    else Err(Resolution("The 'weekday' key " + "must be a string or " + "list of strings.", keypath))
  }

  /** `first` as a specification, with an empty weekday set reported instead of searched for. */
  function FirstSpec(args: Args, iso: Iso): Result<Value>
  {
    var input := args.input;
    if !input.Dict? then Err(Resolution("Input to 'first' " + "must be a " + "dictionary.", args.keypath))
    else if !Has(input, "weekday") then Err(Resolution("Input to 'first' " + "must contain " + "'weekday'.", args.keypath))
    else match CheckDirection(input, "first", args.keypath)
      case Fail(e) => Err(e)
      case Pass =>
        match InputWeekdays(Lookup(input, "weekday").value, args.keypath)
        case Err(e) => Err(e)
        case Ok(weekdays) =>
          match InputSkip(iso, input, args.keypath)
          case Err(e) => Err(e)
          case Ok(skip) =>
            var before := Has(input, "before");
            match ReadDateTime(iso, Lookup(input, if before then "before" else "after").value, args.keypath)
            case Err(e) => Err(e)
            case Ok(reference) =>
              if weekdays == {} then Err(Resolution(NoWeekdayMessage, args.keypath))
              else Skipped(FirstWeekday(reference, weekdays, before), skip, WeekdayStep(weekdays, before), args.keypath)
  }

  /**
   * `first`: the nearest date of one of the weekdays strictly after (or
   * before) the reference, then the next such dates past the skipped ones.
   */
  method First(args: Args, iso: Iso) returns (r: Result<Value>)
    ensures r == FirstSpec(args, iso)
  {
    var input := args.input;
    if !input.Dict? {
      return Err(Resolution("Input to 'first' " + "must be a " + "dictionary.", args.keypath));
    }
    if !Has(input, "weekday") {
      return Err(Resolution("Input to 'first' " + "must contain " + "'weekday'.", args.keypath));
    }
    var direction := CheckDirection(input, "first", args.keypath);
    if direction.Fail? {
      return Err(direction.error);
    }
    var weekdays := InputWeekdays(Lookup(input, "weekday").value, args.keypath);
    if weekdays.Err? {
      return Err(weekdays.error);
    }
    var skip := InputSkip(iso, input, args.keypath);
    if skip.Err? {
      return Err(skip.error);
    }
    var before := Has(input, "before");
    var reference := ReadDateTime(iso, Lookup(input, if before then "before" else "after").value, args.keypath);
    if reference.Err? {
      return Err(reference.error);
    }
    if weekdays.value == {} {
      return Err(Resolution(NoWeekdayMessage, args.keypath));
    }
    var result := FindFirstWeekday(reference.value, weekdays.value, before);
    if skip.value != {} {
      var skipped := SkipExcluded(result, skip.value, WeekdayStep(weekdays.value, before));
      if skipped.None? {
        return Err(Resolution(ExhaustedMessage, args.keypath));
      }
      result := skipped.value;
    }
    r := Ok(DateTime(result));
  }

  /**
   * The result of `first` falls on one of the requested weekdays, keeps the
   * reference's time of day and is not a skipped date; without skipped dates
   * it is the nearest such day.
   */
  lemma FirstResult(args: Args, iso: Iso)
    requires FirstSpec(args, iso).Ok?
    ensures var input := args.input;
      var before := Has(input, "before");
      var weekdays := InputWeekdays(Lookup(input, "weekday").value, args.keypath).value;
      var reference := ReadDateTime(iso, Lookup(input, if before then "before" else "after").value, args.keypath).value;
      var r := FirstSpec(args, iso).value;
      && r.DateTime?
      && WeekdayOf(DateOf(r.sec)) in weekdays
      && TimeOfDay(r.sec) == TimeOfDay(reference)
      && DateOf(r.sec) !in InputSkip(iso, input, args.keypath).value
      && (InputSkip(iso, input, args.keypath) == Ok({}) ==> r.sec == FirstWeekday(reference, weekdays, before))
  {
    var input := args.input;
    var before := Has(input, "before");
    var weekdays := InputWeekdays(Lookup(input, "weekday").value, args.keypath).value;
    var reference := ReadDateTime(iso, Lookup(input, if before then "before" else "after").value, args.keypath).value;
    var skip := InputSkip(iso, input, args.keypath).value;
    var t := FirstWeekday(reference, weekdays, before);
    FirstWeekdaySpec(reference, weekdays, before);
    SkipFromSpec(t, skip, WeekdayStep(weekdays, before), 0);
    SkipWeekdays(t, skip, weekdays, before, 0);
  }

  /** Every candidate of a weekday skip falls on one of the weekdays. */
  lemma {:induction false} SkipWeekdays(t: int, skip: set<int>, weekdays: set<Weekday>, before: bool, retries: nat)
    requires weekdays != {} && retries <= MaxSkipRetries
    requires WeekdayOf(DateOf(t)) in weekdays
    ensures var r := SkipFrom(t, skip, WeekdayStep(weekdays, before), retries);
      r.Some? ==> WeekdayOf(DateOf(r.value)) in weekdays
    decreases MaxSkipRetries - retries
  {
    if DateOf(t) in skip && retries + 1 <= MaxSkipRetries {
      FirstWeekdaySpec(t, weekdays, before);
      SkipWeekdays(FirstWeekday(t, weekdays, before), skip, weekdays, before, retries + 1);
    }
  }

  // -------------------------------------------------------------------- parse

  /** `r"^first\s+(.+?)\s+(after|before)\s+(.+)$"` with `re.IGNORECASE`; groups are items 2, 4 and 6. */
  function FirstWeekdayPattern(): Pattern
  {
    Pattern([Lit("first"), Repeat(Space, 1, None, true), Repeat(NotNewline, 1, None, false),
             Repeat(Space, 1, None, true), Alt(["after", "before"]), Repeat(Space, 1, None, true),
             Repeat(NotNewline, 1, None, true)], true)
  }

  /** `r"^(.+?)\s+(after|before)\s+(.+)$"` with `re.IGNORECASE`; groups are items 0, 2 and 4. */
  function OffsetPattern(): Pattern
  {
    Pattern([Repeat(NotNewline, 1, None, false), Repeat(Space, 1, None, true), Alt(["after", "before"]),
             Repeat(Space, 1, None, true), Repeat(NotNewline, 1, None, true)], true)
  }

  /** What a first-weekday text asks for: the weekdays, the reference and the direction. */
  datatype WeekdayQuery = WeekdayQuery(weekdays: set<Weekday>, reference: int, before: bool)

  /** `_try_parse_first_weekday` up to its search: None when the pattern does not match. */
  function FirstWeekdayQuery(iso: Iso, s: string, keypath: KeyPath): Option<Result<WeekdayQuery>>
  {
    match Match(FirstWeekdayPattern(), s)
    case None => None
    case Some(ends) =>
      match ParseWeekdays(Group(s, 0, ends, 2), keypath)
      case Err(e) => Some(Err(e))
      case Ok(weekdays) =>
        match ReadDateTime(iso, Text(Strip(Group(s, 0, ends, 6))), keypath)
        case Err(e) => Some(Err(e))
        case Ok(reference) => Some(Ok(WeekdayQuery(weekdays, reference, Lower(Group(s, 0, ends, 4)) == "before")))
  }

  /** `_try_read_offset`. */
  function TryOffset(iso: Iso, s: string, keypath: KeyPath): Attempt
  {
    match Match(OffsetPattern(), s)
    case None => NoMatch
    case Some(ends) =>
      match OffsetSpec(Text(Strip(Group(s, 0, ends, 0))), keypath)
      case Err(e) => Failed(e)
      case Ok(delta) =>
        match ReadDateTime(iso, Text(Strip(Group(s, 0, ends, 4))), keypath)
        case Err(e) => Failed(e)
        case Ok(reference) =>
          Found(if Lower(Group(s, 0, ends, 2)) == "before" then reference - delta else reference + delta)
  }

  /** `_try_parse_iso`. */
  function TryIso(iso: Iso, s: string): Attempt
  {
    match iso.dateTime(Strip(s))
    case None => NoMatch
    case Some(t) => Found(t)
  }

  /** Attempt k of the parsers list, with an empty weekday set reported instead of searched for. */
  function AttemptSpec(iso: Iso, s: string, keypath: KeyPath, k: nat): Attempt
  {
    if k == 0 then
      match FirstWeekdayQuery(iso, s, keypath)
      case None => NoMatch
      case Some(Err(e)) => Failed(e)
      case Some(Ok(q)) =>
        if q.weekdays == {} then Failed(Resolution(NoWeekdayMessage, keypath))
        else Found(FirstWeekday(q.reference, q.weekdays, q.before))
    else if k == 1 then TryOffset(iso, s, keypath)
    else TryIso(iso, s)
  }

  /** The first attempt from k on that does not report NoMatch. */
  function FirstAttempt(iso: Iso, s: string, keypath: KeyPath, k: nat): Attempt
    requires k <= 3
    decreases 3 - k
  {
    if k == 3 then NoMatch
    else
      var a := AttemptSpec(iso, s, keypath, k);
      if a.NoMatch? then FirstAttempt(iso, s, keypath, k + 1) else a
  }

  /** `parse` as a specification. */
  function ParseSpec(args: Args, iso: Iso): Result<Value>
  {
    if !args.input.Str? then Err(Resolution("Input to 'parse' " + "must be a string.", args.keypath))
    else match ParseAndRemoveTime(args.input.s, args.keypath)
      case Err(e) => Err(e)
      case Ok((s, time)) =>
        match FirstAttempt(iso, s, args.keypath, 0)
        case NoMatch => Err(Resolution("Cannot parse date: '" + args.input.s + "'.", args.keypath))
        case Failed(e) => Err(e)
        case Found(t) => Ok(DateTime(ApplyTime(t, time)))
  }

  /** One attempt as the source runs it, searching for the weekday with the loop. */
  method RunAttempt(iso: Iso, s: string, keypath: KeyPath, k: nat) returns (a: Attempt)
    ensures a == AttemptSpec(iso, s, keypath, k)
  {
    if k == 0 {
      var q := FirstWeekdayQuery(iso, s, keypath);
      if q.None? {
        return NoMatch;
      }
      if q.value.Err? {
        return Failed(q.value.error);
      }
      var query := q.value.value;
      if query.weekdays == {} {
        return Failed(Resolution(NoWeekdayMessage, keypath));
      }
      var t := FindFirstWeekday(query.reference, query.weekdays, query.before);
      return Found(t);
    }
    a := if k == 1 then TryOffset(iso, s, keypath) else TryIso(iso, s);
  }

  /**
   * `parse`: strip the time suffix, try the first-weekday form, the offset
   * form and plain ISO in turn, keep the first that matches, and apply the
   * time override last.
   */
  method Parse(args: Args, iso: Iso) returns (r: Result<Value>)
    ensures r == ParseSpec(args, iso)
  {
    if !args.input.Str? {
      return Err(Resolution("Input to 'parse' " + "must be a string.", args.keypath));
    }
    var removed := ParseAndRemoveTime(args.input.s, args.keypath);
    if removed.Err? {
      return Err(removed.error);
    }
    var (s, time) := removed.value;
    var k := 0;
    var outcome := NoMatch;
    while k < 3 && outcome.NoMatch?
      invariant 0 <= k <= 3
      invariant FirstAttempt(iso, s, args.keypath, 0)
        == if outcome.NoMatch? then FirstAttempt(iso, s, args.keypath, k) else outcome
      decreases 3 - k
    {
      outcome := RunAttempt(iso, s, args.keypath, k);
      k := k + 1;
    }
    match outcome
    case NoMatch => r := Err(Resolution("Cannot parse date: '" + args.input.s + "'.", args.keypath));
    case Failed(e) => r := Err(e);
    case Found(t) => r := Ok(DateTime(ApplyTime(t, time)));
  }

  /**
   * A parsed datetime keeps the date the matching form found, and takes the
   * time of the " at HH:MM:SS" suffix when there is one.
   */
  lemma ParseResult(args: Args, iso: Iso)
    requires ParseSpec(args, iso).Ok?
    ensures args.input.Str? && ParseAndRemoveTime(args.input.s, args.keypath).Ok?
    ensures var (s, time) := ParseAndRemoveTime(args.input.s, args.keypath).value;
      var a := FirstAttempt(iso, s, args.keypath, 0);
      var r := ParseSpec(args, iso).value;
      && a.Found? && r.DateTime?
      && DateOf(r.sec) == DateOf(a.t)
      && (time.Some? ==> TimeOfDay(r.sec) == time.value)
      && (time.None? ==> r.sec == a.t)
  {
    var (s, time) := ParseAndRemoveTime(args.input.s, args.keypath).value;
    ApplyTimeSpec(FirstAttempt(iso, s, args.keypath, 0).t, time);
  }

  /** The first form that matches wins: a later form is consulted only when the earlier ones do not match. */
  lemma {:induction false} FirstAttemptSpec(iso: Iso, s: string, keypath: KeyPath, k: nat)
    requires k <= 3
    ensures var a := FirstAttempt(iso, s, keypath, k);
      && (a.NoMatch? <==> forall j :: k <= j < 3 ==> AttemptSpec(iso, s, keypath, j).NoMatch?)
      && (!a.NoMatch? ==> exists j :: (k <= j < 3 && a == AttemptSpec(iso, s, keypath, j)
            && forall i :: k <= i < j ==> AttemptSpec(iso, s, keypath, i).NoMatch?))
    decreases 3 - k
  {
    if k < 3 {
      FirstAttemptSpec(iso, s, keypath, k + 1);
      if AttemptSpec(iso, s, keypath, k).NoMatch? {
        var a := FirstAttempt(iso, s, keypath, k);
        if !a.NoMatch? {
          var j :| k + 1 <= j < 3 && a == AttemptSpec(iso, s, keypath, j)
            && forall i :: k + 1 <= i < j ==> AttemptSpec(iso, s, keypath, i).NoMatch?;
          assert forall i :: k <= i < j ==> AttemptSpec(iso, s, keypath, i).NoMatch?;
        }
      }
    }
  }
}
