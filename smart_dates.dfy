// The smart date grammar of src/smartconfig/converters.py and of its older
// counterpart src/smartconfig/parsers.py: ISO text, "<n> day(s)|hour(s)
// before|after <ISO>", the explicit "<ISO> at HH:MM:SS" form, and "first
// <day names> before|after <ISO>". The two modules differ only in the
// exception they raise and in how they treat a date or a non-string input.
module SmartDates {
  import opened Exceptions
  import opened Config
  import opened Strings
  import opened Patterns
  import opened Calendar
  import opened DateText

  /** Which module: converters.py (ConversionError) or parsers.py (ParseError). */
  datatype Flavor = Converters | Parsers

  /** The module's own error for a message. */
  function Raise(flavor: Flavor, message: string): (e: Error)
    ensures e.Conversion? <==> flavor.Converters?
    ensures e.Parse? <==> flavor.Parsers?
  {
    if flavor == Converters then Conversion(message) else Parse(message)
  }

  /**
   * The invalid-time error of `_parse_and_remove_time`: converters.py quotes
   * the whole text, parsers.py the tuple of the three digit groups.
   */
  function TimeError(flavor: Flavor, s: string, x: Suffix): (e: Error)
    ensures flavor.Converters? ==> e.Conversion?
  {
    if flavor == Converters then Conversion("Invalid time: " + s + ".")
    else Parse("Invalid time: ('" + x.hours + "', '" + x.minutes + "', '" + x.seconds + "').")
  }

  /** `_parse_and_remove_time` of either module. */
  function RemoveTimeOf(flavor: Flavor, s: string): (r: Result<(string, Option<Clock>)>)
    ensures r.Ok? <==> RemoveTime(s).Some?
    ensures r.Ok? ==> r.value == RemoveTime(s).value
    ensures r.Err? ==> FindSuffix(s).Some? && r.error == TimeError(flavor, s, FindSuffix(s).value)
  {
    match FindSuffix(s)
    case None => Ok((s, None))
    case Some(x) =>
      match SuffixClock(x)
      case Some(c) => Ok((WithoutSuffix(s, x), Some(c)))
      case None => Err(TimeError(flavor, s, x))
  }

  /** The first of two attempts that matches. */
  /** With converters.py's flavour, every failure is a conversion error or a `ValueError`. */
  predicate ConverterError(flavor: Flavor, e: Error)
  {
    flavor.Converters? ==> e.Conversion? || e.ValueError?
  }

  function OrElse(a: Attempt, b: Attempt): (r: Attempt)
    ensures !a.NoMatch? ==> r == a
    ensures a.NoMatch? ==> r == b
  {
    if a.NoMatch? then b else a
  }

  // --------------------------------------------------------- the relative form

  /** `r"^(\d+) (day|hour)[s]{0,1} (after|before) (.*)?$"` with `re.IGNORECASE`; groups are items 0, 2, 5 and 7. */
  function RelativePattern(): Pattern
  {
    Pattern([Repeat(Digit, 1, None, true), Lit(" "), Alt(["day", "hour"]), Repeat(OneOf("s"), 0, Some(1), true),
             Lit(" "), Alt(["after", "before"]), Lit(" "), Repeat(NotNewline, 0, None, true)], true)
  }

  /** The number of a relative form is a non-empty run of digits. */
  lemma RelativeDigits(s: string, ends: seq<nat>)
    requires IsMatch(RelativePattern(), 0, s, 0, ends)
    ensures |ends| == 8 && 0 < ends[0] <= |s|
    ensures forall i :: 0 <= i < |Group(s, 0, ends, 0)| ==> IsDigit(Group(s, 0, ends, 0)[i])
  {
    assert Covers(RelativePattern().items[0], true, s, 0, ends[0]);
  }

  /** The signed length of the relative form's offset, in seconds. */
  function RelativeDelta(amount: nat, hours: bool, before: bool): int
  {
    (if before then -1 else 1) * amount * (if hours then 3600 else DaySeconds)
  }

  /** `_parse_timedelta_before_or_after`: no match, or a reference that is not ISO, moves on. */
  function Relative(flavor: Flavor, iso: Iso, s: string): (r: Attempt)
    ensures r.Failed? ==> ConverterError(flavor, r.error)
  {
    match RemoveTimeOf(flavor, s)
    case Err(e) => Failed(e)
    case Ok((rest, time)) =>
      match Match(RelativePattern(), rest)
      case None => NoMatch
      case Some(ends) =>
        RelativeDigits(rest, ends);
        var amount := ParseNat(Group(rest, 0, ends, 0));
        var hours := Lower(Group(rest, 0, ends, 2)) == "hour";
        var before := Lower(Group(rest, 0, ends, 5)) == "before";
        match iso.dateTime(Strip(Group(rest, 0, ends, 7)))
        case None => NoMatch
        case Some(reference) => Found(ApplyTime(reference + RelativeDelta(amount, hours, before), time))
  }

  /**
   * "before" moves back and "after" forward, by whole hours or whole days;
   * a trailing time replaces the time of day and keeps the date.
   */
  lemma RelativeDeltaSpec(amount: nat, hours: bool, before: bool)
    ensures before ==> RelativeDelta(amount, hours, before) <= 0
    ensures !before ==> RelativeDelta(amount, hours, before) >= 0
    ensures RelativeDelta(amount, hours, before) + RelativeDelta(amount, hours, !before) == 0
    ensures hours ==> RelativeDelta(amount, hours, before) % 3600 == 0
    ensures !hours ==> RelativeDelta(amount, hours, before) % DaySeconds == 0
  {
    var sign := if before then -1 else 1;
    var unit := if hours then 3600 else DaySeconds;
    assert RelativeDelta(amount, hours, before) == (sign * amount) * unit;
  }

  // --------------------------------------------------------- the explicit form

  /** `_parse_datetime_from_explicit`: an ISO datetime followed by an optional time. */
  function Explicit(flavor: Flavor, iso: Iso, s: string): (r: Attempt)
    ensures r.Failed? ==> ConverterError(flavor, r.error)
  {
    match RemoveTimeOf(flavor, s)
    case Err(e) => Failed(e)
    case Ok((rest, time)) =>
      match iso.dateTime(rest)
      case None => NoMatch
      case Some(t) => Found(ApplyTime(t, time))
  }

  // ------------------------------------------------------ the first-available form

  /** `r"^first ([\w ]+) (after|before) (.*)$"` with `re.IGNORECASE`; groups are items 1, 3 and 5. */
  function FirstWordsPattern(): Pattern
  {
    Pattern([Lit("first "), Repeat(WordOrSpace, 1, None, true), Lit(" "), Alt(["after", "before"]),
             Lit(" "), Repeat(NotNewline, 0, None, true)], true)
  }

  /** What a first-available text asks for. */
  datatype FirstQuery = FirstQuery(names: seq<string>, before: bool, reference: string, time: Option<Clock>)

  /**
   * `_parse_first_available_day` up to the day names: "," and " or " become
   * spaces, the time is removed, and the pattern is matched; None when it
   * does not match.
   */
  function FirstQueryOf(flavor: Flavor, s: string): (r: Result<Option<FirstQuery>>)
    ensures r.Err? ==> ConverterError(flavor, r.error)
  {
    var replaced := ReplaceAll(ReplaceAll(s, ",", " "), " or ", " ");
    match RemoveTimeOf(flavor, replaced)
    case Err(e) => Err(e)
    case Ok((rest, time)) =>
      match Match(FirstWordsPattern(), rest)
      case None => Ok(None)
      case Some(ends) =>
        Ok(Some(FirstQuery(SplitWhitespace(Group(rest, 0, ends, 1)), Lower(Group(rest, 0, ends, 3)) == "before",
                           Group(rest, 0, ends, 5), time)))
  }

  /** The weekdays of the names; None when one of them is not a day name. */
  function NameWeekdays(names: seq<string>): (r: Option<set<Weekday>>)
    ensures r.Some? <==> forall i :: 0 <= i < |names| ==> DayIndex(names[i]).Some?
    ensures r.Some? ==> forall w: Weekday :: w in r.value <==>
      exists i :: 0 <= i < |names| && DayIndex(names[i]) == Some(w)
  {
    if forall i :: 0 <= i < |names| ==> DayIndex(names[i]).Some? then
      Some(set i | 0 <= i < |names| :: DayIndex(names[i]).value)
    else None
  }

  /** The message of the ValueError `datetime.fromisoformat` raises. */
  function IsoError(s: string): Error
  {
    ValueError("Invalid isoformat " + "string: '" + s + "'")
  }

  /**
   * `_parse_first_available_day` as a specification: an unknown day name
   * moves on, a reference that is not ISO is an error. A text that names no
   * day at all also moves on: the source's loop never ends on an empty set
   * (see `Calendar.SearchLoopEmpty`).
   */
  function FirstAvailable(flavor: Flavor, iso: Iso, s: string): (r: Attempt)
    ensures r.Failed? ==> ConverterError(flavor, r.error)
  {
    match FirstQueryOf(flavor, s)
    case Err(e) => Failed(e)
    case Ok(None) => NoMatch
    case Ok(Some(q)) =>
      match NameWeekdays(q.names)
      case None => NoMatch
      case Some(weekdays) =>
        match iso.dateTime(q.reference)
        case None => Failed(IsoError(q.reference))
        case Some(reference) =>
          if weekdays == {} then NoMatch
          else Found(ApplyTime(FirstWeekday(reference, weekdays, q.before), q.time))
  }

  /** `_parse_first_available_day`: steps a day at a time from the reference until a weekday of the set. */
  method FirstAvailableDay(flavor: Flavor, iso: Iso, s: string) returns (a: Attempt)
    ensures a == FirstAvailable(flavor, iso, s)
  {
    var q := FirstQueryOf(flavor, s);
    if q.Err? {
      return Failed(q.error);
    }
    if q.value.None? {
      return NoMatch;
    }
    var query := q.value.value;
    var weekdays := NameWeekdays(query.names);
    if weekdays.None? {
      return NoMatch;
    }
    var reference := iso.dateTime(query.reference);
    if reference.None? {
      return Failed(IsoError(query.reference));
    }
    if weekdays.value == {} {
      return NoMatch;
    }
    var cursor := FindFirstWeekday(reference.value, weekdays.value, query.before);
    a := Found(ApplyTime(cursor, query.time));
  }

  /**
   * A first-available date falls on one of the named weekdays, one to seven
   * days from the reference in the asked direction, and takes the trailing
   * time when one was given.
   */
  lemma FirstAvailableResult(flavor: Flavor, iso: Iso, s: string)
    requires FirstAvailable(flavor, iso, s).Found?
    ensures var q := FirstQueryOf(flavor, s).value.value;
      var weekdays := NameWeekdays(q.names).value;
      var reference := iso.dateTime(q.reference).value;
      var t := FirstAvailable(flavor, iso, s).t;
      var n := Sign(q.before) * (DateOf(t) - DateOf(reference));
      && WeekdayOf(DateOf(t)) in weekdays
      && 1 <= n <= 7
      && (q.time.Some? ==> TimeOfDay(t) == q.time.value)
      && (q.time.None? ==> TimeOfDay(t) == TimeOfDay(reference))
  {
    var q := FirstQueryOf(flavor, s).value.value;
    var weekdays := NameWeekdays(q.names).value;
    var reference := iso.dateTime(q.reference).value;
    FirstWeekdaySpec(reference, weekdays, q.before);
    ApplyTimeSpec(FirstWeekday(reference, weekdays, q.before), q.time);
  }

  /** A text whose day-name group is only spaces (such as "first , after <ISO>") names no day. */
  lemma NoNamesNoWeekdays()
    ensures SplitWhitespace(" ") == [] && NameWeekdays([]) == Some({})
  {
    assert TrimStart(" ") == [];
    var r := NameWeekdays([]);
    assert r.Some?;
    forall w: Weekday | w in r.value ensures false {
    }
    assert r.value == {};
  }

  // ---------------------------------------------------------------- the entries

  /** The forms both entries try after ISO: the relative form, then the first-available form. */
  function Tail(flavor: Flavor, iso: Iso, s: string): (r: Attempt)
    ensures r.Failed? ==> ConverterError(flavor, r.error)
  {
    var relative := Relative(flavor, iso, s);
    if relative.NoMatch? then FirstAvailable(flavor, iso, s) else relative
  }

  /** `smartdate` as a specification. */
  function SmartDateSpec(flavor: Flavor, iso: Iso, value: Value): (r: Result<Value>)
    ensures r.Ok? ==> r.value.Date?
    ensures r.Err? && value.Str? && flavor.Converters? ==> r.error.Conversion? || r.error.ValueError?
  {
    match value
    case DateTime(sec) => Ok(Date(DateOf(sec)))
    case Date(_) => Ok(value)
    case Str(s, _) =>
      (match iso.dateTime(s)
       case Some(t) => Ok(Date(DateOf(t)))
       case None =>
         match Tail(flavor, iso, s)
         case Found(t) => Ok(Date(DateOf(t)))
         case Failed(e) => Err(e)
         case NoMatch => Err(Raise(flavor, "Cannot parse into " + "date: '" + s + "'.")))
    case _ =>
      if flavor == Converters then Err(Conversion("Cannot convert type " + ClassRepr(value) + " into date."))
      else Err(TypeError("fromisoformat: " + "argument must be str"))
  }

  /**
   * `smartdate`: a datetime gives its date and a date is kept; text is tried
   * as ISO, then as a relative date, then as a first-available date.
   */
  method SmartDate(flavor: Flavor, iso: Iso, value: Value) returns (r: Result<Value>)
    ensures r == SmartDateSpec(flavor, iso, value)
  {
    if value.DateTime? {
      return Ok(Date(DateOf(value.sec)));
    }
    if value.Date? {
      return Ok(value);
    }
    if !value.Str? {
      if flavor == Converters {
        return Err(Conversion("Cannot convert type " + ClassRepr(value) + " into date."));
      }
      return Err(TypeError("fromisoformat: " + "argument must be str"));
    }
    var s := value.s;
    var t := iso.dateTime(s);
    if t.Some? {
      return Ok(Date(DateOf(t.value)));
    }
    var a := Relative(flavor, iso, s);
    if a.NoMatch? {
      a := FirstAvailableDay(flavor, iso, s);
    }
    match a
    case Found(t) => r := Ok(Date(DateOf(t)));
    case Failed(e) => r := Err(e);
    case NoMatch => r := Err(Raise(flavor, "Cannot parse into " + "date: '" + s + "'."));
  }

  /** `smartdatetime` as a specification. */
  function SmartDateTimeSpec(flavor: Flavor, iso: Iso, value: Value): (r: Result<Value>)
    ensures r.Ok? ==> r.value.DateTime?
    ensures r.Err? && value.Str? && flavor.Converters? ==> r.error.Conversion? || r.error.ValueError?
  {
    if value.DateTime? then Ok(value)
    else if value.Date? then
      if flavor == Converters then
        Err(Conversion("Cannot implicitly " + "convert date '" + Show(value) + "' into datetime."))
      else Ok(DateTime(Combine(value.day, 0)))
    else if value.Str? then
      match iso.dateTime(value.s)
      case Some(t) => Ok(DateTime(t))
      case None =>
        match OrElse(Explicit(flavor, iso, value.s), Tail(flavor, iso, value.s))
        case Found(t) => Ok(DateTime(t))
        case Failed(e) => Err(e)
        case NoMatch => Err(Raise(flavor, "Cannot parse into " + "datetime: '" + value.s + "'."))
    else if flavor == Converters then Err(Conversion("Cannot convert type " + ClassRepr(value) + " into datetime."))
    else Err(TypeError("fromisoformat: " + "argument must be str"))
  }

  /**
   * `smartdatetime`: a datetime is kept; a date is rejected (converters.py) or
   * taken at midnight (parsers.py); text is tried as ISO, as ISO with a
   * trailing time, as a relative date, then as a first-available date.
   */
  method SmartDateTime(flavor: Flavor, iso: Iso, value: Value) returns (r: Result<Value>)
    ensures r == SmartDateTimeSpec(flavor, iso, value)
  {
    if value.DateTime? {
      return Ok(value);
    }
    if value.Date? {
      if flavor == Converters {
        return Err(Conversion("Cannot implicitly " + "convert date '" + Show(value) + "' into datetime."));
      }
      return Ok(DateTime(Combine(value.day, 0)));
    }
    if !value.Str? {
      if flavor == Converters {
        return Err(Conversion("Cannot convert type " + ClassRepr(value) + " into datetime."));
      }
      return Err(TypeError("fromisoformat: " + "argument must be str"));
    }
    var s := value.s;
    var t := iso.dateTime(s);
    if t.Some? {
      return Ok(DateTime(t.value));
    }
    var a := Explicit(flavor, iso, s);
    if a.NoMatch? {
      a := Relative(flavor, iso, s);
    }
    if a.NoMatch? {
      a := FirstAvailableDay(flavor, iso, s);
    }
    match a
    case Found(t) => r := Ok(DateTime(t));
    case Failed(e) => r := Err(e);
    case NoMatch => r := Err(Raise(flavor, "Cannot parse into " + "datetime: '" + s + "'."));
  }

  /**
   * The two entries agree: whatever text smartdatetime reads as a datetime
   * through ISO, a relative form or a first-available form, smartdate reads
   * as that datetime's date.
   */
  lemma SmartDateOfDateTime(flavor: Flavor, iso: Iso, s: string)
    requires Explicit(flavor, iso, s).NoMatch?
    requires SmartDateTimeSpec(flavor, iso, Text(s)).Ok?
    ensures SmartDateSpec(flavor, iso, Text(s)) == Ok(Date(DateOf(SmartDateTimeSpec(flavor, iso, Text(s)).value.sec)))
  {
    if iso.dateTime(s).None? {
      var a := OrElse(Explicit(flavor, iso, s), Tail(flavor, iso, s));
      assert a == Tail(flavor, iso, s);
      assert SmartDateTimeSpec(flavor, iso, Text(s)) == Ok(DateTime(a.t));
    }
  }

  /** Values already of the target type are returned unchanged, and a datetime's date is its day. */
  lemma SmartDateKinds(flavor: Flavor, iso: Iso, value: Value)
    ensures value.Date? ==> SmartDateSpec(flavor, iso, value) == Ok(value)
    ensures value.DateTime? ==> SmartDateTimeSpec(flavor, iso, value) == Ok(value)
    ensures value.DateTime? ==> SmartDateSpec(flavor, iso, value) == Ok(Date(value.sec / DaySeconds))
    ensures value.Date? ==> (SmartDateTimeSpec(flavor, iso, value).Ok? <==> flavor == Parsers)
    ensures value.Date? && flavor == Parsers ==>
      var r := SmartDateTimeSpec(flavor, iso, value).value;
      r.DateTime? && DateOf(r.sec) == value.day && TimeOfDay(r.sec) == 0
  {
    if value.Date? {
      CombineParts(value.day, 0);
    }
  }
}
