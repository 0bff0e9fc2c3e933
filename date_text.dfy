// The date vocabulary shared by src/smartconfig/stdlib/datetime.py,
// src/smartconfig/converters.py and src/smartconfig/parsers.py: ISO 8601
// parsing (a parameter), English day names, and the trailing
// " at HH:MM:SS" time suffix.
module DateText {
  import opened Exceptions
  import opened Config
  import opened Strings
  import opened Patterns
  import opened Calendar

  /** A time of day in seconds since midnight. */
  type Clock = t: int | 0 <= t < DaySeconds

  /**
   * `datetime.fromisoformat` (a datetime as seconds; a date alone gives its
   * midnight) and `time.fromisoformat` (a time of day): ISO 8601 text parsing
   * is library code, so the model takes it as a parameter.
   */
  datatype Iso = Iso(dateTime: string -> Option<int>, time: string -> Option<Clock>)

  // ------------------------------------------------------------------ day names

  /** The members of `_DaysOfTheWeek`, in weekday order. */
  const DayNames: seq<string> :=
    ["MONDAY", "TUESDAY", "WEDNESDAY", "THURSDAY", "FRIDAY", "SATURDAY", "SUNDAY"]

  /** `_DaysOfTheWeek[name.upper()]`: the weekday whose upper-cased name is given. */
  function DayIndex(name: string): (r: Option<Weekday>)
    ensures r.Some? <==> Upper(name) in DayNames
    ensures r.Some? ==> DayNames[r.value] == Upper(name)
  {
    var u := Upper(name);
    if u == DayNames[0] then Some(0)
    else if u == DayNames[1] then Some(1)
    else if u == DayNames[2] then Some(2)
    else if u == DayNames[3] then Some(3)
    else if u == DayNames[4] then Some(4)
    else if u == DayNames[5] then Some(5)
    else if u == DayNames[6] then Some(6)
    else None
  }

  /** A string of ASCII capitals. */
  predicate Capitals(s: string)
  {
    forall i :: 0 <= i < |s| ==> 'A' <= s[i] <= 'Z'
  }

  lemma CapitalsCase(s: string)
    requires Capitals(s)
    ensures Upper(s) == s && Upper(Lower(s)) == s
  {
    assert forall i :: 0 <= i < |s| ==> Upper(s)[i] == s[i];
    assert forall i :: 0 <= i < |s| ==> Upper(Lower(s))[i] == s[i];
  }

  /** Every day name is recognised in upper case and in lower case, as its own weekday. */
  lemma DayIndexNames(w: Weekday)
    ensures DayIndex(DayNames[w]) == Some(w)
    ensures DayIndex(Lower(DayNames[w])) == Some(w)
  {
    var name := DayNames[w];
    NamesAreCapitals(w);
    CapitalsCase(name);
    var low := Lower(name);
    assert Upper(low) == name;
    var r1 := DayIndex(name);
    var r2 := DayIndex(low);
    NamesDistinct(r1.value, w);
    NamesDistinct(r2.value, w);
  }

  lemma NamesDistinct(i: Weekday, j: Weekday)
    requires DayNames[i] == DayNames[j]
    ensures i == j
  {
    assert |DayNames[i]| == |DayNames[j]| && DayNames[i][0] == DayNames[j][0];
    assert DayNames[i][1] == DayNames[j][1];
  }

  lemma NamesAreCapitals(w: Weekday)
    ensures Capitals(DayNames[w])
  {
    var name := DayNames[w];
    forall i | 0 <= i < |name| ensures 'A' <= name[i] <= 'Z' {
      if w == 0 { assert name == "MONDAY"; }
      else if w == 1 { assert name == "TUESDAY"; }
      else if w == 2 { assert name == "WEDNESDAY"; }
      else if w == 3 { assert name == "THURSDAY"; }
      else if w == 4 { assert name == "FRIDAY"; }
      else if w == 5 { assert name == "SATURDAY"; }
      else { assert name == "SUNDAY"; }
    }
  }

  // ----------------------------------------------------------- the time suffix

  /** `r" at (\d{2}):(\d{2}):(\d{2})$"` with `re.IGNORECASE`. */
  function TimePattern(): Pattern
  {
    Pattern([Lit(" at "), Repeat(Digit, 2, Some(2), true), Lit(":"),
             Repeat(Digit, 2, Some(2), true), Lit(":"), Repeat(Digit, 2, Some(2), true)], true)
  }

  /** Where `re.search` finds the suffix, and its three digit groups. */
  datatype Suffix = Suffix(start: nat, end: nat, hours: string, minutes: string, seconds: string)

  /** Two ASCII digits. */
  predicate TwoDigits(g: string)
  {
    |g| == 2 && forall i :: 0 <= i < |g| ==> IsDigit(g[i])
  }

  /** The three groups of a suffix are two digits each. */
  predicate DigitGroups(x: Suffix)
  {
    TwoDigits(x.hours) && TwoDigits(x.minutes) && TwoDigits(x.seconds)
  }

  /**
   * `re.search(time_pattern, s, flags=re.IGNORECASE)`: the leftmost
   * " at HH:MM:SS" (any case of "at") that ends the text or precedes its
   * final newline.
   */
  function FindSuffix(s: string): (r: Option<Suffix>)
    ensures r.Some? ==>
      && r.value.start + 12 == r.value.end <= |s|
      && AtLineEnd(s, r.value.end)
      && Lower(s[r.value.start..r.value.start + 4]) == " at "
      && s[r.value.start..r.value.end] == s[r.value.start..r.value.start + 4] + r.value.hours + ":" + r.value.minutes + ":" + r.value.seconds
      && DigitGroups(r.value)
    ensures r.None? ==> forall j :: 0 <= j <= |s| ==> MatchFrom(TimePattern(), 0, s, j).None?
  {
    match Search(TimePattern(), s, 0)
    case None => None
    case Some((start, ends)) =>
      SuffixShape(s, start, ends);
      Some(Suffix(start, ends[5], s[ends[0]..ends[1]], s[ends[2]..ends[3]], s[ends[4]..ends[5]]))
  }

  lemma SuffixShape(s: string, start: nat, ends: seq<nat>)
    requires IsMatch(TimePattern(), 0, s, start, ends)
    ensures |ends| == 6
    ensures start + 4 == ends[0] && ends[0] + 2 == ends[1] && ends[1] + 1 == ends[2]
    ensures ends[2] + 2 == ends[3] && ends[3] + 1 == ends[4] && ends[4] + 2 == ends[5] <= |s|
    ensures AtLineEnd(s, ends[5])
    ensures Lower(s[start..start + 4]) == " at "
    ensures s[ends[1]] == ':' && s[ends[3]] == ':'
    ensures TwoDigits(s[ends[0]..ends[1]]) && TwoDigits(s[ends[2]..ends[3]]) && TwoDigits(s[ends[4]..ends[5]])
    ensures s[start..ends[5]] == s[start..start + 4] + s[ends[0]..ends[1]] + ":" + s[ends[2]..ends[3]] + ":" + s[ends[4]..ends[5]]
  {
    var p := TimePattern();
    assert IsMatch(p, 1, s, ends[0], ends[1..]);
    assert IsMatch(p, 2, s, ends[1], ends[2..]);
    assert IsMatch(p, 3, s, ends[2], ends[3..]);
    assert IsMatch(p, 4, s, ends[3], ends[4..]);
    assert IsMatch(p, 5, s, ends[4], ends[5..]);
    assert IsMatch(p, 6, s, ends[5], ends[6..]);
    assert s[ends[1]..ends[2]] == ":";
    assert s[ends[3]..ends[4]] == ":";
    assert s[start..ends[5]] == s[start..start + 4] + s[ends[0]..ends[1]] + s[ends[1]..ends[2]]
      + s[ends[2]..ends[3]] + s[ends[3]..ends[4]] + s[ends[4]..ends[5]];
  }

  /**
   * `re.sub(time_pattern, "", s)` removes only the match `re.search` found:
   * no other match can start at or after its end.
   */
  lemma SuffixUnique(s: string, j: nat)
    requires FindSuffix(s).Some? && FindSuffix(s).value.end <= j <= |s|
    ensures MatchFrom(TimePattern(), 0, s, j).None?
  {
    assert !LitAt(s, j, " at ", true);
  }

  /** `s` with the suffix cut out. */
  function WithoutSuffix(s: string, x: Suffix): string
    requires x.start <= x.end <= |s|
  {
    s[..x.start] + s[x.end..]
  }

  /** `datetime.time(h, m, s)` accepts its arguments. */
  predicate ValidClock(h: nat, m: nat, sec: nat)
  {
    h < 24 && m < 60 && sec < 60
  }

  function ClockOf(h: nat, m: nat, sec: nat): (c: Clock)
    requires ValidClock(h, m, sec)
  {
    h * 3600 + m * 60 + sec
  }

  /** The time of the suffix, when it is a valid time of day. */
  function SuffixClock(x: Suffix): Option<Clock>
    requires DigitGroups(x)
  {
    var h := ParseNat(x.hours);
    var m := ParseNat(x.minutes);
    var sec := ParseNat(x.seconds);
    if ValidClock(h, m, sec) then Some(ClockOf(h, m, sec)) else None
  }

  /**
   * The shared part of every `_parse_and_remove_time`: no suffix gives the
   * text unchanged and no time; a valid suffix gives the text without it and
   * its time; an invalid time gives None, for the caller to report.
   */
  function RemoveTime(s: string): Option<(string, Option<Clock>)>
  {
    match FindSuffix(s)
    case None => Some((s, None))
    case Some(x) =>
      match SuffixClock(x)
      case None => None
      case Some(c) => Some((WithoutSuffix(s, x), Some(c)))
  }

  /**
   * The outcome of trying one date form: no match (the next form is tried),
   * a datetime, or an error that ends the whole parse.
   */
  datatype Attempt = NoMatch | Found(t: int) | Failed(error: Error)

  /** `datetime.combine(t, time)` when a time was given, t otherwise. */
  function ApplyTime(t: int, time: Option<Clock>): int
  {
    if time.Some? then AtTime(t, time.value) else t
  }

  /** The time override sets the time of day and keeps the date. */
  lemma ApplyTimeSpec(t: int, time: Option<Clock>)
    ensures DateOf(ApplyTime(t, time)) == DateOf(t)
    ensures time.Some? ==> TimeOfDay(ApplyTime(t, time)) == time.value
    ensures time.None? ==> ApplyTime(t, time) == t
  {
    if time.Some? {
      CombineParts(DateOf(t), time.value);
    }
  }
}
