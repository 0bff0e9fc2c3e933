// Dates and datetimes as integers, the weekday search of
// `_find_first_weekday` and the bounded skip loop of `_skip_excluded`
// (src/smartconfig/stdlib/datetime.py).
//
// A date is its proleptic Gregorian ordinal (`date.toordinal()`: 0001-01-01
// is day 1, a Monday); a datetime is a count of seconds, `day * 86400 +
// seconds since midnight`; a timedelta is a (possibly negative) count of
// seconds. Microseconds and time zones are not modelled.
module Calendar {
  import opened Exceptions

  const DaySeconds: int := 86400

  /** `date.weekday()`: Monday is 0, Sunday is 6. */
  type Weekday = w: int | 0 <= w < 7

  /** `dt.date()`. */
  function DateOf(t: int): int
  {
    t / DaySeconds
  }

  /** The seconds since midnight of `dt.time()`. */
  function TimeOfDay(t: int): (r: int)
    ensures 0 <= r < DaySeconds
  {
    t % DaySeconds
  }

  /** `datetime.combine(date, time)` for a time given as seconds since midnight. */
  function Combine(day: int, time: int): int
  {
    day * DaySeconds + time
  }

  /** `datetime.combine(dt, time)`: dt's date at another time of day. */
  function AtTime(t: int, time: int): int
  {
    Combine(DateOf(t), time)
  }

  /** The weekday of a day ordinal. */
  function WeekdayOf(day: int): Weekday
  {
    (day + 6) % 7
  }

  lemma DivModUnique(x: int, q: int, r: int)
    requires x == q * DaySeconds + r && 0 <= r < DaySeconds
    ensures x / DaySeconds == q && x % DaySeconds == r
  {
  }

  /** A datetime is the combination of its date and its time of day, and combining gives them back. */
  lemma CombineParts(day: int, time: int)
    requires 0 <= time < DaySeconds
    ensures DateOf(Combine(day, time)) == day && TimeOfDay(Combine(day, time)) == time
  {
    DivModUnique(Combine(day, time), day, time);
  }

  /** Moving by n whole days moves the date by n and keeps the time of day. */
  lemma ShiftDays(t: int, n: int)
    ensures DateOf(t + n * DaySeconds) == DateOf(t) + n
    ensures TimeOfDay(t + n * DaySeconds) == TimeOfDay(t)
  {
    DivModUnique(t + n * DaySeconds, DateOf(t) + n, TimeOfDay(t));
  }

  /** The direction of a search: -1 before the reference, 1 after it. */
  function Sign(before: bool): int
  {
    if before then -1 else 1
  }

  // --------------------------------------------------------------- weekday search

  /** The weekday j days away from `day` in the direction `sign`. */
  function WeekdayAt(day: int, sign: int, j: int): Weekday
  {
    WeekdayOf(day + sign * j)
  }

  /** Every weekday occurs among the seven days after (or before) any day. */
  lemma SevenDaysCoverAll(day: int, sign: int, w: Weekday) returns (g: int)
    requires sign == 1 || sign == -1
    ensures 1 <= g <= 7 && WeekdayAt(day, sign, g) == w
  {
    var wd := WeekdayOf(day);
    var a := (day + 6) / 7;
    assert day + 6 == 7 * a + wd;
    var d := if sign == 1 then w - wd - 1 else wd - w - 1;
    var b := d / 7;
    var r := d % 7;
    assert d == 7 * b + r && 0 <= r < 7;
    g := r + 1;
    if sign == 1 {
      assert day + g + 6 == 7 * (a - b) + w;
      Mod7(day + g + 6, a - b, w);
      assert WeekdayAt(day, sign, g) == WeekdayOf(day + g);
    } else {
      assert day - g + 6 == 7 * (a + b) + w;
      Mod7(day - g + 6, a + b, w);
      assert WeekdayAt(day, sign, g) == WeekdayOf(day - g);
    }
  }

  lemma Mod7(x: int, q: int, r: int)
    requires x == 7 * q + r && 0 <= r < 7
    ensures x % 7 == r
  {
  }

  /** The first j in k..7 whose day has a weekday in the set; 7 when none before it does. */
  function FirstHit(day: int, weekdays: set<Weekday>, sign: int, k: int): (g: int)
    requires 1 <= k <= 7
    ensures k <= g <= 7
    ensures forall j :: k <= j < g ==> WeekdayAt(day, sign, j) !in weekdays
    ensures g < 7 ==> WeekdayAt(day, sign, g) in weekdays
    decreases 7 - k
  {
    if k == 7 || WeekdayAt(day, sign, k) in weekdays then k else FirstHit(day, weekdays, sign, k + 1)
  }

  /** The number of days from `day` to the nearest day, in the direction `sign`, whose weekday is in the set. */
  function Gap(day: int, weekdays: set<Weekday>, sign: int): int
  {
    FirstHit(day, weekdays, sign, 1)
  }

  /** For a non-empty set the gap is one to seven days, lands on a weekday of the set and skips none. */
  lemma GapSpec(day: int, weekdays: set<Weekday>, sign: int)
    requires sign == 1 || sign == -1
    requires weekdays != {}
    ensures var g := Gap(day, weekdays, sign);
      && 1 <= g <= 7
      && WeekdayAt(day, sign, g) in weekdays
      && forall j :: 1 <= j < g ==> WeekdayAt(day, sign, j) !in weekdays
  {
    var g := Gap(day, weekdays, sign);
    if WeekdayAt(day, sign, g) !in weekdays {
      var w :| w in weekdays;
      var h := SevenDaysCoverAll(day, sign, w);
      assert false;
    }
  }

  /**
   * `_find_first_weekday` with a non-empty set: the nearest datetime strictly
   * after (or before) the reference, a whole number of days away, whose
   * weekday is in the set.
   */
  function FirstWeekday(reference: int, weekdays: set<Weekday>, before: bool): int
  {
    reference + Sign(before) * Gap(DateOf(reference), weekdays, Sign(before)) * DaySeconds
  }

  /**
   * The result lies one to seven days from the reference in the requested
   * direction, keeps the reference's time of day, falls on a weekday of the
   * set, and no day strictly between the two does.
   */
  lemma FirstWeekdaySpec(reference: int, weekdays: set<Weekday>, before: bool)
    requires weekdays != {}
    ensures var r := FirstWeekday(reference, weekdays, before);
      var n := Sign(before) * (DateOf(r) - DateOf(reference));
      && 1 <= n <= 7
      && TimeOfDay(r) == TimeOfDay(reference)
      && WeekdayOf(DateOf(r)) in weekdays
      && forall j :: 1 <= j < n ==> WeekdayAt(DateOf(reference), Sign(before), j) !in weekdays
  {
    var sign := Sign(before);
    var g := Gap(DateOf(reference), weekdays, sign);
    GapSpec(DateOf(reference), weekdays, sign);
    ShiftDays(reference, sign * g);
    assert sign * g * DaySeconds == (sign * g) * DaySeconds;
  }

  /**
   * The search loop as written: from `cursor`, step one day at a time until
   * the weekday is in the set; None if it has not stopped after `fuel` steps.
   */
  function SearchLoop(cursor: int, weekdays: set<Weekday>, sign: int, fuel: nat): Option<int>
    decreases fuel
  {
    if WeekdayOf(DateOf(cursor)) in weekdays then Some(cursor)
    else if fuel == 0 then None
    else SearchLoop(cursor + sign * DaySeconds, weekdays, sign, fuel - 1)
  }

  /** With an empty set the loop never stops, however many steps it is given. */
  lemma {:induction false} SearchLoopEmpty(cursor: int, sign: int, fuel: nat)
    ensures SearchLoop(cursor, {}, sign, fuel) == None
    decreases fuel
  {
    if fuel > 0 {
      SearchLoopEmpty(cursor + sign * DaySeconds, sign, fuel - 1);
    }
  }

  /** With a non-empty set the loop stops within six further steps, at `FirstWeekday`. */
  lemma SearchLoopFinds(reference: int, weekdays: set<Weekday>, before: bool)
    requires weekdays != {}
    ensures SearchLoop(reference + Sign(before) * DaySeconds, weekdays, Sign(before), 6)
         == Some(FirstWeekday(reference, weekdays, before))
  {
    var sign := Sign(before);
    var day := DateOf(reference);
    GapSpec(day, weekdays, sign);
    SearchLoopFrom(reference, weekdays, sign, 1, Gap(day, weekdays, sign));
  }

  lemma {:induction false} SearchLoopFrom(reference: int, weekdays: set<Weekday>, sign: int, k: int, g: int)
    requires 1 <= k <= g <= 7
    requires WeekdayAt(DateOf(reference), sign, g) in weekdays
    requires forall j :: k <= j < g ==> WeekdayAt(DateOf(reference), sign, j) !in weekdays
    ensures SearchLoop(reference + sign * k * DaySeconds, weekdays, sign, 7 - k)
         == Some(reference + sign * g * DaySeconds)
    decreases g - k
  {
    var cursor := reference + sign * k * DaySeconds;
    ShiftDays(reference, sign * k);
    assert sign * k * DaySeconds == (sign * k) * DaySeconds;
    if k < g {
      assert WeekdayAt(DateOf(reference), sign, k) !in weekdays;
      assert WeekdayOf(DateOf(cursor)) !in weekdays;
      assert cursor + sign * DaySeconds == reference + sign * (k + 1) * DaySeconds;
      SearchLoopFrom(reference, weekdays, sign, k + 1, g);
    }
  }

  /**
   * `_find_first_weekday` with the loop of the source: start one day from the
   * reference and step a day at a time until the weekday is in the set. Only
   * called with a non-empty set, where it stops at `FirstWeekday`.
   */
  method FindFirstWeekday(reference: int, weekdays: set<Weekday>, before: bool) returns (cursor: int)
    requires weekdays != {}
    ensures cursor == FirstWeekday(reference, weekdays, before)
  {
    var sign := if before then -1 else 1;
    var delta := sign * DaySeconds;
    ghost var day := DateOf(reference);
    ghost var g := Gap(day, weekdays, sign);
    GapSpec(day, weekdays, sign);
    cursor := reference + delta;
    ghost var k := 1;
    ShiftDays(reference, sign);
    while WeekdayOf(DateOf(cursor)) !in weekdays
      invariant 1 <= k <= g
      invariant cursor == reference + k * delta
      invariant DateOf(cursor) == day + sign * k
      decreases g - k
    {
      cursor := cursor + delta;
      k := k + 1;
      ShiftDays(reference, sign * k);
      assert cursor == reference + (sign * k) * DaySeconds;
    }
    assert k == g;
  }

  // ------------------------------------------------------------------- skipping

  /** How `_skip_excluded` picks the next candidate: one day on, or the next matching weekday. */
  datatype Step =
    | DayStep(before: bool)
    | WeekdayStep(weekdays: set<Weekday>, before: bool)

  predicate StepOk(step: Step)
  {
    step.WeekdayStep? ==> step.weekdays != {}
  }

  function NextCandidate(step: Step, t: int): int
    requires StepOk(step)
  {
    match step
    case DayStep(before) => t + Sign(before) * DaySeconds
    case WeekdayStep(weekdays, before) => FirstWeekday(t, weekdays, before)
  }

  /** Each step moves one to seven days in its direction and keeps the time of day. */
  lemma NextCandidateSpec(step: Step, t: int)
    requires StepOk(step)
    ensures var n := Sign(step.before) * (DateOf(NextCandidate(step, t)) - DateOf(t));
      1 <= n <= 7 && TimeOfDay(NextCandidate(step, t)) == TimeOfDay(t)
  {
    match step
    case DayStep(before) => ShiftDays(t, Sign(before));
    case WeekdayStep(weekdays, before) => FirstWeekdaySpec(t, weekdays, before);
  }

  /** `_MAX_SKIP_RETRIES`. */
  const MaxSkipRetries: nat := 366

  /**
   * The skip loop from candidate t after `retries` steps: the first candidate
   * whose date is not skipped, or None once more than 366 steps were needed.
   */
  function SkipFrom(t: int, skip: set<int>, step: Step, retries: nat): Option<int>
    requires StepOk(step)
    requires retries <= MaxSkipRetries
    decreases MaxSkipRetries - retries
  {
    if DateOf(t) !in skip then Some(t)
    else if retries + 1 > MaxSkipRetries then None
    else SkipFrom(NextCandidate(step, t), skip, step, retries + 1)
  }

  /**
   * `_skip_excluded` as written: replace the candidate by the next one while
   * its date is skipped, counting the retries, and give up (None) after more
   * than `MaxSkipRetries` of them.
   */
  method SkipExcluded(result: int, skip: set<int>, step: Step) returns (r: Option<int>)
    requires StepOk(step)
    ensures r == SkipFrom(result, skip, step, 0)
  {
    var candidate := result;
    var retries := 0;
    while DateOf(candidate) in skip
      invariant 0 <= retries <= MaxSkipRetries
      invariant SkipFrom(candidate, skip, step, retries) == SkipFrom(result, skip, step, 0)
      decreases MaxSkipRetries - retries
    {
      candidate := NextCandidate(step, candidate);
      retries := retries + 1;
      if retries > MaxSkipRetries {
        return None;
      }
    }
    r := Some(candidate);
  }

  /** The dates of `skip` at or beyond `day` in the direction `sign`. */
  function Ahead(skip: set<int>, day: int, sign: int): set<int>
  {
    set d | d in skip && sign * (d - day) >= 0
  }

  /**
   * The result is never a skipped date and keeps the time of day; and when
   * fewer than `MaxSkipRetries - retries + 1` skipped dates lie ahead, a result
   * is always found (a skip list of at most 366 dates never exhausts the
   * retries, as the constant's comment intends).
   */
  lemma {:induction false} SkipFromSpec(t: int, skip: set<int>, step: Step, retries: nat)
    requires StepOk(step)
    requires retries <= MaxSkipRetries
    ensures SkipFrom(t, skip, step, retries).Some? ==>
      && DateOf(SkipFrom(t, skip, step, retries).value) !in skip
      && TimeOfDay(SkipFrom(t, skip, step, retries).value) == TimeOfDay(t)
    ensures |Ahead(skip, DateOf(t), Sign(step.before))| <= MaxSkipRetries - retries ==>
      SkipFrom(t, skip, step, retries).Some?
    decreases MaxSkipRetries - retries
  {
    if DateOf(t) in skip {
      var sign := Sign(step.before);
      var next := NextCandidate(step, t);
      NextCandidateSpec(step, t);
      var here := Ahead(skip, DateOf(t), sign);
      var there := Ahead(skip, DateOf(next), sign);
      assert there <= here - {DateOf(t)};
      assert DateOf(t) in here;
      SubsetSize(there, here - {DateOf(t)});
      if retries + 1 <= MaxSkipRetries {
        SkipFromSpec(next, skip, step, retries + 1);
      } else if |here| <= MaxSkipRetries - retries {
        assert false;
      }
    }
  }

  lemma {:induction false} SubsetSize<T>(a: set<T>, b: set<T>)
    requires a <= b
    ensures |a| <= |b|
    decreases |b|
  {
    if a != {} {
      var x :| x in a;
      SubsetSize(a - {x}, b - {x});
    }
  }
}
