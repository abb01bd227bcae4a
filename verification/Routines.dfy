/** Inferring a routine from the starts of a task: which starts count, how far apart they
    are, when the next one is due and how sure that is. */
module Routines {
  import opened CalendarDates
  import opened Decimal38

  datatype Option<+T> = None | Some(value: T)

  /** A recorded start: when, in which time zone, and at which minute of its local day. */
  datatype Start = Start(task: string, at: int, zone: string, minute: nat)

  /** The date a moment falls on in a zone, in microseconds since a fixed moment. */
  type Zones = (int, string) -> Date

  const MICROSECONDS_PER_DAY: real := 86_400_000_000.0
  const HISTORY_LIMIT: nat := 1000

  datatype Recurrence = DAILY | WEEKLY | MONTHLY

  datatype Pattern = Pattern(task: string, recurrence: Recurrence, count: nat, hour: nat, minute: nat, zone: string,
                             nextDate: Date, confidence: real)

  ghost predicate ValidZones(zones: Zones) {
    forall at, zone :: ValidDate(zones(at, zone))
  }

  function LocalDay(zones: Zones, s: Start): Date {
    zones(s.at, s.zone)
  }

  // ------------------------------------------------------------------ which starts count

  /** The rows a query returns: the newest thousand of the user, oldest first. */
  function Recent(history: seq<Start>): seq<Start> {
    if |history| <= HISTORY_LIMIT then history else history[|history| - HISTORY_LIMIT..]
  }

  function OfTask(starts: seq<Start>, task: string): seq<Start>
    decreases |starts|
  {
    if starts == [] then []
    else
      var n := |starts| - 1;
      OfTask(starts[..n], task) + if starts[n].task == task then [starts[n]] else []
  }

  /** The first start of each local day. */
  function FirstPerDay(starts: seq<Start>, zones: Zones): (firsts: seq<Start>)
    ensures forall s :: s in firsts ==> s in starts
    ensures |firsts| <= |starts|
    decreases |starts|
  {
    if starts == [] then []
    else
      var n := |starts| - 1;
      var before := FirstPerDay(starts[..n], zones);
      if DayCounted(before, zones, LocalDay(zones, starts[n])) then before else before + [starts[n]]
  }

  predicate DayCounted(starts: seq<Start>, zones: Zones, day: Date) {
    exists s :: s in starts && LocalDay(zones, s) == day
  }

  /** Exactly one start for every local day there is one on, and no later than any of that day. */
  lemma {:induction false} OnePerDay(starts: seq<Start>, zones: Zones, day: Date)
    ensures DayCounted(starts, zones, day) <==> DayCounted(FirstPerDay(starts, zones), zones, day)
    ensures var firsts := FirstPerDay(starts, zones);
      forall i, j :: 0 <= i < j < |firsts| ==> LocalDay(zones, firsts[i]) != LocalDay(zones, firsts[j])
    decreases |starts|
  {
    if starts != [] {
      var n := |starts| - 1;
      assert starts == starts[..n] + [starts[n]];
      OnePerDay(starts[..n], zones, day);
      var before := FirstPerDay(starts[..n], zones);
      var today := LocalDay(zones, starts[n]);
      if !DayCounted(before, zones, today) {
        assert starts[n] in before + [starts[n]];
        forall i | 0 <= i < |before| ensures LocalDay(zones, before[i]) != today { assert before[i] in before; }
      }
    }
  }

  // ------------------------------------------------------------------ medians

  function Insert(x: real, sorted: seq<real>): seq<real>
    decreases |sorted|
  {
    if sorted == [] || x <= sorted[0] then [x] + sorted else [sorted[0]] + Insert(x, sorted[1..])
  }

  function Sort(values: seq<real>): seq<real>
    decreases |values|
  {
    if values == [] then [] else Insert(values[0], Sort(values[1..]))
  }

  /** The middle value, or the mean of the two in the middle. */
  function Median(values: seq<real>): real
    requires values != []
  {
    SortIsSorted(values);
    var s := Sort(values);
    var n := |s|;
    if n % 2 == 1 then s[n / 2] else (s[n / 2 - 1] + s[n / 2]) / 2.0
  }

  ghost predicate Ascends(s: seq<real>) {
    forall i, j :: 0 <= i < j < |s| ==> s[i] <= s[j]
  }

  lemma {:induction false} InsertKeeps(x: real, sorted: seq<real>)
    requires Ascends(sorted)
    ensures Ascends(Insert(x, sorted)) && multiset(Insert(x, sorted)) == multiset(sorted) + multiset{x}
    ensures |Insert(x, sorted)| == |sorted| + 1
    decreases |sorted|
  {
    if sorted == [] || x <= sorted[0] {
      assert multiset([x] + sorted) == multiset{x} + multiset(sorted);
    } else {
      InsertKeeps(x, sorted[1..]);
      InsertBehind(sorted, x, Insert(x, sorted[1..]));
    }
  }

  lemma InsertBehind(sorted: seq<real>, x: real, rest: seq<real>)
    requires sorted != [] && Ascends(sorted) && Ascends(rest) && sorted[0] <= x
    requires multiset(rest) == multiset(sorted[1..]) + multiset{x}
    ensures Ascends([sorted[0]] + rest) && multiset([sorted[0]] + rest) == multiset(sorted) + multiset{x}
  {
    forall i | 0 <= i < |rest| ensures sorted[0] <= rest[i] {
      assert rest[i] in multiset(rest);
      assert rest[i] == x || rest[i] in sorted[1..];
    }
    assert sorted == [sorted[0]] + sorted[1..];
  }

  lemma {:induction false} SortIsSorted(values: seq<real>)
    ensures Ascends(Sort(values)) && multiset(Sort(values)) == multiset(values) && |Sort(values)| == |values|
    decreases |values|
  {
    if values != [] {
      SortIsSorted(values[1..]);
      InsertKeeps(values[0], Sort(values[1..]));
      assert values == [values[0]] + values[1..];
    }
  }

  /** The median lies within any bounds of the values. */
  lemma MedianBetween(values: seq<real>, low: real, high: real)
    requires values != [] && forall i :: 0 <= i < |values| ==> low <= values[i] <= high
    ensures low <= Median(values) <= high
  {
    SortIsSorted(values);
    var s := Sort(values);
    forall i | 0 <= i < |s| ensures low <= s[i] <= high { MemberOf(s, values, i); }
  }

  lemma MemberOf(s: seq<real>, values: seq<real>, i: nat)
    requires multiset(s) == multiset(values) && i < |s|
    ensures exists j :: 0 <= j < |values| && values[j] == s[i]
  {
    assert s[i] in multiset(s);
    assert s[i] in values;
  }

  lemma HalfEvenBetween(y: real, low: int, high: int)
    requires low as real <= y <= high as real
    ensures low <= HalfEven(y) <= high
  {
  }

  // ------------------------------------------------------------------ the pattern

  function MaxReal(a: real, b: real): real { if a < b then b else a }
  function MinReal(a: real, b: real): real { if a < b then a else b }

  /** The gaps between consecutive starts, in days. */
  function Gaps(starts: seq<Start>): (gaps: seq<real>)
    ensures |starts| >= 1 ==> |gaps| == |starts| - 1
    ensures forall g :: g in gaps ==> g >= 0.01
    decreases |starts|
  {
    if |starts| < 2 then []
    else
      var n := |starts| - 1;
      Gaps(starts[..n]) + [MaxReal((starts[n].at - starts[n - 1].at) as real / MICROSECONDS_PER_DAY, 0.01)]
  }

  function MinutesOf(starts: seq<Start>): seq<real> {
    seq(|starts|, i requires 0 <= i < |starts| => starts[i].minute as real)
  }

  function DaysOf(starts: seq<Start>, zones: Zones, zone: string): seq<real> {
    seq(|starts|, i requires 0 <= i < |starts| => zones(starts[i].at, zone).day as real)
  }

  /** The recurrence a median gap means, and the interval in days. */
  function Classify(gap: real): (kind: Option<(Recurrence, int)>)
    ensures kind.Some? ==> kind.value.1 >= 1
  {
    if gap <= 2.0 then Some((DAILY, if HalfEven(gap) < 1 then 1 else HalfEven(gap)))
    else if 5.0 <= gap <= 10.0 then Some((WEEKLY, if HalfEven(gap) < 7 then 7 else HalfEven(gap)))
    else if 24.0 <= gap <= 38.0 then Some((MONTHLY, HalfEven(gap)))
    else None
  }

  /** The spread of the gaps: any non-negative number. */
  type Spread = seq<real> -> real

  function Confidence(count: nat, gaps: seq<real>, gap: real, spread: Spread): real {
    var regularity := if |gaps| > 1 && gap > 0.0 then MaxReal(0.0, 1.0 - spread(gaps) / gap) else 1.0;
    var bonus := if count < 2 then 0 else if count - 2 > 4 then 4 else count - 2;
    var raw := MinReal(0.98, 0.55 + bonus as real * 0.07 + regularity * 0.15);
    HalfEven(raw * 1000.0) as real / 1000.0
  }

  function NextDate(recurrence: Recurrence, interval: nat, last: Date, typicalDay: int): Date {
    if recurrence.MONTHLY? then InNextMonth(last, typicalDay) else AddDays(last, interval)
  }

  /** The pattern of counted starts that are `gaps` apart. */
  function PatternFrom(items: seq<Start>, gaps: seq<real>, zones: Zones, spread: Spread): Option<Pattern>
    requires items != [] && gaps != []
  {
    var gap := Median(gaps);
    var kind := Classify(gap);
    if kind.None? then None
    else
      var last := items[|items| - 1];
      var minute := HalfEven(Median(MinutesOf(items)));
      Some(Pattern(last.task, kind.value.0, |items|, (minute / 60) % 24, minute % 60, last.zone,
                   NextDate(kind.value.0, kind.value.1, LocalDay(zones, last), TypicalDayOf(items, zones)),
                   Confidence(|items|, gaps, gap, spread)))
  }

  /** The median day of the month, in the zone of the last counted start. */
  function TypicalDayOf(items: seq<Start>, zones: Zones): int
    requires items != []
  {
    HalfEven(Median(DaysOf(items, zones, items[|items| - 1].zone)))
  }

  function PatternOf(starts: seq<Start>, zones: Zones, spread: Spread): Option<Pattern> {
    var items := FirstPerDay(starts, zones);
    if |items| < 2 then None else PatternFrom(items, Gaps(items), zones, spread)
  }

  // ------------------------------------------------------------------ what a pattern promises

  /** There is a pattern exactly when there are starts on two local days and their median
      gap is daily, weekly or monthly. */
  lemma {:induction false} PatternExactlyWhen(starts: seq<Start>, zones: Zones, spread: Spread)
    ensures var items := FirstPerDay(starts, zones);
      PatternOf(starts, zones, spread).Some? <==>
        |items| >= 2 &&
          (Median(Gaps(items)) <= 2.0 || 5.0 <= Median(Gaps(items)) <= 10.0 || 24.0 <= Median(Gaps(items)) <= 38.0)
    ensures (exists s, t :: s in starts && t in starts && LocalDay(zones, s) != LocalDay(zones, t)) <==>
      |FirstPerDay(starts, zones)| >= 2
  {
    var items := FirstPerDay(starts, zones);
    if |items| >= 2 {
      var gap := Median(Gaps(items));
      if gap > 2.0 { HalfEvenBetween(gap, 2, gap.Floor + 1); }
      OnePerDay(starts, zones, LocalDay(zones, items[0]));
      assert items[0] in starts && items[1] in starts;
    }
    forall s, t | s in starts && t in starts && LocalDay(zones, s) != LocalDay(zones, t) ensures |items| >= 2 {
      OnePerDay(starts, zones, LocalDay(zones, s));
      OnePerDay(starts, zones, LocalDay(zones, t));
    }
  }

  /** The next due date is a real date strictly after the last counted day: the interval
      later, or in the very next month on the typical day clipped to that month. */
  lemma NextDateIsLater(recurrence: Recurrence, interval: nat, last: Date, typicalDay: int)
    requires ValidDate(last) && interval >= 1 && typicalDay >= 1
    ensures var next := NextDate(recurrence, interval, last, typicalDay);
      && ValidDate(next) && Before(last, next)
      && (if recurrence.MONTHLY? then
            var (year, month) := NextMonth(last);
            next.year == year && next.month == month
            && next.day == if typicalDay < MonthLength(year, month) then typicalDay else MonthLength(year, month)
          else Ordinal(next) == Ordinal(last) + interval)
  {
    if recurrence.MONTHLY? {
      InNextMonthIsLater(last, typicalDay);
    } else {
      AddDaysAdds(last, interval);
      BeforeIsOrdinal(last, AddDays(last, interval));
    }
  }

  lemma ConfidenceIsBounded(count: nat, gaps: seq<real>, gap: real, spread: Spread)
    requires gap > 0.0 && spread(gaps) >= 0.0
    ensures 0.55 <= Confidence(count, gaps, gap, spread) <= 0.98
  {
    var regularity := if |gaps| > 1 && gap > 0.0 then MaxReal(0.0, 1.0 - spread(gaps) / gap) else 1.0;
    assert spread(gaps) / gap >= 0.0;
    assert 0.0 <= regularity <= 1.0;
    var bonus := if count < 2 then 0 else if count - 2 > 4 then 4 else count - 2;
    var raw := MinReal(0.98, 0.55 + bonus as real * 0.07 + regularity * 0.15);
    assert 550.0 <= raw * 1000.0 <= 980.0;
    HalfEvenBetween(raw * 1000.0, 550, 980);
  }

  lemma GapsAreAtLeast(starts: seq<Start>)
    requires |starts| >= 2
    ensures Median(Gaps(starts)) > 0.0
  {
    var gaps := Gaps(starts);
    forall i | 0 <= i < |gaps| ensures gaps[i] >= 0.01 { assert gaps[i] in gaps; }
    MedianAtLeast(gaps, 0.01);
  }

  lemma MedianAtLeast(values: seq<real>, low: real)
    requires values != [] && forall i :: 0 <= i < |values| ==> low <= values[i]
    ensures low <= Median(values)
  {
    SortIsSorted(values);
    var s := Sort(values);
    forall i | 0 <= i < |s| ensures low <= s[i] { MemberOf(s, values, i); }
  }

  /** What every inferred pattern promises: at least two local days, a time of day, a later
      valid due date of the right distance, and a confidence in its range. */
  lemma {:induction false} PatternPromises(starts: seq<Start>, zones: Zones, spread: Spread)
    requires ValidZones(zones) && (forall gaps :: spread(gaps) >= 0.0)
    requires forall s :: s in starts ==> s.minute < 1440
    requires PatternOf(starts, zones, spread).Some?
    ensures var pattern := PatternOf(starts, zones, spread).value;
      var items := FirstPerDay(starts, zones);
      var last := items[|items| - 1];
      && pattern.count == |items| >= 2
      && pattern.hour < 24 && pattern.minute < 60 && pattern.zone == last.zone
      && 60 * pattern.hour + pattern.minute == HalfEven(Median(MinutesOf(items)))
      && ValidDate(pattern.nextDate) && Before(LocalDay(zones, last), pattern.nextDate)
      && (match pattern.recurrence
          case DAILY => 1 <= Ordinal(pattern.nextDate) - Ordinal(LocalDay(zones, last)) <= 2
          case WEEKLY => 7 <= Ordinal(pattern.nextDate) - Ordinal(LocalDay(zones, last)) <= 10
          case MONTHLY => pattern.nextDate == InNextMonth(LocalDay(zones, last), TypicalDayOf(items, zones)))
      && 0.55 <= pattern.confidence <= 0.98
  {
    var items := FirstPerDay(starts, zones);
    var gaps := Gaps(items);
    var gap := Median(gaps);
    GapsAreAtLeast(items);
    ConfidenceIsBounded(|items|, gaps, gap, spread);
    var last := items[|items| - 1];
    TypicalDay(items, zones);
    TypicalMinute(items);
    ClockTime(HalfEven(Median(MinutesOf(items))));
    DueDate(gap, LocalDay(zones, last), TypicalDayOf(items, zones));
  }

  lemma ClockTime(minute: int)
    requires 0 <= minute < 1440
    ensures 0 <= (minute / 60) % 24 < 24 && 60 * ((minute / 60) % 24) + minute % 60 == minute
  {
  }

  lemma DueDate(gap: real, last: Date, typicalDay: int)
    requires gap > 0.0 && Classify(gap).Some? && ValidDate(last) && typicalDay >= 1
    ensures var kind := Classify(gap).value;
      var next := NextDate(kind.0, kind.1, last, typicalDay);
      && ValidDate(next) && Before(last, next)
      && (match kind.0
          case DAILY => 1 <= Ordinal(next) - Ordinal(last) <= 2
          case WEEKLY => 7 <= Ordinal(next) - Ordinal(last) <= 10
          case MONTHLY => next == InNextMonth(last, typicalDay))
  {
    IntervalOf(gap);
    var kind := Classify(gap).value;
    NextDateIsLater(kind.0, kind.1, last, typicalDay);
  }

  lemma IntervalOf(gap: real)
    requires gap > 0.0 && Classify(gap).Some?
    ensures match Classify(gap).value.0
      case DAILY => 1 <= Classify(gap).value.1 <= 2
      case WEEKLY => 7 <= Classify(gap).value.1 <= 10
      case MONTHLY => 24 <= Classify(gap).value.1 <= 38
  {
  }

  lemma TypicalMinute(items: seq<Start>)
    requires items != [] && forall s :: s in items ==> s.minute < 1440
    ensures 0 <= HalfEven(Median(MinutesOf(items))) < 1440
  {
    var minutes := MinutesOf(items);
    forall i | 0 <= i < |minutes| ensures 0.0 <= minutes[i] <= 1439.0 {
      assert items[i] in items;
    }
    MedianBetween(minutes, 0.0, 1439.0);
    HalfEvenBetween(Median(minutes), 0, 1439);
  }

  lemma TypicalDay(items: seq<Start>, zones: Zones)
    requires items != [] && ValidZones(zones)
    ensures 1 <= TypicalDayOf(items, zones) <= 31
  {
    var zone := items[|items| - 1].zone;
    var days := DaysOf(items, zones, zone);
    forall i | 0 <= i < |days| ensures 1.0 <= days[i] <= 31.0 {
      assert ValidDate(zones(items[i].at, zone));
    }
    MedianBetween(days, 1.0, 31.0);
    HalfEvenBetween(Median(days), 1, 31);
  }

  // ------------------------------------------------------------------ due after the last start

  /** The local days of the starts, each in its own zone, never go back. */
  ghost predicate DaysAscend(starts: seq<Start>, zones: Zones) {
    forall i, j :: 0 <= i < j < |starts| ==> !Before(LocalDay(zones, starts[j]), LocalDay(zones, starts[i]))
  }

  /** All starts are in one zone and in order, and the date of that zone never goes back. */
  ghost predicate OneZone(starts: seq<Start>, zones: Zones, zone: string) {
    && (forall s :: s in starts ==> s.zone == zone)
    && (forall i, j :: 0 <= i < j < |starts| ==> starts[i].at <= starts[j].at)
    && (forall from, until :: from <= until ==> !Before(zones(until, zone), zones(from, zone)))
  }

  lemma OneZoneAscends(starts: seq<Start>, zones: Zones, zone: string)
    requires OneZone(starts, zones, zone)
    ensures DaysAscend(starts, zones)
  {
    forall i, j | 0 <= i < j < |starts| ensures !Before(LocalDay(zones, starts[j]), LocalDay(zones, starts[i])) {
      assert starts[i] in starts && starts[j] in starts;
    }
  }

  /** The local day of the last counted start. */
  function LastCountedDay(starts: seq<Start>, zones: Zones): Option<Date> {
    var items := FirstPerDay(starts, zones);
    if items == [] then None else Some(LocalDay(zones, items[|items| - 1]))
  }

  /** If the days never go back, the day of the last start is the last counted day. */
  lemma {:induction false} LastDayIsCounted(starts: seq<Start>, zones: Zones)
    requires starts != [] && DaysAscend(starts, zones)
    ensures LastCountedDay(starts, zones) == Some(LocalDay(zones, starts[|starts| - 1]))
    decreases |starts|
  {
    var n := |starts| - 1;
    if n > 0 {
      AscendBefore(starts, zones);
      LastDayIsCounted(starts[..n], zones);
      assert starts[..n][n - 1] == starts[n - 1];
      if DayCounted(FirstPerDay(starts[..n], zones), zones, LocalDay(zones, starts[n])) {
        RepeatedDayIsLatest(starts, zones);
      }
    }
    LastCountedStep(starts, zones);
  }

  lemma {:induction false} LastCountedStep(starts: seq<Start>, zones: Zones)
    requires starts != []
    ensures var n := |starts| - 1;
      LastCountedDay(starts, zones) ==
        if DayCounted(FirstPerDay(starts[..n], zones), zones, LocalDay(zones, starts[n]))
          then LastCountedDay(starts[..n], zones)
        else Some(LocalDay(zones, starts[n]))
    ensures |starts| == 1 ==> FirstPerDay(starts[..0], zones) == []
  {
  }

  lemma AscendBefore(starts: seq<Start>, zones: Zones)
    requires starts != [] && DaysAscend(starts, zones)
    ensures DaysAscend(starts[..|starts| - 1], zones)
  {
  }

  /** A day that comes again at the end has lasted since it came first. */
  lemma {:induction false} RepeatedDayIsLatest(starts: seq<Start>, zones: Zones)
    requires |starts| > 1 && DaysAscend(starts, zones)
    requires DayCounted(FirstPerDay(starts[..|starts| - 1], zones), zones, LocalDay(zones, starts[|starts| - 1]))
    ensures LocalDay(zones, starts[|starts| - 2]) == LocalDay(zones, starts[|starts| - 1])
  {
    var n := |starts| - 1;
    var s :| s in FirstPerDay(starts[..n], zones) && LocalDay(zones, s) == LocalDay(zones, starts[n]);
    assert s in starts[..n];
    var i :| 0 <= i < n && starts[i] == s;
    SameDay(LocalDay(zones, starts[n - 1]), LocalDay(zones, starts[n]));
  }

  lemma SameDay(a: Date, b: Date)
    requires !Before(a, b) && !Before(b, a)
    ensures a == b
  {
  }

  /** With the days of the starts in order the next due date is strictly after the local
      date of the last start of all, counted or not. */
  lemma {:induction false} DueAfterLastStart(starts: seq<Start>, zones: Zones, spread: Spread)
    requires ValidZones(zones) && DaysAscend(starts, zones) && PatternOf(starts, zones, spread).Some?
    ensures Before(LocalDay(zones, starts[|starts| - 1]), PatternOf(starts, zones, spread).value.nextDate)
  {
    LastDayIsCounted(starts, zones);
    DueAfterLastCounted(starts, zones, spread);
  }

  /** So it is for a participant who stays in one zone. */
  lemma {:induction false} DueAfterLastStartInOneZone(starts: seq<Start>, zones: Zones, zone: string, spread: Spread)
    requires ValidZones(zones) && OneZone(starts, zones, zone) && PatternOf(starts, zones, spread).Some?
    ensures Before(LocalDay(zones, starts[|starts| - 1]), PatternOf(starts, zones, spread).value.nextDate)
  {
    OneZoneAscends(starts, zones, zone);
    DueAfterLastStart(starts, zones, spread);
  }

  lemma {:induction false} DueAfterLastCounted(starts: seq<Start>, zones: Zones, spread: Spread)
    requires ValidZones(zones) && PatternOf(starts, zones, spread).Some?
    ensures var items := FirstPerDay(starts, zones);
      var last := LocalDay(zones, items[|items| - 1]);
      var pattern := PatternOf(starts, zones, spread).value;
      && Median(Gaps(items)) > 0.0 && Classify(Median(Gaps(items))).Some? && TypicalDayOf(items, zones) >= 1
      && pattern.recurrence == Classify(Median(Gaps(items))).value.0
      && pattern.nextDate
           == NextDate(pattern.recurrence, Classify(Median(Gaps(items))).value.1, last, TypicalDayOf(items, zones))
      && ValidDate(pattern.nextDate) && Before(last, pattern.nextDate)
  {
    var items := FirstPerDay(starts, zones);
    GapsAreAtLeast(items);
    TypicalDay(items, zones);
    DueDate(Median(Gaps(items)), LocalDay(zones, items[|items| - 1]), TypicalDayOf(items, zones));
  }

  /** How far the day of the last start may be past the last counted day: less than the one
      or two days of a daily gap, less than the weekly interval, or not up to the typical
      day of the next month. */
  predicate NotTooFar(gap: real, typicalDay: int, counted: Date, latest: Date)
    requires Classify(gap).Some? && counted.month >= 0 && latest.month >= 0
  {
    match Classify(gap).value.0
    case DAILY => Ordinal(latest) - Ordinal(counted) < if gap < 1.5 then 1 else 2
    case WEEKLY => Ordinal(latest) - Ordinal(counted) < if gap < 7.5 then 7 else HalfEven(gap)
    case MONTHLY =>
      var months := 12 * (latest.year - counted.year) + latest.month - counted.month;
      var (year, month) := NextMonth(counted);
      months < 1 || (months == 1 && latest.day < typicalDay && latest.day < MonthLength(year, month))
  }

  /** For any zones whatever, the due date is strictly after the last start exactly when its
      local day is not too far past the last counted one. */
  lemma {:induction false} DueAfterLastStartExactly(starts: seq<Start>, zones: Zones, spread: Spread)
    requires ValidZones(zones) && PatternOf(starts, zones, spread).Some?
    ensures var items := FirstPerDay(starts, zones);
      var gap := Median(Gaps(items));
      var latest := LocalDay(zones, starts[|starts| - 1]);
      Classify(gap).Some? &&
      (Before(latest, PatternOf(starts, zones, spread).value.nextDate) <==>
         NotTooFar(gap, TypicalDayOf(items, zones), LocalDay(zones, items[|items| - 1]), latest))
  {
    var items := FirstPerDay(starts, zones);
    DueAfterLastCounted(starts, zones, spread);
    FarExactly(Median(Gaps(items)), TypicalDayOf(items, zones), LocalDay(zones, items[|items| - 1]),
      LocalDay(zones, starts[|starts| - 1]));
  }

  lemma FarExactly(gap: real, typicalDay: int, counted: Date, latest: Date)
    requires gap > 0.0 && Classify(gap).Some? && typicalDay >= 1 && ValidDate(counted) && ValidDate(latest)
    ensures var kind := Classify(gap).value;
      Before(latest, NextDate(kind.0, kind.1, counted, typicalDay)) <==> NotTooFar(gap, typicalDay, counted, latest)
  {
    var kind := Classify(gap).value;
    NextDateIsLater(kind.0, kind.1, counted, typicalDay);
    if !kind.0.MONTHLY? { BeforeIsOrdinal(latest, AddDays(counted, kind.1)); }
  }

  // ------------------------------------------------------------------ travelling

  /** No two zones are ever more than two dates apart, and no date ever goes back. */
  ghost predicate EarthZones(zones: Zones) {
    && ValidZones(zones)
    && (forall at, a, b :: Ordinal(zones(at, a)) <= Ordinal(zones(at, b)) + 2)
    && (forall from, until, zone :: from <= until ==> Ordinal(zones(from, zone)) <= Ordinal(zones(until, zone)))
  }

  predicate NearDay(zones: Zones, s: Start, later: Start) {
    ValidDate(LocalDay(zones, s)) && ValidDate(LocalDay(zones, later)) &&
      Ordinal(LocalDay(zones, s)) <= Ordinal(LocalDay(zones, later)) + 2
  }

  lemma LaterIsNear(zones: Zones)
    requires EarthZones(zones)
    ensures forall s: Start, later: Start :: s.at <= later.at ==> NearDay(zones, s, later)
  {
    forall s: Start, later: Start | s.at <= later.at ensures NearDay(zones, s, later) {
      assert Ordinal(zones(s.at, s.zone)) <= Ordinal(zones(later.at, s.zone));
      assert Ordinal(zones(later.at, s.zone)) <= Ordinal(zones(later.at, later.zone)) + 2;
    }
  }

  /** Wherever the starts were, the last one is at most two days past the last counted day. */
  lemma {:induction false} LastStartIsNear(starts: seq<Start>, zones: Zones)
    requires ValidZones(zones) && starts != []
    requires forall s: Start, later: Start :: s.at <= later.at ==> NearDay(zones, s, later)
    requires forall i, j :: 0 <= i < j < |starts| ==> starts[i].at <= starts[j].at
    ensures var items := FirstPerDay(starts, zones);
      && items != [] && items[|items| - 1] in starts
      && Ordinal(LocalDay(zones, starts[|starts| - 1])) <= Ordinal(LocalDay(zones, items[|items| - 1])) + 2
      && forall s :: s in items ==> s.at <= items[|items| - 1].at
    decreases |starts|
  {
    var n := |starts| - 1;
    var before := FirstPerDay(starts[..n], zones);
    var today := LocalDay(zones, starts[n]);
    assert starts[n] in starts;
    if n > 0 {
      LastStartIsNear(starts[..n], zones);
      if DayCounted(before, zones, today) {
        var s :| s in before && LocalDay(zones, s) == today;
        assert NearDay(zones, s, before[|before| - 1]);
      } else {
        forall s | s in before ensures s.at <= starts[n].at {
          assert s in starts[..n];
        }
      }
    }
  }

  /** So a weekly routine is due strictly after the last start wherever the participant
      travels; only a daily one and the turn of a month can fall on it. */
  lemma {:induction false} WeeklyIsDueLater(starts: seq<Start>, zones: Zones, spread: Spread)
    requires EarthZones(zones) && PatternOf(starts, zones, spread).Some?
    requires forall i, j :: 0 <= i < j < |starts| ==> starts[i].at <= starts[j].at
    requires PatternOf(starts, zones, spread).value.recurrence.WEEKLY?
    ensures Before(LocalDay(zones, starts[|starts| - 1]), PatternOf(starts, zones, spread).value.nextDate)
  {
    LaterIsNear(zones);
    LastStartIsNear(starts, zones);
    DueAfterLastCounted(starts, zones, spread);
    DueAfterLastStartExactly(starts, zones, spread);
    var items := FirstPerDay(starts, zones);
    TwoDaysAreNear(Median(Gaps(items)), TypicalDayOf(items, zones), LocalDay(zones, items[|items| - 1]),
                   LocalDay(zones, starts[|starts| - 1]));
  }

  lemma TwoDaysAreNear(gap: real, typicalDay: int, counted: Date, latest: Date)
    requires gap > 0.0 && Classify(gap).Some? && Classify(gap).value.0.WEEKLY?
    requires ValidDate(counted) && ValidDate(latest) && Ordinal(latest) <= Ordinal(counted) + 2
    ensures NotTooFar(gap, typicalDay, counted, latest)
  {
    IntervalOf(gap);
  }

  const HOUR: int := 3_600_000_000

  /** Two zones at fixed offsets, twelve hours ahead and eight behind, counted in days since
      the first of January 2024. */
  function TwoZones(at: int, zone: string): Date {
    var day := (at + (if zone == "east" then 12 else -8) * HOUR) / (24 * HOUR);
    AddDays(Date(2024, 1, 1), if day < 0 then 0 else day)
  }

  function Traveller(): seq<Start> {
    [Start("task", 85 * HOUR, "east", 60), Start("task", 86 * HOUR, "west", 360),
      Start("task", 117 * HOUR, "west", 780)]
  }

  /** A participant who travels west can be reminded for the very day of the last start. */
  lemma {:induction false} TravellerIsDueToday(spread: Spread)
    ensures var starts := Traveller();
      && LocalDay(TwoZones, starts[2]) == Date(2024, 1, 5)
      && PatternOf(starts, TwoZones, spread).Some?
      && PatternOf(starts, TwoZones, spread).value.recurrence.DAILY?
      && PatternOf(starts, TwoZones, spread).value.nextDate == Date(2024, 1, 5)
  {
    TravellerDays();
    TravellerCounted();
    var starts := Traveller();
    var gaps := Gaps(starts[..2]);
    TravellerGap();
    assert starts[..2][1] == starts[1];
    assert AddDays(Date(2024, 1, 4), 1) == NextDay(AddDays(Date(2024, 1, 4), 0)) == Date(2024, 1, 5);
  }

  lemma {:induction false} TravellerDays()
    ensures var starts := Traveller();
      && LocalDay(TwoZones, starts[0]) == Date(2024, 1, 5)
      && LocalDay(TwoZones, starts[1]) == Date(2024, 1, 4)
      && LocalDay(TwoZones, starts[2]) == Date(2024, 1, 5)
  {
    var first := Date(2024, 1, 1);
    assert AddDays(first, 1) == NextDay(AddDays(first, 0)) == Date(2024, 1, 2);
    assert AddDays(first, 2) == Date(2024, 1, 3);
    assert AddDays(first, 3) == Date(2024, 1, 4);
    assert AddDays(first, 4) == Date(2024, 1, 5);
  }

  lemma {:induction false} TravellerCounted()
    ensures FirstPerDay(Traveller(), TwoZones) == Traveller()[..2]
  {
    var starts := Traveller();
    TravellerDays();
    TwoDays(starts[0], starts[1], TwoZones);
    assert starts[..2] == [starts[0], starts[1]];
    assert starts[0] in starts[..2];
    assert DayCounted(starts[..2], TwoZones, LocalDay(TwoZones, starts[2]));
  }

  lemma {:induction false} TravellerGap()
    ensures var gaps := Gaps(Traveller()[..2]);
      gaps != [] && Classify(Median(gaps)) == Some((DAILY, 1))
  {
    var two := Traveller()[..2];
    var gaps := Gaps(two);
    assert two[..1] == [two[0]] && Gaps(two[..1]) == [];
    assert gaps == [1.0 / 24.0];
    assert gaps[1..] == [] && Sort(gaps) == Insert(gaps[0], Sort([])) == [1.0 / 24.0];
    assert Median(gaps) == 1.0 / 24.0;
  }

  // ------------------------------------------------------------------ one more start

  lemma LastOfTask(starts: seq<Start>, s: Start, task: string)
    ensures OfTask(starts + [s], task) == OfTask(starts, task) + if s.task == task then [s] else []
  {
    assert (starts + [s])[..|starts|] == starts;
  }

  /** A start on a local day that is already counted leaves the counted starts alone. */
  lemma RepeatIgnored(starts: seq<Start>, s: Start, zones: Zones)
    requires DayCounted(starts, zones, LocalDay(zones, s))
    ensures FirstPerDay(starts + [s], zones) == FirstPerDay(starts, zones)
  {
    assert (starts + [s])[..|starts|] == starts;
    OnePerDay(starts, zones, LocalDay(zones, s));
  }

  /** One more start, latest of all, of a task on a local day that counts already: what the
      query would have returned without it, less the oldest row once the limit is reached,
      decides every task's pattern. Under the limit nothing changes. */
  lemma {:induction false} RepeatedDayChangesNothing(history: seq<Start>, s: Start, task: string, zones: Zones,
                                                     spread: Spread)
    requires var kept := if |history| < HISTORY_LIMIT then history else history[|history| - HISTORY_LIMIT + 1..];
      DayCounted(OfTask(kept, s.task), zones, LocalDay(zones, s))
    ensures var kept := if |history| < HISTORY_LIMIT then history else history[|history| - HISTORY_LIMIT + 1..];
      PatternOf(OfTask(Recent(history + [s]), task), zones, spread) == PatternOf(OfTask(kept, task), zones, spread)
    ensures |history| < HISTORY_LIMIT ==> Recent(history) == history
  {
    var kept := if |history| < HISTORY_LIMIT then history else history[|history| - HISTORY_LIMIT + 1..];
    assert Recent(history + [s]) == kept + [s];
    RepeatKeepsPattern(kept, s, task, zones, spread);
  }

  lemma {:induction false} RepeatKeepsPattern(kept: seq<Start>, s: Start, task: string, zones: Zones, spread: Spread)
    requires DayCounted(OfTask(kept, s.task), zones, LocalDay(zones, s))
    ensures PatternOf(OfTask(kept + [s], task), zones, spread) == PatternOf(OfTask(kept, task), zones, spread)
  {
    LastOfTask(kept, s, task);
    if s.task == task {
      RepeatIgnored(OfTask(kept, task), s, zones);
    } else {
      assert OfTask(kept, task) + [] == OfTask(kept, task);
    }
  }

  lemma {:induction false} WithoutFirst(starts: seq<Start>, task: string)
    requires starts != []
    ensures OfTask(starts, task) == (if starts[0].task == task then [starts[0]] else []) + OfTask(starts[1..], task)
    decreases |starts|
  {
    var n := |starts| - 1;
    if n > 0 {
      WithoutFirst(starts[..n], task);
      assert starts[..n][1..] == starts[1..][..n - 1];
    }
  }

  /** At the limit it may: when the oldest row is one of a task's only two starts, repeating
      the other one's day forgets the pattern. */
  lemma {:induction false} LimitForgets(history: seq<Start>, s: Start, task: string, b: Start, zones: Zones,
                                        spread: Spread)
    requires |history| == HISTORY_LIMIT && OfTask(history, task) == [history[0], b] && history[0].task == task
    requires s.task == task && LocalDay(zones, s) == LocalDay(zones, b) != LocalDay(zones, history[0])
    ensures |FirstPerDay(OfTask(Recent(history), task), zones)| == 2
    ensures PatternOf(OfTask(Recent(history + [s]), task), zones, spread) == None
  {
    WithoutFirst(history, task);
    assert OfTask(history[1..], task) == OfTask(history, task)[1..] == [b];
    assert history[|history| - HISTORY_LIMIT + 1..] == history[1..];
    assert b in [b];
    RepeatedDayChangesNothing(history, s, task, zones, spread);
    TwoDays(history[0], b, zones);
  }

  lemma TwoDays(a: Start, b: Start, zones: Zones)
    requires LocalDay(zones, a) != LocalDay(zones, b)
    ensures FirstPerDay([a, b], zones) == [a, b] && FirstPerDay([b], zones) == [b]
  {
    assert FirstPerDay([], zones) == [];
    assert [a][..0] == [] && [b][..0] == [];
    assert FirstPerDay([a], zones) == [] + [a] && FirstPerDay([b], zones) == [] + [b];
    assert [a, b][..1] == [a];
  }

  // ------------------------------------------------------------------ the loops

  method GroupByTask(starts: seq<Start>) returns (grouped: map<string, seq<Start>>)
    ensures forall task ::
      (task in grouped <==> OfTask(starts, task) != []) && (task in grouped ==> grouped[task] == OfTask(starts, task))
  {
    grouped := map[];
    for i := 0 to |starts|
      invariant forall task ::
        (task in grouped <==> OfTask(starts[..i], task) != []) &&
          (task in grouped ==> grouped[task] == OfTask(starts[..i], task))
    {
      assert starts[..i + 1] == starts[..i] + [starts[i]];
      forall task { LastOfTask(starts[..i], starts[i], task); }
      var task := starts[i].task;
      grouped := grouped[task := (if task in grouped then grouped[task] else []) + [starts[i]]];
    }
    assert starts[..|starts|] == starts;
  }

  method CountedStarts(starts: seq<Start>, zones: Zones) returns (firsts: seq<Start>)
    ensures firsts == FirstPerDay(starts, zones)
  {
    var days: set<Date> := {};
    firsts := [];
    for i := 0 to |starts|
      invariant firsts == FirstPerDay(starts[..i], zones)
      invariant forall day :: day in days <==> DayCounted(firsts, zones, day)
    {
      assert starts[..i + 1][..i] == starts[..i];
      var day := LocalDay(zones, starts[i]);
      if day !in days {
        CountDay(firsts, starts[i], zones);
        firsts := firsts + [starts[i]];
        days := days + {day};
      }
    }
    assert starts[..|starts|] == starts;
  }

  lemma CountDay(firsts: seq<Start>, s: Start, zones: Zones)
    ensures forall day :: DayCounted(firsts + [s], zones, day) <==>
      DayCounted(firsts, zones, day) || day == LocalDay(zones, s)
  {
    forall day
      ensures DayCounted(firsts + [s], zones, day) <==> DayCounted(firsts, zones, day) || day == LocalDay(zones, s)
    {
      assert s in firsts + [s];
      if DayCounted(firsts, zones, day) {
        var t :| t in firsts && LocalDay(zones, t) == day;
        assert t in firsts + [s];
      }
    }
  }

  method InferPattern(starts: seq<Start>, zones: Zones, spread: Spread) returns (pattern: Option<Pattern>)
    ensures pattern == PatternOf(starts, zones, spread)
  {
    var items := CountedStarts(starts, zones);
    if |items| < 2 { return None; }
    var gaps: seq<real> := [];
    for i := 1 to |items|
      invariant gaps == Gaps(items[..i])
    {
      assert items[..i + 1][..i] == items[..i];
      gaps := gaps + [MaxReal((items[i].at - items[i - 1].at) as real / MICROSECONDS_PER_DAY, 0.01)];
    }
    assert items[..|items|] == items;
    pattern := PatternFrom(items, gaps, zones, spread);
  }

  /** The patterns of a user by task. */
  method InferAll(history: seq<Start>, zones: Zones, spread: Spread) returns (patterns: map<string, Pattern>)
    ensures forall task :: Inferred(history, zones, spread, task) == if task in patterns then Some(patterns[task])
      else None
  {
    var grouped := GroupByTask(Recent(history));
    var left := grouped.Keys;
    patterns := map[];
    while left != {}
      invariant left <= grouped.Keys
      invariant forall task :: task in patterns ==> task in grouped && task !in left
      invariant forall task :: task in grouped && task !in left ==>
        PatternOf(grouped[task], zones, spread) == if task in patterns then Some(patterns[task]) else None
      decreases |left|
    {
      var task :| task in left;
      var pattern := InferPattern(grouped[task], zones, spread);
      if pattern.Some? { patterns := patterns[task := pattern.value]; }
      left := left - {task};
    }
  }

  function Inferred(history: seq<Start>, zones: Zones, spread: Spread, task: string): Option<Pattern> {
    PatternOf(OfTask(Recent(history), task), zones, spread)
  }

  lemma {:induction false} PatternIsOfTask(starts: seq<Start>, zones: Zones, spread: Spread, task: string)
    requires (forall s :: s in starts ==> s.task == task) && PatternOf(starts, zones, spread).Some?
    ensures PatternOf(starts, zones, spread).value.task == task
  {
    var items := FirstPerDay(starts, zones);
    assert items[|items| - 1] in starts;
  }

  lemma {:induction false} OfTaskOnly(starts: seq<Start>, task: string)
    ensures forall s :: s in OfTask(starts, task) ==> s.task == task
    decreases |starts|
  {
    if starts != [] { OfTaskOnly(starts[..|starts| - 1], task); }
  }

  /** The place in a list sorted by due time behind all that are due no later. */
  method PlaceFor(sorted: seq<Pattern>, pattern: Pattern, due: Pattern -> int) returns (at: nat)
    requires ByDue(sorted, due)
    ensures at <= |sorted|
    ensures forall i :: 0 <= i < at ==> due(sorted[i]) <= due(pattern)
    ensures forall i :: at <= i < |sorted| ==> due(pattern) < due(sorted[i])
  {
    at := 0;
    while at < |sorted| && due(sorted[at]) <= due(pattern)
      invariant at <= |sorted| && forall i :: 0 <= i < at ==> due(sorted[i]) <= due(pattern)
    {
      at := at + 1;
    }
  }

  ghost predicate ByDue(sorted: seq<Pattern>, due: Pattern -> int) {
    forall i, j :: 0 <= i < j < |sorted| ==> due(sorted[i]) <= due(sorted[j])
  }

  /** Each task at most once, and every pattern under its own task. */
  ghost predicate Lists(sorted: seq<Pattern>, patterns: map<string, Pattern>, tasks: set<string>) {
    && (forall i, j :: 0 <= i < j < |sorted| ==> sorted[i].task != sorted[j].task)
    && (forall p :: p in sorted <==> p.task in tasks && p.task in patterns && patterns[p.task] == p)
  }

  lemma Inserted(sorted: seq<Pattern>, at: nat, pattern: Pattern, patterns: map<string, Pattern>, tasks: set<string>)
    requires at <= |sorted| && Lists(sorted, patterns, tasks)
    requires pattern.task !in tasks && pattern.task in patterns && patterns[pattern.task] == pattern
    ensures Lists(sorted[..at] + [pattern] + sorted[at..], patterns, tasks + {pattern.task})
  {
    var after := sorted[..at] + [pattern] + sorted[at..];
    assert sorted == sorted[..at] + sorted[at..];
    forall i | 0 <= i < |sorted| ensures sorted[i].task in tasks { assert sorted[i] in sorted; }
    forall p ensures p in after <==> p in sorted || p == pattern {
      assert p in after <==> p in sorted[..at] || p == pattern || p in sorted[at..];
    }
  }

  method SortByDue(patterns: map<string, Pattern>, due: Pattern -> int) returns (sorted: seq<Pattern>)
    requires forall task :: task in patterns ==> patterns[task].task == task
    ensures ByDue(sorted, due) && Lists(sorted, patterns, patterns.Keys)
  {
    var left := patterns.Keys;
    sorted := [];
    while left != {}
      invariant left <= patterns.Keys && ByDue(sorted, due) && Lists(sorted, patterns, patterns.Keys - left)
      decreases |left|
    {
      var task :| task in left;
      var at := PlaceFor(sorted, patterns[task], due);
      Inserted(sorted, at, patterns[task], patterns, patterns.Keys - left);
      InsertedInOrder(sorted, at, patterns[task], due);
      sorted := sorted[..at] + [patterns[task]] + sorted[at..];
      assert patterns.Keys - (left - {task}) == (patterns.Keys - left) + {task};
      left := left - {task};
    }
  }

  lemma InsertedInOrder(sorted: seq<Pattern>, at: nat, pattern: Pattern, due: Pattern -> int)
    requires at <= |sorted| && ByDue(sorted, due)
    requires forall i :: 0 <= i < at ==> due(sorted[i]) <= due(pattern)
    requires forall i :: at <= i < |sorted| ==> due(pattern) < due(sorted[i])
    ensures ByDue(sorted[..at] + [pattern] + sorted[at..], due)
  {
  }

  /** The patterns of a user, the one due first at the front: one for exactly the tasks
      whose recent starts have one. */
  method Patterns(history: seq<Start>, zones: Zones, spread: Spread, due: Pattern -> int) returns (sorted: seq<Pattern>)
    ensures ByDue(sorted, due)
    ensures forall i, j :: 0 <= i < j < |sorted| ==> sorted[i].task != sorted[j].task
    ensures forall p :: p in sorted <==> Inferred(history, zones, spread, p.task) == Some(p)
    ensures forall task :: Inferred(history, zones, spread, task).Some? ==>
      Inferred(history, zones, spread, task).value.task == task
  {
    var patterns := InferAll(history, zones, spread);
    TasksMatch(history, zones, spread);
    forall task | task in patterns ensures patterns[task].task == task {
      assert Inferred(history, zones, spread, task) == Some(patterns[task]);
    }
    sorted := SortByDue(patterns, due);
  }

  lemma {:induction false} TasksMatch(history: seq<Start>, zones: Zones, spread: Spread)
    ensures forall task :: Inferred(history, zones, spread, task).Some? ==>
      Inferred(history, zones, spread, task).value.task == task
  {
    forall task | Inferred(history, zones, spread, task).Some?
      ensures Inferred(history, zones, spread, task).value.task == task
    {
      OfTaskOnly(Recent(history), task);
      PatternIsOfTask(OfTask(Recent(history), task), zones, spread, task);
    }
  }
}
