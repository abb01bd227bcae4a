/** The bounded reconciliation loop: it ends at a cycle count, a deadline, a run of failed
    cycles, or a stop request. */
module Worker {

  datatype Option<+T> = None | Some(value: T)

  datatype Schedule = Schedule(
    interval: real,
    maxCycles: Option<int>,
    maxRuntime: Option<real>,
    maxConsecutiveFailures: int)
  {
    predicate Valid() {
      && interval > 0.0
      && (maxCycles.Some? ==> maxCycles.value >= 1)
      && (maxRuntime.Some? ==> maxRuntime.value > 0.0)
      && maxConsecutiveFailures >= 1
      && (maxCycles.Some? || maxRuntime.Some?)
    }
  }

  /** How one pass ended: a report, ok or not; an error the loop counts; or any other
      exception, which leaves the loop. */
  datatype Cycle = Report(ok: bool) | Unavailable | Fatal

  /** What the loop cannot know: how each cycle ends, whether a stop was requested before
      it, and the clock. `waitedAt(k)` is read when cycle `k` is over, and the wait that
      follows is interrupted exactly when `stopDuringWait(k)`. */
  datatype World = World(
    cycle: nat -> Cycle,
    stopBefore: nat -> bool,
    stopDuringWait: nat -> bool,
    startedAt: real,
    waitedAt: nat -> real)
  {
    /** A wait that is not interrupted lasts at least its timeout. */
    ghost predicate ClockRuns(interval: real) {
      && startedAt <= waitedAt(1)
      && forall k: nat :: k >= 1 ==> waitedAt(k) + interval <= waitedAt(k + 1)
    }
  }

  predicate Failed(c: Cycle) {
    c == Unavailable || c == Report(false)
  }

  function Ceil(x: real): int {
    -((-x).Floor)
  }

  /** The failures that end at cycle `n`. */
  function Streak(cycle: nat -> Cycle, n: nat): nat
    decreases n
  {
    if n == 0 || !Failed(cycle(n)) then 0 else 1 + Streak(cycle, n - 1)
  }

  function Reports(cycle: nat -> Cycle, n: nat): seq<bool>
    decreases n
  {
    if n == 0 then []
    else Reports(cycle, n - 1) + (if cycle(n).Report? then [cycle(n).ok] else [])
  }

  datatype Verdict = Continue | End

  /** `_wait_for_next_cycle`: whether another cycle may start. */
  function Wait(schedule: Schedule, deadline: Option<real>, now: real, stopped: bool): Verdict {
    if deadline.Some? && deadline.value - now <= 0.0 then End
    else if deadline.Some? && deadline.value - now - MinReal(schedule.interval, deadline.value - now) <= 0.0 then End
    else if stopped then End
    else Continue
  }

  function MinReal(a: real, b: real): real {
    if a < b then a else b
  }

  function Deadline(schedule: Schedule, world: World): Option<real> {
    if schedule.maxRuntime.None? then None else Some(world.startedAt + schedule.maxRuntime.value)
  }

  /** Cycle `n` ran and the loop goes on to the next one. */
  predicate GoesOn(schedule: Schedule, world: World, n: nat)
    requires n >= 1
  {
    && !world.cycle(n).Fatal?
    && Streak(world.cycle, n) < schedule.maxConsecutiveFailures
    && (schedule.maxCycles.Some? ==> n < schedule.maxCycles.value)
    && Wait(schedule, Deadline(schedule, world), world.waitedAt(n), world.stopDuringWait(n)) == Continue
    && !world.stopBefore(n + 1)
  }

  ghost predicate Reached(schedule: Schedule, world: World, n: nat) {
    n >= 1 ==> !world.stopBefore(1) && forall k :: 1 <= k < n ==> GoesOn(schedule, world, k)
  }

  /** Another cycle needs strictly more than one interval before the deadline. */
  lemma WaitNeedsAnInterval(schedule: Schedule, deadline: real, now: real, stopped: bool)
    requires schedule.interval > 0.0
    ensures Wait(schedule, Some(deadline), now, stopped) == Continue <==> !stopped && deadline - now > schedule.interval
  {
  }

  /** Cycle `k` is over no earlier than `k - 1` intervals after the start. */
  lemma {:induction false} Elapsed(world: World, interval: real, k: nat)
    requires k >= 1 && world.ClockRuns(interval)
    ensures world.waitedAt(k) >= world.startedAt + (k - 1) as real * interval
    decreases k
  {
    if k > 1 {
      Elapsed(world, interval, k - 1);
      assert world.waitedAt(k - 1) + interval <= world.waitedAt(k);
    }
  }

  /** A loop bounded by a runtime starts at most ceil(runtime / interval) cycles. */
  lemma RuntimeBoundsCycles(schedule: Schedule, world: World, n: nat)
    requires schedule.Valid() && schedule.maxRuntime.Some? && world.ClockRuns(schedule.interval)
    requires Reached(schedule, world, n)
    ensures n <= Ceil(schedule.maxRuntime.value / schedule.interval)
  {
    var r, i := schedule.maxRuntime.value, schedule.interval;
    if n >= 2 {
      assert GoesOn(schedule, world, n - 1);
      WaitNeedsAnInterval(schedule, world.startedAt + r, world.waitedAt(n - 1), world.stopDuringWait(n - 1));
      Elapsed(world, i, n - 1);
      assert r > (n - 1) as real * i;
      Quotient(r, i, n - 1);
    } else {
      Quotient(r, i, 0);
    }
  }

  lemma Quotient(r: real, i: real, m: nat)
    requires i > 0.0 && r > m as real * i
    ensures m + 1 <= Ceil(r / i)
  {
    assert (r / i) * i == r;
    if r / i <= m as real { assert (r / i) * i <= m as real * i; }
  }

  lemma {:induction false} StreakIsBounded(schedule: Schedule, world: World, n: nat)
    requires schedule.Valid() && Reached(schedule, world, n)
    ensures Streak(world.cycle, n) <= schedule.maxConsecutiveFailures
    decreases n
  {
    if n >= 2 { assert GoesOn(schedule, world, n - 1); }
  }

  /** `max_consecutive_failures` failed cycles in a row are never followed by another cycle. */
  lemma FailuresEndTheLoop(schedule: Schedule, world: World, n: nat, from: nat)
    requires schedule.Valid() && Reached(schedule, world, n)
    requires from + schedule.maxConsecutiveFailures < n
    ensures exists k :: from < k <= from + schedule.maxConsecutiveFailures && !Failed(world.cycle(k))
  {
    assert GoesOn(schedule, world, from + schedule.maxConsecutiveFailures);
    if forall k :: from < k <= from + schedule.maxConsecutiveFailures ==> Failed(world.cycle(k)) {
      StreakCounts(world.cycle, from, schedule.maxConsecutiveFailures);
      assert false;
    }
  }

  lemma {:induction false} StreakCounts(cycle: nat -> Cycle, from: nat, m: nat)
    requires forall k :: from < k <= from + m ==> Failed(cycle(k))
    ensures Streak(cycle, from + m) >= m
    decreases m
  {
    if m > 0 { StreakCounts(cycle, from, m - 1); }
  }

  class BrowserReconciliationWorker {
    const schedule: Schedule

    constructor (schedule: Schedule)
      requires schedule.Valid()
      ensures this.schedule == schedule
    {
      this.schedule := schedule;
    }

    /** Runs the loop; `raised` when a cycle threw something the loop does not count. */
    method Run(world: World) returns (reports: seq<bool>, cycles: nat, raised: bool)
      requires schedule.Valid()
      requires schedule.maxRuntime.Some? ==> world.ClockRuns(schedule.interval)
      ensures Reached(schedule, world, cycles)
      ensures cycles == 0 ==> world.stopBefore(1)
      ensures cycles >= 1 ==> !GoesOn(schedule, world, cycles)
      ensures raised <==> cycles >= 1 && world.cycle(cycles).Fatal?
      ensures reports == Reports(world.cycle, cycles)
      ensures schedule.maxCycles.Some? ==> cycles <= schedule.maxCycles.value
      ensures schedule.maxRuntime.Some? ==> cycles <= Ceil(schedule.maxRuntime.value / schedule.interval)
      ensures Streak(world.cycle, cycles) <= schedule.maxConsecutiveFailures
    {
      reports, cycles, raised := [], 0, false;
      var deadline := Deadline(schedule, world);
      var consecutiveFailures := 0;
      while !world.stopBefore(cycles + 1)
        invariant Reached(schedule, world, cycles)
        invariant cycles >= 1 ==> GoesOn(schedule, world, cycles) || world.stopBefore(cycles + 1)
        invariant cycles >= 1 && world.stopBefore(cycles + 1) ==>
          !GoesOn(schedule, world, cycles) && !world.cycle(cycles).Fatal?
        invariant consecutiveFailures == Streak(world.cycle, cycles)
        invariant reports == Reports(world.cycle, cycles)
        decreases Budget(world) - cycles
      {
        cycles := cycles + 1;
        Bounded(world, cycles);
        match world.cycle(cycles) {
          case Fatal => return reports, cycles, true;
          case Unavailable => consecutiveFailures := consecutiveFailures + 1;
          case Report(ok) =>
            reports := reports + [ok];
            consecutiveFailures := if ok then 0 else consecutiveFailures + 1;
        }
        if consecutiveFailures >= schedule.maxConsecutiveFailures { break; }
        if schedule.maxCycles.Some? && cycles >= schedule.maxCycles.value { break; }
        if Wait(schedule, deadline, world.waitedAt(cycles), world.stopDuringWait(cycles)) == End { break; }
      }
      if cycles >= 1 { Bounded(world, cycles); }
      StreakIsBounded(schedule, world, cycles);
    }

    /** The most cycles either bound allows. */
    ghost function Budget(world: World): int
      requires schedule.Valid()
    {
      if schedule.maxCycles.Some? then schedule.maxCycles.value
      else Ceil(schedule.maxRuntime.value / schedule.interval)
    }

    lemma Bounded(world: World, n: nat)
      requires schedule.Valid() && n >= 1
      requires schedule.maxRuntime.Some? ==> world.ClockRuns(schedule.interval)
      requires Reached(schedule, world, n)
      ensures n <= Budget(world)
      ensures schedule.maxRuntime.Some? ==> n <= Ceil(schedule.maxRuntime.value / schedule.interval)
    {
      if schedule.maxRuntime.Some? { RuntimeBoundsCycles(schedule, world, n); }
      if n >= 2 { assert GoesOn(schedule, world, n - 1); }
    }
  }
}
