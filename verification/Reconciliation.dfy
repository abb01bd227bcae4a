/** Releasing orphaned provider sessions: one pass lists the live sessions, judges each
    against the operational rows, judges the orphans again against a second snapshot, and
    terminates within a budget. Times are integers in one unit for all clocks. */
module Reconciliation {

  type Id = string
  type Time = int

  datatype Option<+T> = None | Some(value: T)

  // ------------------------------------------------------------------ data

  datatype ProviderStatus = RUNNING | PENDING | ERROR | TIMED_OUT | COMPLETED {
    predicate Live() { RUNNING? || PENDING? }
    predicate Terminal() { !Live() }
  }

  /** One provider session; `owner` is the canonical session id its metadata claims. */
  datatype SessionRecord = SessionRecord(
    id: Id,
    status: ProviderStatus,
    owner: Option<Id>,
    agentSurface: bool,
    environment: Option<string>,
    createdAt: Option<Time>,
    expiresAt: Option<Time>)

  datatype LocalStatus = Connected | Stopped | TerminationFailed | Other(name: string)

  datatype Row = Row(
    provider: Id,
    status: LocalStatus,
    createdAt: Option<Time>,
    attachedAt: Option<Time>,
    stoppedAt: Option<Time>)
  {
    predicate Released() { status.Stopped? || status.TerminationFailed? }
  }

  /** The operational table, keyed by web session id. */
  type Rows = map<Id, Row>

  datatype Policy = Policy(
    environment: string,
    matchEnvironment: bool,
    leaseTtl: int,
    leaseGrace: int,
    startupGrace: int,
    maxTerminations: int)
  {
    predicate Valid() {
      environment != "" && leaseTtl > 0 && leaseGrace >= 0 && startupGrace >= 0 && maxTerminations >= 0
    }
  }

  datatype Disposition = ACTIVE | ORPHANED | SKIPPED

  datatype Reason =
    | LEASE_HELD | RECLAIMED_BY_BACKEND
    | UNKNOWN_LOCAL_SESSION | LOCAL_SESSION_RELEASED | PROVIDER_SESSION_SUPERSEDED
    | PROVIDER_EXPIRY_PASSED | LEASE_EXPIRED
    | NOT_WEBACCESSIBLE_OWNED | FOREIGN_ENVIRONMENT | AGENT_SURFACE_FLAGGED
    | PROVIDER_ALREADY_TERMINAL | WITHIN_STARTUP_GRACE

  datatype Verdict = Verdict(disposition: Disposition, reason: Reason, localStatus: Option<LocalStatus>)

  datatype Outcome = NONE | DRY_RUN | TERMINATED | ALREADY_TERMINAL | FAILED | DEFERRED_TERMINATION_LIMIT

  // ------------------------------------------------------------------ judging one session

  function OrElse(a: Option<Time>, b: Option<Time>): Option<Time> {
    if a.Some? then a else b
  }

  function LeaseStart(row: Row, session: SessionRecord): Option<Time> {
    OrElse(row.attachedAt, OrElse(row.createdAt, session.createdAt))
  }

  function Classify(session: SessionRecord, local: Rows, now: Time, policy: Policy): Verdict {
    if !session.status.Live() then Verdict(SKIPPED, PROVIDER_ALREADY_TERMINAL, None)
    else if session.owner.None? then Verdict(SKIPPED, NOT_WEBACCESSIBLE_OWNED, None)
    else if session.agentSurface then Verdict(SKIPPED, AGENT_SURFACE_FLAGGED, None)
    else if policy.matchEnvironment && session.environment != Some(policy.environment) then
      Verdict(SKIPPED, FOREIGN_ENVIRONMENT, None)
    else if session.expiresAt.Some? && session.expiresAt.value - now <= 0 then
      Verdict(ORPHANED, PROVIDER_EXPIRY_PASSED, None)
    else if session.createdAt.Some? && now - session.createdAt.value < policy.startupGrace then
      Verdict(SKIPPED, WITHIN_STARTUP_GRACE, None)
    else if session.owner.value !in local then Verdict(ORPHANED, UNKNOWN_LOCAL_SESSION, None)
    else
      var row := local[session.owner.value];
      if row.provider != session.id then Verdict(ORPHANED, PROVIDER_SESSION_SUPERSEDED, Some(row.status))
      else if row.Released() then Verdict(ORPHANED, LOCAL_SESSION_RELEASED, Some(row.status))
      else
        var start := LeaseStart(row, session);
        if start.Some? && now - start.value > policy.leaseTtl + policy.leaseGrace then
          Verdict(ORPHANED, LEASE_EXPIRED, Some(row.status))
        else Verdict(ACTIVE, LEASE_HELD, Some(row.status))
  }

  predicate Orphaned(session: SessionRecord, local: Rows, now: Time, policy: Policy) {
    Classify(session, local, now, policy).disposition == ORPHANED
  }

  /** Once orphaned, always orphaned: with the owner's row unchanged, no later clock
      reading turns an orphan back. */
  lemma OrphanIsStable(session: SessionRecord, local: Rows, later: Rows, now: Time, then': Time, policy: Policy)
    requires now <= then'
    requires Orphaned(session, local, now, policy)
    requires session.owner.Some? ==> (session.owner.value in local <==> session.owner.value in later)
    requires session.owner.Some? && session.owner.value in local ==>
      later[session.owner.value] == local[session.owner.value]
    ensures Orphaned(session, later, then', policy)
  {
  }

  /** An orphan that the second look spares is active, never skipped, and its row changed. */
  lemma ReclaimedMeansRowChanged(session: SessionRecord, local: Rows, later: Rows, now: Time, then': Time,
                                 policy: Policy)
    requires now <= then'
    requires Orphaned(session, local, now, policy)
    requires !Orphaned(session, later, then', policy)
    ensures Classify(session, later, then', policy).disposition == ACTIVE
    ensures session.owner.Some? && session.owner.value in later && later[session.owner.value].provider == session.id
    ensures session.owner.value in local ==> later[session.owner.value] != local[session.owner.value]
  {
  }

  // ------------------------------------------------------------------ the operational store

  /** Marks every row of a provider session stopped that is not stopped already; an older
      stop time stays. */
  function MarkReleased(rows: Rows, provider: Id, now: Time): (after: Rows)
    ensures after.Keys == rows.Keys
    ensures forall w :: w in rows && (rows[w].provider != provider || rows[w].status.Stopped?) ==> after[w] == rows[w]
    ensures forall w :: w in rows && rows[w].provider == provider ==>
      after[w].status.Stopped? && after[w].provider == provider
    ensures forall w :: w in rows && rows[w].stoppedAt.Some? ==> after[w].stoppedAt == rows[w].stoppedAt
  {
    map w | w in rows ::
      if rows[w].provider == provider && !rows[w].status.Stopped?
      then rows[w].(status := Stopped, stoppedAt := OrElse(rows[w].stoppedAt, Some(now)))
      else rows[w]
  }

  class LocalStore {
    var rows: Rows
    const writable: bool

    constructor (rows: Rows, writable: bool)
      ensures this.rows == rows && this.writable == writable
    {
      this.rows := rows;
      this.writable := writable;
    }

    /** The backend writes the same table whenever the pass waits. */
    method Backend(edit: Rows -> Rows)
      modifies this`rows
      ensures rows == edit(old(rows))
    {
      rows := edit(rows);
    }

    method Snapshot() returns (copy: Rows)
      ensures copy == rows
    {
      copy := rows;
    }

    method RecordRelease(provider: Id, now: Time) returns (changed: bool)
      modifies this`rows
      ensures rows == if writable then MarkReleased(old(rows), provider, now) else old(rows)
      ensures changed <==>
        writable && exists w :: w in old(rows) && old(rows)[w].provider == provider && !old(rows)[w].status.Stopped?
      ensures changed <==> rows != old(rows)
    {
      if !writable { return false; }
      ghost var before := rows;
      changed := exists w | w in rows :: rows[w].provider == provider && !rows[w].status.Stopped?;
      rows := MarkReleased(rows, provider, now);
      if changed {
        ghost var w :| w in before && before[w].provider == provider && !before[w].status.Stopped?;
        assert rows[w] != before[w];
      } else {
        assert forall w :: w in before ==> rows[w] == before[w];
      }
    }
  }

  // ------------------------------------------------------------------ the environment of a pass

  datatype Termination =
    | Ended(status: ProviderStatus, alreadyTerminal: bool)
    | Gone
    | Refused(code: string, retryable: bool)
  {
    /** The provider itself says that the session is over. */
    predicate Confirms() { Gone? || (Ended? && status.Terminal()) }
  }

  /** Everything the pass does not decide: what the provider answers, whether a write
      fails, the clock at each write, and what the backend did meanwhile. */
  datatype World = World(
    terminate: Id -> Termination,
    writeFails: Id -> bool,
    clock: Id -> Time,
    backend: Id -> (Rows -> Rows))

  /** A session outcome seen as a value. */
  datatype Entry = Entry(
    id: Id,
    owner: Option<Id>,
    disposition: Disposition,
    reason: Reason,
    localStatus: Option<LocalStatus>,
    outcome: Outcome,
    confirmed: bool,
    localUpdated: bool)

  function Judge(session: SessionRecord, local: Rows, now: Time, policy: Policy): Entry {
    var v := Classify(session, local, now, policy);
    Entry(session.id, session.owner, v.disposition, v.reason, v.localStatus, NONE, false, false)
  }

  class SessionOutcome {
    const id: Id
    const owner: Option<Id>
    var disposition: Disposition
    var reason: Reason
    var localStatus: Option<LocalStatus>
    var outcome: Outcome
    var confirmed: bool
    var localUpdated: bool

    constructor (session: SessionRecord, local: Rows, now: Time, policy: Policy)
      ensures View() == Judge(session, local, now, policy)
    {
      var v := Classify(session, local, now, policy);
      id, owner := session.id, session.owner;
      disposition, reason, localStatus := v.disposition, v.reason, v.localStatus;
      outcome, confirmed, localUpdated := NONE, false, false;
    }

    function View(): Entry
      reads this
    {
      Entry(id, owner, disposition, reason, localStatus, outcome, confirmed, localUpdated)
    }
  }

  ghost function Views(records: seq<SessionOutcome>): (views: seq<Entry>)
    reads records
    ensures |views| == |records|
    ensures forall i :: 0 <= i < |records| ==> views[i] == records[i].View()
  {
    seq(|records|, i requires 0 <= i < |records| reads records => records[i].View())
  }

  ghost predicate DistinctObjects(records: seq<SessionOutcome>) {
    forall i, j :: 0 <= i < j < |records| ==> records[i] != records[j]
  }

  predicate DistinctIds(sessions: seq<SessionRecord>) {
    forall i, j :: 0 <= i < j < |sessions| ==> sessions[i].id != sessions[j].id
  }

  // ------------------------------------------------------------------ releasing, as a value

  function Reclaim(e: Entry, recheck: Verdict): Entry {
    e.(disposition := ACTIVE, reason := RECLAIMED_BY_BACKEND, localStatus := recheck.localStatus, outcome := NONE)
  }

  function Settle(e: Entry, answer: Termination, updated: bool): Entry {
    match answer
    case Gone => e.(outcome := ALREADY_TERMINAL, confirmed := true, localUpdated := e.owner.Some? && updated)
    case Refused(_, _) => e.(outcome := FAILED)
    case Ended(status, already) =>
      if status.Terminal()
      then e.(outcome := if already then ALREADY_TERMINAL else TERMINATED,
              confirmed := true, localUpdated := e.owner.Some? && updated)
      else e.(outcome := FAILED, confirmed := false)
  }

  /** The rows after one termination attempt: the backend moved first, then a confirmed end
      is written back. */
  function RowsAfter(id: Id, owner: Option<Id>, rows: Rows, writable: bool, world: World): Rows {
    var seen := world.backend(id)(rows);
    if world.terminate(id).Confirms() && owner.Some? && !world.writeFails(id) && writable
    then MarkReleased(seen, id, world.clock(id)) else seen
  }

  datatype Step = Step(entry: Entry, budget: int, rows: Rows, called: bool)

  /** One orphan: spared by the second look, out of budget, or handed to the provider. */
  function ReleaseStep(e: Entry, again: Option<Verdict>, budget: int, rows: Rows, writable: bool, world: World): Step {
    if again.Some? && again.value.disposition != ORPHANED then Step(Reclaim(e, again.value), budget, rows, false)
    else if budget <= 0 then Step(e.(outcome := DEFERRED_TERMINATION_LIMIT), budget, rows, false)
    else
      var after := RowsAfter(e.id, e.owner, rows, writable, world);
      Step(Settle(e, world.terminate(e.id), after != world.backend(e.id)(rows)), budget - 1, after, true)
  }

  datatype Released = Released(entries: seq<Entry>, rows: Rows, calls: seq<Id>)

  function Release(entries: seq<Entry>, recheck: Id -> Option<Verdict>, budget: int, rows: Rows,
                   writable: bool, world: World): (r: Released)
    ensures |r.entries| == |entries|
    decreases |entries|
  {
    if entries == [] then Released([], rows, [])
    else
      var step := ReleaseStep(entries[0], recheck(entries[0].id), budget, rows, writable, world);
      var later := Release(entries[1..], recheck, step.budget, step.rows, writable, world);
      Released([step.entry] + later.entries, later.rows, (if step.called then [entries[0].id] else []) + later.calls)
  }

  function Ids(entries: seq<Entry>): seq<Id>
    decreases |entries|
  {
    if entries == [] then [] else [entries[0].id] + Ids(entries[1..])
  }

  /** A release that stands before entry `i`: the rest gives the calls and rows still to
      come, and what every record from there on will say. */
  ghost predicate Midway(all: Released, i: nat, calls: seq<Id>, rest: Released) {
    i <= |all.entries| && all.entries[i..] == rest.entries && all.calls == calls + rest.calls && all.rows == rest.rows
  }

  lemma {:induction false} UnfoldRelease(all: Released, i: nat, calls: seq<Id>, rest: Released, entries: seq<Entry>,
                                         recheck: Id -> Option<Verdict>, budget: int, rows: Rows, writable: bool,
                                           world: World)
    returns (later: Released)
    requires i < |entries| == |all.entries| && Midway(all, i, calls, rest)
    requires rest == Release(entries[i..], recheck, budget, rows, writable, world)
    ensures var e := entries[i];
      var step := ReleaseStep(e, recheck(e.id), budget, rows, writable, world);
      && later == Release(entries[i + 1..], recheck, step.budget, step.rows, writable, world)
      && all.entries[i] == step.entry && Midway(all, i + 1, calls + (if step.called then [e.id] else []), later)
  {
    var step := ReleaseStep(entries[i], recheck(entries[i].id), budget, rows, writable, world);
    later := Release(entries[i + 1..], recheck, step.budget, step.rows, writable, world);
    assert entries[i..][0] == entries[i] && entries[i..][1..] == entries[i + 1..];
    assert all.entries[i] == rest.entries[0];
    assert all.entries[i + 1..] == rest.entries[1..];
  }

  /** The ids the second look confirms as orphaned, in order. */
  function StillOrphaned(entries: seq<Entry>, recheck: Id -> Option<Verdict>): seq<Id>
    decreases |entries|
  {
    if entries == [] then []
    else
      var again := recheck(entries[0].id);
      (if again.Some? && again.value.disposition != ORPHANED then [] else [entries[0].id])
      + StillOrphaned(entries[1..], recheck)
  }

  function Min(a: int, b: int): int { if a < b then a else b }

  // ------------------------------------------------------------------ counting

  datatype Counts = Counts(active: nat, orphaned: nat, skipped: nat, terminated: nat, failed: nat, deferred: nat)

  function CountOf(entries: seq<Entry>): Counts
    decreases |entries|
  {
    if entries == [] then Counts(0, 0, 0, 0, 0, 0)
    else
      var e := entries[0];
      var c := CountOf(entries[1..]);
      Counts(
        c.active + (if e.disposition == ACTIVE then 1 else 0),
        c.orphaned + (if e.disposition == ORPHANED then 1 else 0),
        c.skipped + (if e.disposition == SKIPPED then 1 else 0),
        c.terminated + (if e.outcome == TERMINATED || e.outcome == ALREADY_TERMINAL then 1 else 0),
        c.failed + (if e.outcome == FAILED then 1 else 0),
        c.deferred + (if e.outcome == DEFERRED_TERMINATION_LIMIT then 1 else 0))
  }

  /** Exactly the orphans carry an outcome, and a confirmed end is what counts as terminated. */
  predicate Accounted(e: Entry) {
    && (e.disposition == ORPHANED <==> e.outcome in {TERMINATED, ALREADY_TERMINAL, FAILED, DEFERRED_TERMINATION_LIMIT})
    && (e.disposition != ORPHANED ==> e.outcome == NONE)
    && (e.outcome in {TERMINATED, ALREADY_TERMINAL} <==> e.confirmed)
    && (e.localUpdated ==> e.confirmed)
  }

  lemma {:induction false} CountsBalance(entries: seq<Entry>)
    ensures |entries| == CountOf(entries).active + CountOf(entries).orphaned + CountOf(entries).skipped
    ensures (forall i :: 0 <= i < |entries| ==> Accounted(entries[i])) ==>
      CountOf(entries).orphaned == CountOf(entries).terminated + CountOf(entries).failed + CountOf(entries).deferred
    decreases |entries|
  {
    if entries != [] { CountsBalance(entries[1..]); }
  }

  predicate FreshOrphan(e: Entry) {
    e.disposition == ORPHANED && e.outcome == NONE && !e.confirmed && !e.localUpdated
  }

  lemma TakeFirst(id: Id, still: seq<Id>, budget: int)
    requires budget >= 0
    ensures [] + still == still
    ensures budget > 0 ==> ([id] + still)[..Min(budget, |still| + 1)] == [id] + still[..Min(budget - 1, |still|)]
  {
  }

  /** The first `budget` ids that are still orphaned are terminated, in order, and no other. */
  lemma {:induction false} ReleaseCalls(entries: seq<Entry>, recheck: Id -> Option<Verdict>, budget: int,
                                        rows: Rows, writable: bool, world: World)
    requires budget >= 0
    ensures var still := StillOrphaned(entries, recheck);
      Release(entries, recheck, budget, rows, writable, world).calls == still[..Min(budget, |still|)]
    decreases |entries|
  {
    if entries != [] {
      var step := ReleaseStep(entries[0], recheck(entries[0].id), budget, rows, writable, world);
      var still := StillOrphaned(entries[1..], recheck);
      var later := Release(entries[1..], recheck, step.budget, step.rows, writable, world);
      assert Release(entries, recheck, budget, rows, writable, world).calls
        == (if step.called then [entries[0].id] else []) + later.calls;
      ReleaseCalls(entries[1..], recheck, step.budget, step.rows, writable, world);
      TakeFirst(entries[0].id, still, budget);
    }
  }

  lemma StepIsAccounted(e: Entry, again: Option<Verdict>, budget: int, rows: Rows, writable: bool, world: World)
    requires FreshOrphan(e)
    ensures var step := ReleaseStep(e, again, budget, rows, writable, world);
      && Accounted(step.entry) && step.entry.id == e.id
      && (step.entry.disposition == ORPHANED <==> again.None? || again.value.disposition == ORPHANED)
      && (step.entry.outcome == DEFERRED_TERMINATION_LIMIT <==> step.entry.disposition == ORPHANED && !step.called)
      && (step.called ==> step.entry.disposition == ORPHANED)
  {
  }

  lemma {:induction false} ReleaseEntries(entries: seq<Entry>, recheck: Id -> Option<Verdict>, budget: int,
                                          rows: Rows, writable: bool, world: World)
    requires forall i :: 0 <= i < |entries| ==> FreshOrphan(entries[i])
    ensures var r := Release(entries, recheck, budget, rows, writable, world);
      && (forall i :: 0 <= i < |entries| ==> Accounted(r.entries[i]) && r.entries[i].id == entries[i].id)
      && CountOf(r.entries).orphaned == |StillOrphaned(entries, recheck)|
      && CountOf(r.entries).deferred == |StillOrphaned(entries, recheck)| - |r.calls|
    decreases |entries|
  {
    if entries != [] {
      assert FreshOrphan(entries[0]);
      StepIsAccounted(entries[0], recheck(entries[0].id), budget, rows, writable, world);
      var step := ReleaseStep(entries[0], recheck(entries[0].id), budget, rows, writable, world);
      ReleaseEntries(entries[1..], recheck, step.budget, step.rows, writable, world);
      FirstEntry(step.entry, Release(entries[1..], recheck, step.budget, step.rows, writable, world).entries);
    }
  }

  lemma FirstEntry(e: Entry, later: seq<Entry>)
    ensures var c, d := CountOf([e] + later), CountOf(later);
      && c.orphaned == d.orphaned + (if e.disposition == ORPHANED then 1 else 0)
      && c.deferred == d.deferred + (if e.outcome == DEFERRED_TERMINATION_LIMIT then 1 else 0)
  {
    assert ([e] + later)[1..] == later;
  }

  /** A backend that writes nothing while the pass terminates sessions. */
  ghost predicate QuietBackend(world: World) {
    forall id: Id, rows: Rows :: world.backend(id)(rows) == rows
  }

  /** Every row the pass changed was stopped after a confirmed end of its own provider
      session, and every such row is stopped unless the write was refused. */
  ghost predicate RowsJustified(before: Rows, after: Rows, calls: seq<Id>, writable: bool, world: World) {
    && after.Keys == before.Keys
    && forall w :: w in before ==>
         var row := before[w];
         && after[w].provider == row.provider && after[w].createdAt == row.createdAt &&
              after[w].attachedAt == row.attachedAt
         && if row.provider in calls && world.terminate(row.provider).Confirms() && writable &&
              !world.writeFails(row.provider)
            then after[w].status == Stopped
            else after[w] == row
  }

  lemma {:induction false} ReleaseRows(entries: seq<Entry>, recheck: Id -> Option<Verdict>, budget: int,
                                       rows: Rows, writable: bool, world: World)
    requires QuietBackend(world)
    requires forall i :: 0 <= i < |entries| ==> entries[i].owner.Some?
    ensures var r := Release(entries, recheck, budget, rows, writable, world);
      RowsJustified(rows, r.rows, r.calls, writable, world)
    decreases |entries|
  {
    if entries != [] {
      var e := entries[0];
      assert e.owner.Some?;
      var step := ReleaseStep(e, recheck(e.id), budget, rows, writable, world);
      var later := Release(entries[1..], recheck, step.budget, step.rows, writable, world);
      ReleaseRows(entries[1..], recheck, step.budget, step.rows, writable, world);
      if step.called {
        assert world.backend(e.id)(rows) == rows;
        JustifiedStep(rows, step.rows, later.rows, e.id, later.calls, writable, world);
      } else {
        assert [] + later.calls == later.calls;
      }
    }
  }

  lemma JustifiedStep(rows: Rows, next: Rows, end: Rows, id: Id, calls: seq<Id>, writable: bool, world: World)
    requires next == if world.terminate(id).Confirms() && !world.writeFails(id) && writable
                     then MarkReleased(rows, id, world.clock(id)) else rows
    requires RowsJustified(next, end, calls, writable, world)
    ensures RowsJustified(rows, end, [id] + calls, writable, world)
  {
  }

  /** The only row a termination attempt of the pass itself can touch belongs to that very
      provider session, and only after the provider confirmed its end; a row that has moved
      on to a successor session is left alone. */
  lemma OnlyConfirmedRowsStop(id: Id, owner: Option<Id>, rows: Rows, writable: bool, world: World, w: Id)
    requires w in world.backend(id)(rows)
    ensures var seen := world.backend(id)(rows);
      var after := RowsAfter(id, owner, rows, writable, world);
      && w in after
      && (after[w] != seen[w] ==>
            seen[w].provider == id && after[w].provider == id && after[w].status == Stopped &&
              world.terminate(id).Confirms() && writable)
      && (seen[w].provider != id ==> after[w] == seen[w])
  {
  }

  // ------------------------------------------------------------------ what stopped, whatever the backend did

  /** A row is stopped that was not, or held another provider session then. */
  predicate NewlyStopped(before: Rows, after: Rows, w: Id) {
    && w in after && after[w].status.Stopped?
    && !(w in before && before[w].status.Stopped? && before[w].provider == after[w].provider)
  }

  predicate StopsRow(after: Rows, before: Rows, w: Id, provider: Id) {
    NewlyStopped(before, after, w) && after[w].provider == provider
  }

  /** The table as it stands before call `k`: what the backend and the pass made of `rows`
      during the calls before. */
  function TableBefore(rows: Rows, calls: seq<Id>, k: nat, writable: bool, world: World): Rows
    requires k <= |calls|
  {
    if k == 0 then rows
    else CallAfter(calls[k - 1], TableBefore(rows, calls, k - 1, writable, world), writable, world)
  }

  /** One call for an orphan, which always has an owner. */
  function CallAfter(id: Id, rows: Rows, writable: bool, world: World): Rows {
    RowsAfter(id, Some(id), rows, writable, world)
  }

  /** The backend itself wrote, during call `k` and over the table of that moment, that the
      session of a row is over. */
  ghost predicate BackendStops(rows: Rows, calls: seq<Id>, k: nat, writable: bool, world: World, w: Id, provider: Id)
    requires k < |calls|
  {
    var seen := TableBefore(rows, calls, k, writable, world);
    StopsRow(world.backend(calls[k])(seen), seen, w, provider)
  }

  /** The pass wrote it, after the provider had confirmed the end of this very session. */
  predicate PassStops(calls: seq<Id>, provider: Id, writable: bool, world: World) {
    provider in calls && world.terminate(provider).Confirms() && writable && !world.writeFails(provider)
  }

  /** Every newly stopped row holds a session that was called and that the provider confirmed
      to be over, unless the backend stopped it during a call: no row of a successor is ever
      stopped by the pass. */
  ghost predicate StopsExplained(before: Rows, after: Rows, calls: seq<Id>, writable: bool, world: World) {
    forall w :: NewlyStopped(before, after, w) ==>
      Explained(before, calls, |calls|, writable, world, w, after[w].provider)
  }

  ghost predicate Explained(rows: Rows, calls: seq<Id>, n: nat, writable: bool, world: World, w: Id, provider: Id)
    requires n <= |calls|
  {
    PassStops(calls, provider, writable, world)
    || exists k :: 0 <= k < n && BackendStops(rows, calls, k, writable, world, w, provider)
  }

  /** A release of owned orphans leaves exactly the table its calls make. */
  lemma {:induction false} ReleaseTable(entries: seq<Entry>, recheck: Id -> Option<Verdict>, budget: int,
                                        rows: Rows, writable: bool, world: World)
    requires forall i :: 0 <= i < |entries| ==> entries[i].owner.Some?
    ensures var r := Release(entries, recheck, budget, rows, writable, world);
      r.rows == TableBefore(rows, r.calls, |r.calls|, writable, world)
    decreases |entries|
  {
    if entries != [] {
      var e := entries[0];
      assert e.owner.Some?;
      var step := ReleaseStep(e, recheck(e.id), budget, rows, writable, world);
      var later := Release(entries[1..], recheck, step.budget, step.rows, writable, world);
      ReleaseTable(entries[1..], recheck, step.budget, step.rows, writable, world);
      OneCall(rows, step, later, e, recheck(e.id), budget, writable, world);
    }
  }

  lemma {:induction false} OneCall(rows: Rows, step: Step, later: Released, e: Entry, again: Option<Verdict>,
                                   budget: int,
                                   writable: bool, world: World)
    requires e.owner.Some? && step == ReleaseStep(e, again, budget, rows, writable, world)
    requires later.rows == TableBefore(step.rows, later.calls, |later.calls|, writable, world)
    ensures var calls := (if step.called then [e.id] else []) + later.calls;
      later.rows == TableBefore(rows, calls, |calls|, writable, world)
  {
    if step.called {
      assert step.rows == CallAfter(e.id, rows, writable, world);
      FirstCall(rows, e.id, later.calls, |later.calls|, writable, world);
    } else {
      assert [] + later.calls == later.calls;
    }
  }

  lemma {:induction false} FirstCall(rows: Rows, id: Id, later: seq<Id>, k: nat, writable: bool, world: World)
    requires k <= |later|
    ensures TableBefore(rows, [id] + later, k + 1, writable, world)
         == TableBefore(CallAfter(id, rows, writable, world), later, k, writable, world)
  {
    if k == 0 {
      assert TableBefore(rows, [id] + later, 0, writable, world) == rows;
    } else {
      FirstCall(rows, id, later, k - 1, writable, world);
    }
  }

  /** Whatever the calls, the provider and the backend do, every stop is explained. */
  lemma {:induction false} StopsAreExplained(rows: Rows, calls: seq<Id>, n: nat, writable: bool, world: World, w: Id)
    requires n <= |calls| && NewlyStopped(rows, TableBefore(rows, calls, n, writable, world), w)
    ensures Explained(rows, calls, n, writable, world, w, TableBefore(rows, calls, n, writable, world)[w].provider)
  {
    if n > 0 {
      var before := TableBefore(rows, calls, n - 1, writable, world);
      var after := TableBefore(rows, calls, n, writable, world);
      if NewlyStopped(before, after, w) {
        CallStops(rows, calls, n, before, writable, world, w);
      } else {
        StopsAreExplained(rows, calls, n - 1, writable, world, w);
      }
    }
  }

  lemma {:induction false} CallStops(rows: Rows, calls: seq<Id>, n: nat, before: Rows, writable: bool, world: World,
                                     w: Id)
    requires 0 < n <= |calls| && before == TableBefore(rows, calls, n - 1, writable, world)
    requires NewlyStopped(before, CallAfter(calls[n - 1], before, writable, world), w)
    ensures Explained(rows, calls, n, writable, world, w, CallAfter(calls[n - 1], before, writable, world)[w].provider)
  {
    var seen := world.backend(calls[n - 1])(before);
    var after := CallAfter(calls[n - 1], before, writable, world);
    if w in seen && seen[w] == after[w] {
      assert BackendStops(rows, calls, n - 1, writable, world, w, after[w].provider);
    }
  }

  lemma ReleaseStops(entries: seq<Entry>, recheck: Id -> Option<Verdict>, budget: int,
                     rows: Rows, writable: bool, world: World)
    requires forall i :: 0 <= i < |entries| ==> entries[i].owner.Some?
    ensures var r := Release(entries, recheck, budget, rows, writable, world);
      StopsExplained(rows, r.rows, r.calls, writable, world)
  {
    var r := Release(entries, recheck, budget, rows, writable, world);
    ReleaseTable(entries, recheck, budget, rows, writable, world);
    forall w | NewlyStopped(rows, r.rows, w)
      ensures Explained(rows, r.calls, |r.calls|, writable, world, w, r.rows[w].provider)
    {
      StopsAreExplained(rows, r.calls, |r.calls|, writable, world, w);
    }
  }

  /** The backend may write anything during the calls, only not that a session is over. */
  ghost predicate BackendNeverStops(rows: Rows, calls: seq<Id>, writable: bool, world: World) {
    forall k, w, provider :: 0 <= k < |calls| ==> !BackendStops(rows, calls, k, writable, world, w, provider)
  }

  /** With such a backend only confirmed ends stop rows. */
  lemma ConfirmedStops(before: Rows, after: Rows, calls: seq<Id>, writable: bool, world: World, w: Id)
    requires StopsExplained(before, after, calls, writable, world) && BackendNeverStops(before, calls, writable, world)
    requires NewlyStopped(before, after, w)
    ensures PassStops(calls, after[w].provider, writable, world)
  {
    assert Explained(before, calls, |calls|, writable, world, w, after[w].provider);
  }

  // ------------------------------------------------------------------ listing

  datatype Listing = Listed(sessions: seq<SessionRecord>) | ProviderError(code: string)

  /** `sessions` holds, for every id among the first `n` listed records, the first record
      with that id, and nothing else. */
  ghost predicate Dedups(sessions: seq<SessionRecord>, source: seq<SessionRecord>, n: nat)
    requires n <= |source|
  {
    && DistinctIds(sessions)
    && (forall j :: 0 <= j < n && FirstAt(source, j) ==> source[j] in sessions)
    && (forall s :: s in sessions ==> exists j :: 0 <= j < n && FirstAt(source, j) && source[j] == s)
  }

  ghost predicate FirstAt(source: seq<SessionRecord>, j: int) {
    0 <= j < |source| && forall m :: 0 <= m < j ==> source[m].id != source[j].id
  }

  predicate HasId(sessions: seq<SessionRecord>, id: Id) {
    exists s :: s in sessions && s.id == id
  }

  lemma {:induction false} FirstExists(source: seq<SessionRecord>, j: nat) returns (f: nat)
    requires j < |source|
    ensures f <= j && FirstAt(source, f) && source[f].id == source[j].id
    decreases j
  {
    f := j;
    if !FirstAt(source, j) {
      var m :| 0 <= m < j && source[m].id == source[j].id;
      f := FirstExists(source, m);
    }
  }

  lemma DedupNext(sessions: seq<SessionRecord>, source: seq<SessionRecord>, n: nat)
    requires n < |source| && Dedups(sessions, source, n)
    ensures HasId(sessions, source[n].id) ==> Dedups(sessions, source, n + 1)
    ensures !HasId(sessions, source[n].id) ==> Dedups(sessions + [source[n]], source, n + 1)
  {
    if HasId(sessions, source[n].id) {
      var s :| s in sessions && s.id == source[n].id;
      assert !FirstAt(source, n);
    } else {
      var f := FirstExists(source, n);
      assert forall i :: 0 <= i < |sessions| ==> sessions[i] in sessions;
    }
  }

  // ------------------------------------------------------------------ a whole pass

  function Judged(sessions: seq<SessionRecord>, local: Rows, now: Time, policy: Policy): (entries: seq<Entry>)
    ensures |entries| == |sessions|
    ensures forall i :: 0 <= i < |sessions| ==> entries[i] == Judge(sessions[i], local, now, policy)
    decreases |sessions|
  {
    if sessions == [] then [] else [Judge(sessions[0], local, now, policy)] + Judged(sessions[1..], local, now, policy)
  }

  function DryRun(e: Entry): Entry {
    if e.disposition == ORPHANED then e.(outcome := DRY_RUN) else e
  }

  function OrphansIn(entries: seq<Entry>): seq<Entry>
    decreases |entries|
  {
    if entries == [] then []
    else (if entries[0].disposition == ORPHANED then [entries[0]] else []) + OrphansIn(entries[1..])
  }

  lemma {:induction false} OrphansAppend(entries: seq<Entry>, e: Entry)
    ensures OrphansIn(entries + [e]) == OrphansIn(entries) + (if e.disposition == ORPHANED then [e] else [])
    decreases |entries|
  {
    if entries == [] {
      assert [e][1..] == [];
    } else {
      assert (entries + [e])[1..] == entries[1..] + [e];
      OrphansAppend(entries[1..], e);
      var head := if entries[0].disposition == ORPHANED then [entries[0]] else [];
      var last := if e.disposition == ORPHANED then [e] else [];
      assert (head + OrphansIn(entries[1..])) + last == head + (OrphansIn(entries[1..]) + last);
    }
  }

  lemma OrphansNext(entries: seq<Entry>, k: nat)
    requires k < |entries|
    ensures OrphansIn(entries[..k + 1])
      == OrphansIn(entries[..k]) + (if entries[k].disposition == ORPHANED then [entries[k]] else [])
  {
    OrphansAppend(entries[..k], entries[k]);
    assert entries[..k + 1] == entries[..k] + [entries[k]];
  }

  function ById(sessions: seq<SessionRecord>): map<Id, SessionRecord>
    decreases |sessions|
  {
    if sessions == [] then map[] else ById(sessions[1..])[sessions[0].id := sessions[0]]
  }

  /** The listed sessions that both looks find orphaned. */
  function TwiceOrphaned(sessions: seq<SessionRecord>, local: Rows, now: Time, confirmed: Rows, then': Time,
                         policy: Policy): seq<Id>
    decreases |sessions|
  {
    if sessions == [] then []
    else
      (if Orphaned(sessions[0], local, now, policy) && Orphaned(sessions[0], confirmed, then', policy)
        then [sessions[0].id] else [])
      + TwiceOrphaned(sessions[1..], local, now, confirmed, then', policy)
  }

  ghost predicate Distinct(ids: seq<Id>) {
    forall i, j :: 0 <= i < j < |ids| ==> ids[i] != ids[j]
  }

  /** Terminations are distinct listed sessions that both looks find orphaned. */
  lemma {:induction false} TwiceOrphanedIsDistinct(sessions: seq<SessionRecord>, local: Rows, now: Time,
                                                   confirmed: Rows, then': Time, policy: Policy)
    requires DistinctIds(sessions)
    ensures var ids := TwiceOrphaned(sessions, local, now, confirmed, then', policy);
      && Distinct(ids)
      && (forall id :: id in ids <==> TwiceOrphanedId(sessions, local, now, confirmed, then', policy, id))
    decreases |sessions|
  {
    if sessions != [] {
      var ids := TwiceOrphaned(sessions[1..], local, now, confirmed, then', policy);
      TwiceOrphanedIsDistinct(sessions[1..], local, now, confirmed, then', policy);
      var first := sessions[0].id;
      forall id ensures TwiceOrphanedId(sessions, local, now, confirmed, then', policy, id) <==>
        (id == first && Orphaned(sessions[0], local, now, policy) && Orphaned(sessions[0], confirmed, then', policy))
        || TwiceOrphanedId(sessions[1..], local, now, confirmed, then', policy, id)
      {
        assert sessions == [sessions[0]] + sessions[1..];
      }
      assert !TwiceOrphanedId(sessions[1..], local, now, confirmed, then', policy, first) by {
        assert forall s :: s in sessions[1..] ==> exists j :: 0 < j < |sessions| && sessions[j] == s;
      }
      assert first !in ids;
    }
  }

  predicate TwiceOrphanedId(sessions: seq<SessionRecord>, local: Rows, now: Time, confirmed: Rows, then': Time,
                            policy: Policy, id: Id) {
    exists s :: s in sessions && s.id == id && Orphaned(s, local, now, policy) && Orphaned(s, confirmed, then', policy)
  }

  function Recheck(sources: map<Id, SessionRecord>, confirmed: Rows, confirmedAt: Time,
                   policy: Policy): Id -> Option<Verdict> {
    id => if id in sources then Some(Classify(sources[id], confirmed, confirmedAt, policy)) else None
  }

  lemma {:induction false} StillIsTwice(sessions: seq<SessionRecord>, sources: map<Id, SessionRecord>, local: Rows,
                                        now: Time,
                                        confirmed: Rows, then': Time, policy: Policy)
    requires forall s :: s in sessions ==> s.id in sources && sources[s.id] == s
    ensures StillOrphaned(OrphansIn(Judged(sessions, local, now, policy)), Recheck(sources, confirmed, then', policy))
         == TwiceOrphaned(sessions, local, now, confirmed, then', policy)
    decreases |sessions|
  {
    if sessions != [] {
      var judged := Judged(sessions, local, now, policy);
      StillIsTwice(sessions[1..], sources, local, now, confirmed, then', policy);
      assert sessions[0] in sessions;
      var later := OrphansIn(judged[1..]);
      assert judged[1..] == Judged(sessions[1..], local, now, policy);
      if judged[0].disposition == ORPHANED {
        assert OrphansIn(judged) == [judged[0]] + later && ([judged[0]] + later)[1..] == later;
      } else {
        assert OrphansIn(judged) == [] + later && [] + later == later;
      }
    }
  }

  lemma {:induction false} ByIdFinds(sessions: seq<SessionRecord>)
    requires DistinctIds(sessions)
    ensures forall s :: s in sessions ==> s.id in ById(sessions) && ById(sessions)[s.id] == s
    decreases |sessions|
  {
    if sessions != [] {
      ByIdFinds(sessions[1..]);
      assert sessions == [sessions[0]] + sessions[1..];
      assert forall s :: s in sessions[1..] ==> exists j :: 0 < j < |sessions| && sessions[j] == s;
    }
  }

  lemma {:induction false} DeferredCounts(entries: seq<Entry>, i: nat)
    requires i < |entries| && entries[i].outcome == DEFERRED_TERMINATION_LIMIT
    ensures CountOf(entries).deferred >= 1
    decreases i
  {
    if i > 0 { DeferredCounts(entries[1..], i - 1); }
  }

  /** Everything a release round promises, about the listed sessions. */
  lemma ReleaseOfJudged(sessions: seq<SessionRecord>, local: Rows, now: Time, confirmed: Rows, then': Time,
                        policy: Policy,
                        rows: Rows, writable: bool, world: World)
    requires DistinctIds(sessions) && policy.Valid()
    ensures var orphans := OrphansIn(Judged(sessions, local, now, policy));
      var r := Release(orphans, Recheck(ById(sessions), confirmed, then', policy), policy.maxTerminations, rows,
        writable, world);
      var twice := TwiceOrphaned(sessions, local, now, confirmed, then', policy);
      && r.calls == twice[..Min(policy.maxTerminations, |twice|)]
      && (forall i :: 0 <= i < |r.entries| ==> Accounted(r.entries[i]))
      && (forall i :: 0 <= i < |r.entries| && r.entries[i].outcome == DEFERRED_TERMINATION_LIMIT ==>
           |r.calls| == policy.maxTerminations)
  {
    var orphans := OrphansIn(Judged(sessions, local, now, policy));
    var recheck := Recheck(ById(sessions), confirmed, then', policy);
    ByIdFinds(sessions);
    StillIsTwice(sessions, ById(sessions), local, now, confirmed, then', policy);
    OrphansAreFresh(Judged(sessions, local, now, policy));
    ReleaseCalls(orphans, recheck, policy.maxTerminations, rows, writable, world);
    ReleaseEntries(orphans, recheck, policy.maxTerminations, rows, writable, world);
    var r := Release(orphans, recheck, policy.maxTerminations, rows, writable, world);
    forall i | 0 <= i < |r.entries| && r.entries[i].outcome == DEFERRED_TERMINATION_LIMIT
      ensures |r.calls| == policy.maxTerminations
    {
      DeferredCounts(r.entries, i);
    }
  }

  lemma {:induction false} OrphansAreOwned(sessions: seq<SessionRecord>, local: Rows, now: Time, policy: Policy)
    ensures forall e :: e in OrphansIn(Judged(sessions, local, now, policy)) ==> e.owner.Some?
    decreases |sessions|
  {
    if sessions != [] {
      OrphansAreOwned(sessions[1..], local, now, policy);
      assert Judged(sessions, local, now, policy)[1..] == Judged(sessions[1..], local, now, policy);
    }
  }

  lemma {:induction false} OrphansAreFresh(entries: seq<Entry>)
    requires forall i :: 0 <= i < |entries| ==>
      entries[i].outcome == NONE && !entries[i].confirmed && !entries[i].localUpdated
    ensures forall i :: 0 <= i < |OrphansIn(entries)| ==> FreshOrphan(OrphansIn(entries)[i])
    decreases |entries|
  {
    if entries != [] { OrphansAreFresh(entries[1..]); }
  }

  /** The report of a dry run: every listed session judged, nothing done. */
  ghost predicate DryRunReport(entries: seq<Entry>, sessions: seq<SessionRecord>, local: Rows, now: Time,
                               policy: Policy) {
    |entries| == |sessions| &&
    forall i :: 0 <= i < |entries| ==> entries[i] == DryRun(Judge(sessions[i], local, now, policy))
  }

  /** The report of an executed pass: who was terminated, and what every record says. */
  ghost predicate ExecuteReport(entries: seq<Entry>, calls: seq<Id>, sessions: seq<SessionRecord>, local: Rows,
                                now: Time,
                                confirmed: Rows, then': Time, policy: Policy)
    requires policy.Valid()
  {
    var twice := TwiceOrphaned(sessions, local, now, confirmed, then', policy);
    && |entries| == |sessions|
    && calls == twice[..Min(policy.maxTerminations, |twice|)]
    && (forall i :: 0 <= i < |entries| ==> entries[i].id == sessions[i].id && Accounted(entries[i]))
    && (forall i :: 0 <= i < |entries| && entries[i].outcome == DEFERRED_TERMINATION_LIMIT ==>
         |calls| == policy.maxTerminations)
    && (forall i :: 0 <= i < |entries| && !Orphaned(sessions[i], local, now, policy) ==>
          entries[i] == Judge(sessions[i], local, now, policy))
  }

  predicate Reported(e: Entry, calls: nat, policy: Policy) {
    Accounted(e) && (e.outcome == DEFERRED_TERMINATION_LIMIT ==> calls == policy.maxTerminations)
  }

  predicate Follows(e: Entry, judged: Entry, calls: nat, policy: Policy) {
    e.id == judged.id && if judged.disposition == ORPHANED then Reported(e, calls, policy) else e == judged
  }

  lemma ReportFollows(entries: seq<Entry>, calls: seq<Id>, sessions: seq<SessionRecord>, local: Rows, now: Time,
                      confirmed: Rows, then': Time, policy: Policy)
    requires policy.Valid() && |entries| == |sessions|
    requires var judged := Judged(sessions, local, now, policy);
      forall i :: 0 <= i < |entries| ==> Follows(entries[i], judged[i], |calls|, policy)
    requires var twice := TwiceOrphaned(sessions, local, now, confirmed, then', policy);
      calls == twice[..Min(policy.maxTerminations, |twice|)]
    ensures ExecuteReport(entries, calls, sessions, local, now, confirmed, then', policy)
  {
    var judged := Judged(sessions, local, now, policy);
    forall i | 0 <= i < |entries|
      ensures Reported(entries[i], |calls|, policy) && entries[i].id == sessions[i].id
      ensures !Orphaned(sessions[i], local, now, policy) ==> entries[i] == judged[i]
    {
      assert Follows(entries[i], judged[i], |calls|, policy);
    }
  }

  // ------------------------------------------------------------------ the service

  class BrowserReconciliationService {
    const policy: Policy
    const store: LocalStore

    constructor (policy: Policy, store: LocalStore)
      requires policy.Valid()
      ensures this.policy == policy && this.store == store
    {
      this.policy := policy;
      this.store := store;
    }

    /** Running sessions first, then pending ones; the first record of an id is kept. */
    method ListLiveSessions(running: Listing, pending: Listing) returns (found: Listing)
      ensures found.ProviderError? <==> running.ProviderError? || pending.ProviderError?
      ensures found.Listed? ==>
        var source := running.sessions + pending.sessions;
        Dedups(found.sessions, source, |source|)
    {
      if running.ProviderError? { return running; }
      if pending.ProviderError? { return pending; }
      var source := running.sessions + pending.sessions;
      var sessions: seq<SessionRecord> := [];
      for k := 0 to |source|
        invariant Dedups(sessions, source, k)
      {
        DedupNext(sessions, source, k);
        if !HasId(sessions, source[k].id) {
          sessions := sessions + [source[k]];
        }
      }
      found := Listed(sessions);
    }

    /** One pass. The rows may be anything when the pass starts; `between` is what the
        backend did between the two snapshots, `judgedAt` and `confirmedAt` are the clock
        readings that follow them. */
    method Reconcile(execute: bool, running: Listing, pending: Listing, judgedAt: Time, between: Rows -> Rows,
                     confirmedAt: Time, world: World)
      returns (found: Listing, records: seq<SessionOutcome>, calls: seq<Id>)
      requires policy.Valid()
      modifies store`rows
      ensures forall r :: r in records ==> fresh(r)
      ensures found.ProviderError? <==> running.ProviderError? || pending.ProviderError?
      ensures found.ProviderError? ==> records == [] && calls == [] && store.rows == old(store.rows)
      ensures found.Listed? ==>
        Dedups(found.sessions, running.sessions + pending.sessions, |running.sessions + pending.sessions|)
      ensures found.Listed? && !execute ==>
        calls == [] && store.rows == old(store.rows) &&
          DryRunReport(Views(records), found.sessions, old(store.rows), judgedAt, policy)
      ensures found.Listed? && execute ==>
        ExecuteReport(Views(records), calls, found.sessions, old(store.rows), judgedAt, between(old(store.rows)),
          confirmedAt, policy)
        && store.rows == TableBefore(between(old(store.rows)), calls, |calls|, store.writable, world)
        && StopsExplained(between(old(store.rows)), store.rows, calls, store.writable, world)
        && (QuietBackend(world) ==> RowsJustified(between(old(store.rows)), store.rows, calls, store.writable, world))
    {
      records, calls := [], [];
      found := ListLiveSessions(running, pending);
      if found.Listed? {
        var local := store.Snapshot();
        if execute {
          records, calls := Execute(found.sessions, local, judgedAt, between, confirmedAt, world);
        } else {
          records := DryRun(found.sessions, local, judgedAt);
        }
      }
    }

    /** Judges and marks, and calls nobody. */
    method DryRun(sessions: seq<SessionRecord>, local: Rows, judgedAt: Time) returns (records: seq<SessionOutcome>)
      ensures forall r :: r in records ==> fresh(r)
      ensures DryRunReport(Views(records), sessions, local, judgedAt, policy)
    {
      records := JudgeAll(sessions, local, judgedAt);
      var orphans := SelectOrphans(records);
      MarkDryRun(orphans);
    }

    method Execute(sessions: seq<SessionRecord>, local: Rows, judgedAt: Time, between: Rows -> Rows, confirmedAt: Time,
                   world: World)
      returns (records: seq<SessionOutcome>, calls: seq<Id>)
      requires policy.Valid() && DistinctIds(sessions)
      requires local == store.rows
      modifies store`rows
      ensures forall r :: r in records ==> fresh(r)
      ensures ExecuteReport(Views(records), calls, sessions, local, judgedAt, between(local), confirmedAt, policy)
      ensures store.rows == TableBefore(between(local), calls, |calls|, store.writable, world)
      ensures StopsExplained(between(local), store.rows, calls, store.writable, world)
      ensures QuietBackend(world) ==> RowsJustified(between(local), store.rows, calls, store.writable, world)
    {
      records := JudgeAll(sessions, local, judgedAt);
      ghost var judged := Views(records);
      assert judged == Judged(sessions, local, judgedAt, policy);
      var orphans := SelectOrphans(records);
      store.Backend(between);
      calls := ReleaseConfirmed(orphans, sessions, ById(sessions), local, judgedAt, confirmedAt, world);
      ghost var views := Views(records);
      forall i | 0 <= i < |records| ensures Follows(views[i], judged[i], |calls|, policy) {
        if records[i] !in orphans { assert records[i].View() == judged[i]; }
      }
      ReportFollows(views, calls, sessions, local, judgedAt, between(local), confirmedAt, policy);
    }

    method ReleaseConfirmed(orphans: seq<SessionOutcome>, ghost sessions: seq<SessionRecord>,
                            sources: map<Id, SessionRecord>,
                            ghost local: Rows, ghost judgedAt: Time, confirmedAt: Time, world: World)
      returns (calls: seq<Id>)
      requires policy.Valid() && DistinctIds(sessions) && DistinctObjects(orphans) && sources == ById(sessions)
      requires Views(orphans) == OrphansIn(Judged(sessions, local, judgedAt, policy))
      modifies orphans, store`rows
      ensures var twice := TwiceOrphaned(sessions, local, judgedAt, old(store.rows), confirmedAt, policy);
        calls == twice[..Min(policy.maxTerminations, |twice|)]
      ensures forall o :: o in orphans ==> Reported(o.View(), |calls|, policy)
      ensures store.rows == TableBefore(old(store.rows), calls, |calls|, store.writable, world)
      ensures StopsExplained(old(store.rows), store.rows, calls, store.writable, world)
      ensures QuietBackend(world) ==> RowsJustified(old(store.rows), store.rows, calls, store.writable, world)
    {
      ghost var entries, rows := Views(orphans), store.rows;
      OrphansAreFresh(Judged(sessions, local, judgedAt, policy));
      calls := ReleaseOrphans(orphans, sources, confirmedAt, world);
      ReleaseOfJudged(sessions, local, judgedAt, rows, confirmedAt, policy, rows, store.writable, world);
      ghost var recheck := Recheck(sources, rows, confirmedAt, policy);
      OrphansAreOwned(sessions, local, judgedAt, policy);
      ReleaseTable(entries, recheck, policy.maxTerminations, rows, store.writable, world);
      ReleaseStops(entries, recheck, policy.maxTerminations, rows, store.writable, world);
      if QuietBackend(world) {
        ReleaseRows(entries, recheck, policy.maxTerminations, rows, store.writable, world);
      }
      ghost var views := Views(orphans);
      assert forall j :: 0 <= j < |orphans| ==> Reported(views[j], |calls|, policy);
    }

    /** Judges every listed session against one snapshot and one clock reading. */
    method JudgeAll(sessions: seq<SessionRecord>, local: Rows, now: Time) returns (records: seq<SessionOutcome>)
      ensures forall r :: r in records ==> fresh(r)
      ensures DistinctObjects(records)
      ensures Views(records) == Judged(sessions, local, now, policy)
    {
      records := [];
      for k := 0 to |sessions|
        invariant |records| == k
        invariant forall r :: r in records ==> fresh(r)
        invariant DistinctObjects(records)
        invariant forall i :: 0 <= i < k ==> records[i].View() == Judge(sessions[i], local, now, policy)
      {
        var record := new SessionOutcome(sessions[k], local, now, policy);
        records := records + [record];
      }
    }

    /** The outcomes to release: the same objects, not copies. */
    method SelectOrphans(records: seq<SessionOutcome>) returns (orphans: seq<SessionOutcome>)
      requires DistinctObjects(records)
      ensures DistinctObjects(orphans)
      ensures forall r :: r in orphans <==> r in records && r.disposition == ORPHANED
      ensures Views(orphans) == OrphansIn(Views(records))
    {
      orphans := [];
      ghost var judged := Views(records);
      for k := 0 to |records|
        invariant DistinctObjects(orphans)
        invariant forall r :: r in orphans <==> r in records[..k] && r.disposition == ORPHANED
        invariant Views(orphans) == OrphansIn(judged[..k])
      {
        ghost var before := Views(orphans);
        OrphansNext(judged, k);
        assert records[..k + 1] == records[..k] + [records[k]];
        if records[k].disposition == ORPHANED {
          orphans := orphans + [records[k]];
          assert Views(orphans) == before + [judged[k]];
        }
      }
      assert judged[..|records|] == judged;
    }

    method MarkDryRun(orphans: seq<SessionOutcome>)
      modifies orphans
      ensures forall i :: 0 <= i < |orphans| ==> orphans[i].View() == old(orphans[i].View()).(outcome := DRY_RUN)
    {
      for i := 0 to |orphans|
        invariant forall k :: 0 <= k < |orphans| ==>
          orphans[k].View() == old(orphans[k].View()) ||
            orphans[k].View() == old(orphans[k].View()).(outcome := DRY_RUN)
        invariant forall k :: 0 <= k < i ==> orphans[k].View() == old(orphans[k].View()).(outcome := DRY_RUN)
      {
        orphans[i].outcome := DRY_RUN;
      }
    }

    /** Judges the orphans again, against a snapshot taken now, and terminates within the
        budget. */
    method ReleaseOrphans(orphans: seq<SessionOutcome>, sources: map<Id, SessionRecord>, confirmedAt: Time,
                          world: World)
      returns (calls: seq<Id>)
      requires DistinctObjects(orphans)
      requires forall i :: 0 <= i < |orphans| ==> !orphans[i].localUpdated
      modifies orphans, store`rows
      ensures Released(Views(orphans), store.rows, calls)
           == Release(old(Views(orphans)), Recheck(sources, old(store.rows), confirmedAt, policy),
             policy.maxTerminations,
                      old(store.rows), store.writable, world)
    {
      if orphans == [] { return []; }
      var confirmed := store.Snapshot();
      calls := ReleaseEach(orphans, Recheck(sources, confirmed, confirmedAt, policy), world);
    }

    method ReleaseEach(orphans: seq<SessionOutcome>, recheck: Id -> Option<Verdict>, world: World)
      returns (calls: seq<Id>)
      requires DistinctObjects(orphans)
      requires forall i :: 0 <= i < |orphans| ==> !orphans[i].localUpdated
      modifies orphans, store`rows
      ensures Released(Views(orphans), store.rows, calls)
           == Release(old(Views(orphans)), recheck, policy.maxTerminations, old(store.rows), store.writable, world)
    {
      calls := [];
      var budget := policy.maxTerminations;
      ghost var entries := old(Views(orphans));
      ghost var all := Release(entries, recheck, budget, store.rows, store.writable, world);
      ghost var rest := all;
      assert entries[0..] == entries;
      for i := 0 to |orphans|
        invariant rest == Release(entries[i..], recheck, budget, store.rows, store.writable, world)
        invariant Midway(all, i, calls, rest)
        invariant Halfway(orphans, i, all.entries, entries)
      {
        assert orphans[i].View() == entries[i] == old(orphans[i].View());
        rest := UnfoldRelease(all, i, calls, rest, entries, recheck, budget, store.rows, store.writable, world);
        var left, called := ReleaseAt(orphans, i, recheck(orphans[i].id), budget, world, all.entries, entries);
        budget := left;
        calls := calls + (if called then [orphans[i].id] else []);
      }
      assert entries[|orphans|..] == [];
      assert Views(orphans) == all.entries;
    }

    /** The first `i` records say what they will say in the end, the others are as before. */
    ghost predicate Halfway(orphans: seq<SessionOutcome>, i: nat, done: seq<Entry>, entries: seq<Entry>)
      reads orphans
    {
      && |done| == |entries| == |orphans|
      && forall k :: 0 <= k < |orphans| ==> orphans[k].View() == if k < i then done[k] else entries[k]
    }

    /** The loop body of the release: one orphan of them all. */
    method ReleaseAt(orphans: seq<SessionOutcome>, i: nat, again: Option<Verdict>, budget: int, world: World,
                     ghost done: seq<Entry>, ghost entries: seq<Entry>)
      returns (left: int, called: bool)
      requires i < |orphans| && DistinctObjects(orphans) && Halfway(orphans, i, done, entries)
      requires !entries[i].localUpdated
      requires done[i] == ReleaseStep(entries[i], again, budget, store.rows, store.writable, world).entry
      modifies orphans[i], store`rows
      ensures Halfway(orphans, i + 1, done, entries)
      ensures Step(done[i], left, store.rows, called)
           == ReleaseStep(entries[i], again, budget, old(store.rows), store.writable, world)
    {
      left, called := ReleaseOne(orphans[i], again, budget, world);
      forall k | 0 <= k < |orphans| ensures orphans[k].View() == if k < i + 1 then done[k] else entries[k] {
        if k != i { assert orphans[k] != orphans[i]; }
      }
    }

    /** One orphan, one unit of budget at most. */
    method ReleaseOne(record: SessionOutcome, again: Option<Verdict>, budget: int, world: World)
      returns (left: int, called: bool)
      requires !record.localUpdated
      modifies record, store`rows
      ensures Step(record.View(), left, store.rows, called)
           == ReleaseStep(old(record.View()), again, budget, old(store.rows), store.writable, world)
    {
      left, called := budget, false;
      if again.Some? && again.value.disposition != ORPHANED {
        record.disposition := ACTIVE;
        record.reason := RECLAIMED_BY_BACKEND;
        record.localStatus := again.value.localStatus;
        record.outcome := NONE;
      } else if budget <= 0 {
        record.outcome := DEFERRED_TERMINATION_LIMIT;
      } else {
        left, called := budget - 1, true;
        Terminate(record, world);
      }
    }

    method Terminate(record: SessionOutcome, world: World)
      requires !record.localUpdated
      modifies record, store`rows
      ensures store.rows == RowsAfter(record.id, record.owner, old(store.rows), store.writable, world)
      ensures record.View() == Settle(old(record.View()), world.terminate(record.id),
                                      store.rows != world.backend(record.id)(old(store.rows)))
    {
      store.Backend(world.backend(record.id));
      var answer := world.terminate(record.id);
      match answer {
        case Gone =>
          record.outcome := ALREADY_TERMINAL;
          record.confirmed := true;
        case Refused(_, _) =>
          record.outcome := FAILED;
          return;
        case Ended(status, already) =>
          record.confirmed := status.Terminal();
          if !record.confirmed {
            record.outcome := FAILED;
            return;
          }
          record.outcome := if already then ALREADY_TERMINAL else TERMINATED;
      }
      if record.owner.Some? {
        if world.writeFails(record.id) {
          record.localUpdated := false;
        } else {
          record.localUpdated := store.RecordRelease(record.id, world.clock(record.id));
        }
      }
    }
  }
}
