/** One executed pass racing with the backend that writes the same rows. Every step of
    either side is atomic; steps interleave in any order and all clocks are one clock that
    never runs backwards. */
module ReleaseRace {
  import opened Reconciliation

  /** How far the pass has come. Each clock is read after the snapshot it belongs to, so
      the backend can move in between. */
  datatype Stage =
    | Idle
    | Inventoried(sessions: seq<SessionRecord>)
    | FirstSnapshot(sessions: seq<SessionRecord>, local: Rows)
    | FirstJudged(sessions: seq<SessionRecord>, orphans: seq<SessionRecord>)
    | SecondSnapshot(sessions: seq<SessionRecord>, orphans: seq<SessionRecord>, confirmed: Rows)
    | Releasing(todo: seq<SessionRecord>, confirmed: Rows, confirmedAt: Time, budget: int)

  datatype State = State(now: Time, rows: Rows, stage: Stage, terminated: set<Id>)

  datatype Action =
    | Tick(elapsed: nat)
    // the backend
    | SaveRow(web: Id, provider: Id)
    | MarkConnected(web: Id)
    | MarkStopped(web: Id, confirmed: bool)
    // the pass
    | List(sessions: seq<SessionRecord>)
    | TakeSnapshot
    | ReadClock
    | ReleaseOne(answer: Termination, writeFails: bool)

  /** Keeps the provider id unique across rows, as the table does. */
  predicate UniqueProvider(rows: Rows, web: Id, provider: Id) {
    forall w :: w in rows && rows[w].provider == provider ==> w == web
  }

  /** Insert or, for a session that had a row before, replace the provider id and the
      status; an older creation and attachment time stay. */
  function Save(rows: Rows, web: Id, provider: Id, now: Time): Rows {
    if !UniqueProvider(rows, web, provider) then rows
    else if web in rows then rows[web := rows[web].(provider := provider, status := Connected)]
    else rows[web := Row(provider, Connected, Some(now), None, None)]
  }

  function Update(rows: Rows, web: Id, status: LocalStatus, now: Time): Rows {
    if web !in rows then rows
    else
      var row := rows[web].(status := status);
      if status.Connected? then rows[web := row.(attachedAt := Some(now))]
      else if row.Released() then rows[web := row.(stoppedAt := Some(now))]
      else rows[web := row]
  }

  function OrphansAt(sessions: seq<SessionRecord>, local: Rows, now: Time,
                     policy: Policy): (orphans: seq<SessionRecord>)
    ensures forall s :: s in orphans ==> s in sessions && Orphaned(s, local, now, policy)
    decreases |sessions|
  {
    if sessions == [] then []
    else
      (if Orphaned(sessions[0], local, now, policy) then [sessions[0]] else [])
        + OrphansAt(sessions[1..], local, now, policy)
  }

  function Apply(s: State, a: Action, policy: Policy): State {
    match a
    case Tick(elapsed) => s.(now := s.now + elapsed)
    case SaveRow(web, provider) => s.(rows := Save(s.rows, web, provider, s.now))
    case MarkConnected(web) => s.(rows := Update(s.rows, web, Connected, s.now))
    case MarkStopped(web, confirmed) =>
      s.(rows := Update(s.rows, web, if confirmed then Stopped else TerminationFailed, s.now))
    case List(sessions) => if s.stage.Idle? then s.(stage := Inventoried(sessions)) else s
    case TakeSnapshot =>
      (match s.stage
       case Inventoried(sessions) => s.(stage := FirstSnapshot(sessions, s.rows))
       case FirstJudged(sessions, orphans) => s.(stage := SecondSnapshot(sessions, orphans, s.rows))
       case _ => s)
    case ReadClock =>
      (match s.stage
       case FirstSnapshot(sessions, local) =>
         s.(stage := FirstJudged(sessions, OrphansAt(sessions, local, s.now, policy)))
       case SecondSnapshot(sessions, orphans, confirmed) =>
         s.(stage := Releasing(orphans, confirmed, s.now, policy.maxTerminations))
       case _ => s)
    case ReleaseOne(answer, writeFails) =>
      if !s.stage.Releasing? || s.stage.todo == [] then s
      else
        var p := s.stage.todo[0];
        var rest := s.stage.(todo := s.stage.todo[1..]);
        if !Orphaned(p, s.stage.confirmed, s.stage.confirmedAt, policy) || s.stage.budget <= 0 then s.(stage := rest)
        else State(
          s.now,
          if answer.Confirms() && !writeFails then MarkReleased(s.rows, p.id, s.now) else s.rows,
          rest.(budget := s.stage.budget - 1),
          s.terminated + {p.id})
  }

  function Run(s: State, actions: seq<Action>, policy: Policy): State
    decreases |actions|
  {
    if actions == [] then s else Run(Apply(s, actions[0], policy), actions[1..], policy)
  }

  /** The final connected form of a row. */
  predicate HoldsConnected(rows: Rows, web: Id, provider: Id, attachedAt: Time) {
    && web in rows && rows[web].provider == provider
    && rows[web].status == Connected && rows[web].attachedAt == Some(attachedAt)
  }

  ghost function At(start: State, actions: seq<Action>, k: nat, policy: Policy): State
    requires k <= |actions|
  {
    Run(start, actions[..k], policy)
  }

  lemma {:induction false} RunNext(start: State, actions: seq<Action>, a: Action, policy: Policy)
    ensures Run(start, actions + [a], policy) == Apply(Run(start, actions, policy), a, policy)
    decreases |actions|
  {
    if actions == [] {
      assert [a][1..] == [] && actions + [a] == [a];
    } else {
      assert (actions + [a])[1..] == actions[1..] + [a];
      RunNext(Apply(start, actions[0], policy), actions[1..], a, policy);
    }
  }

  lemma AtNext(start: State, actions: seq<Action>, k: nat, policy: Policy)
    requires k < |actions|
    ensures At(start, actions, k + 1, policy) == Apply(At(start, actions, k, policy), actions[k], policy)
  {
    assert actions[..k + 1] == actions[..k] + [actions[k]];
    RunNext(start, actions[..k], actions[k], policy);
  }

  lemma {:induction false} ClockIsMonotone(start: State, actions: seq<Action>, j: nat, k: nat, policy: Policy)
    requires j <= k <= |actions|
    ensures At(start, actions, j, policy).now <= At(start, actions, k, policy).now
    decreases k - j
  {
    if j < k {
      AtNext(start, actions, k - 1, policy);
      ClockIsMonotone(start, actions, j, k - 1, policy);
    }
  }

  // ------------------------------------------------------------------ the pass is that of the service

  /** The orphans of the first look that are still orphaned at the second. */
  function StillAt(orphans: seq<SessionRecord>, confirmed: Rows, then': Time, policy: Policy): seq<Id>
    decreases |orphans|
  {
    if orphans == [] then []
    else
      (if Orphaned(orphans[0], confirmed, then', policy) then [orphans[0].id] else [])
        + StillAt(orphans[1..], confirmed, then', policy)
  }

  lemma {:induction false} TwoLooksAreTwice(sessions: seq<SessionRecord>, local: Rows, now: Time, confirmed: Rows,
                                            then': Time, policy: Policy)
    ensures StillAt(OrphansAt(sessions, local, now, policy), confirmed, then', policy)
         == TwiceOrphaned(sessions, local, now, confirmed, then', policy)
    decreases |sessions|
  {
    if sessions != [] {
      TwoLooksAreTwice(sessions[1..], local, now, confirmed, then', policy);
      var later := OrphansAt(sessions[1..], local, now, policy);
      assert [] + later == later && ([sessions[0]] + later)[1..] == later;
    }
  }

  /** One release after the other, with the provider's answers. */
  function Releases(todo: seq<SessionRecord>, world: World): (actions: seq<Action>)
    decreases |todo|
  {
    if todo == [] then []
    else [ReleaseOne(world.terminate(todo[0].id), world.writeFails(todo[0].id))] + Releases(todo[1..], world)
  }

  /** The entries are those of the sessions, and each is judged again as the pass does. */
  ghost predicate SameRelease(s: State, entries: seq<Entry>, recheck: Id -> Option<Verdict>, policy: Policy) {
    && s.stage.Releasing? && |entries| == |s.stage.todo|
    && forall i :: 0 <= i < |entries| ==>
         && entries[i].id == s.stage.todo[i].id && entries[i].owner.Some?
         && recheck(entries[i].id) == Some(Classify(s.stage.todo[i], s.stage.confirmed, s.stage.confirmedAt, policy))
  }

  lemma {:induction false} OneReleaseRefines(s: State, e: Entry, verdict: Verdict, policy: Policy, world: World)
    requires s.stage.Releasing? && s.stage.todo != [] && e.id == s.stage.todo[0].id && e.owner.Some?
    requires verdict == Classify(s.stage.todo[0], s.stage.confirmed, s.stage.confirmedAt, policy)
    requires QuietBackend(world) && world.clock(e.id) == s.now
    ensures var next := Apply(s, ReleaseOne(world.terminate(e.id), world.writeFails(e.id)), policy);
      var step := ReleaseStep(e, Some(verdict), s.stage.budget, s.rows, true, world);
      && next.rows == step.rows && next.now == s.now &&
           next.terminated == s.terminated + (if step.called then {e.id} else {})
      && next.stage == s.stage.(todo := s.stage.todo[1..], budget := step.budget)
  {
    assert world.backend(e.id)(s.rows) == s.rows;
  }

  /** Releasing step by step, when nothing interferes, is the release of the service: the
      same rows, and exactly the called sessions terminated. */
  lemma {:induction false} ReleasesRefine(s: State, entries: seq<Entry>, recheck: Id -> Option<Verdict>, policy: Policy,
                                          world: World)
    requires SameRelease(s, entries, recheck, policy) && QuietBackend(world) && forall id :: world.clock(id) == s.now
    ensures var r := Release(entries, recheck, s.stage.budget, s.rows, true, world);
      var end := Run(s, Releases(s.stage.todo, world), policy);
      && end.rows == r.rows && end.terminated == s.terminated + set id | id in r.calls
    decreases |entries|
  {
    if entries != [] {
      var todo := s.stage.todo;
      var e := entries[0];
      var next := Apply(s, ReleaseOne(world.terminate(e.id), world.writeFails(e.id)), policy);
      var step := ReleaseStep(e, recheck(e.id), s.stage.budget, s.rows, true, world);
      OneReleaseRefines(s, e, Classify(todo[0], s.stage.confirmed, s.stage.confirmedAt, policy), policy, world);
      ReleasesRefine(next, entries[1..], recheck, policy, world);
      assert Releases(todo, world)[1..] == Releases(todo[1..], world);
    }
  }

  // ------------------------------------------------------------------ the promise

  predicate NotExpired(p: SessionRecord, now: Time) {
    p.expiresAt.Some? ==> p.expiresAt.value > now
  }

  predicate PastGrace(p: SessionRecord, now: Time, policy: Policy) {
    p.createdAt.Some? && now >= p.createdAt.value + policy.startupGrace
  }

  /** Whenever the provider is listed, the protected session appears as it is. */
  predicate TrueListing(sessions: seq<SessionRecord>, p: SessionRecord) {
    forall s :: s in sessions && s.id == p.id ==> s == p
  }

  /** The row of `p` reaches its final connected form at step `reached`, before the startup
      grace ends, and keeps it at least until the second snapshot; when the second clock is
      read `p` is inside its lease and not past the provider's deadline. */
  ghost predicate Protected(start: State, actions: seq<Action>, p: SessionRecord, attachedAt: Time, reached: nat,
                            policy: Policy) {
    && start.stage == Idle && start.terminated == {}
    && p.owner.Some? && p.createdAt.Some?
    && (forall k :: 0 <= k < |actions| && actions[k].List? ==> TrueListing(actions[k].sessions, p))
    && reached <= |actions|
    && At(start, actions, reached, policy).now < p.createdAt.value + policy.startupGrace
    && (forall k {:trigger At(start, actions, k, policy)} ::
         reached <= k <= |actions| && At(start, actions, k, policy).stage.FirstJudged? ==>
          HoldsConnected(At(start, actions, k, policy).rows, p.owner.value, p.id, attachedAt))
    && (forall k {:trigger At(start, actions, k, policy)} ::
         0 <= k <= |actions| && At(start, actions, k, policy).stage.Releasing? ==>
          var t := At(start, actions, k, policy).stage.confirmedAt;
          NotExpired(p, t) && t - attachedAt <= policy.leaseTtl + policy.leaseGrace)
  }

  /** What holds at every point of such a run. */
  ghost predicate Safe(s: State, p: SessionRecord, attachedAt: Time, policy: Policy)
    requires p.owner.Some?
  {
    && p.id !in s.terminated
    && (match s.stage
        case Idle => true
        case Inventoried(sessions) => TrueListing(sessions, p)
        case FirstSnapshot(sessions, _) => TrueListing(sessions, p)
        case FirstJudged(sessions, orphans) =>
          TrueListing(orphans, p) && (p in orphans ==> PastGrace(p, s.now, policy) || !NotExpired(p, s.now))
        case SecondSnapshot(sessions, orphans, confirmed) =>
          TrueListing(orphans, p) &&
          (p in orphans ==> HoldsConnected(confirmed, p.owner.value, p.id, attachedAt) || !NotExpired(p, s.now))
        case Releasing(todo, confirmed, confirmedAt, _) =>
          TrueListing(todo, p) && (p in todo ==> !Orphaned(p, confirmed, confirmedAt, policy)))
  }

  lemma SafeStep(s: State, a: Action, p: SessionRecord, attachedAt: Time, policy: Policy)
    requires p.owner.Some? && p.createdAt.Some? && Safe(s, p, attachedAt, policy)
    requires a.List? ==> TrueListing(a.sessions, p)
    requires s.stage.FirstJudged? && PastGrace(p, s.now, policy) ==>
      HoldsConnected(s.rows, p.owner.value, p.id, attachedAt)
    requires Apply(s, a, policy).stage.Releasing? ==>
      var t := Apply(s, a, policy).stage.confirmedAt;
      NotExpired(p, t) && t - attachedAt <= policy.leaseTtl + policy.leaseGrace
    ensures Safe(Apply(s, a, policy), p, attachedAt, policy)
  {
    if a.ReleaseOne? && s.stage.Releasing? && s.stage.todo != [] {
      var q := s.stage.todo[0];
      assert q in s.stage.todo;
      assert forall x :: x in s.stage.todo[1..] ==> x in s.stage.todo;
    }
  }

  /** The two-snapshot promise: a session whose row is in place before the grace ends and
      stays there is never terminated, however the steps interleave. */
  lemma {:induction false} TwoSnapshotsProtect(start: State, actions: seq<Action>, k: nat, p: SessionRecord,
                                               attachedAt: Time,
                                               reached: nat, policy: Policy)
    requires policy.Valid() && k <= |actions|
    requires Protected(start, actions, p, attachedAt, reached, policy)
    ensures p.id !in At(start, actions, k, policy).terminated
    ensures Safe(At(start, actions, k, policy), p, attachedAt, policy)
    decreases k
  {
    if k == 0 {
      assert actions[..0] == [];
    } else {
      TwoSnapshotsProtect(start, actions, k - 1, p, attachedAt, reached, policy);
      AtNext(start, actions, k - 1, policy);
      var s := At(start, actions, k - 1, policy);
      if s.stage.FirstJudged? && PastGrace(p, s.now, policy) {
        if k - 1 < reached { ClockIsMonotone(start, actions, k - 1, reached, policy); }
      }
      SafeStep(s, actions[k - 1], p, attachedAt, policy);
    }
  }

  // ------------------------------------------------------------------ why two, and why strictly before

  predicate Ordinary(p: SessionRecord, policy: Policy) {
    && p.owner.Some? && p.createdAt.Some? && p.expiresAt.None?
    && p.status.Live() && !p.agentSurface && (policy.matchEnvironment ==> p.environment == Some(policy.environment))
  }

  function RacingRun(p: SessionRecord, policy: Policy): seq<Action>
    requires Ordinary(p, policy) && policy.startupGrace >= 0
  {
    [List([p]), TakeSnapshot, SaveRow(p.owner.value, p.id), MarkConnected(p.owner.value), Tick(policy.startupGrace),
      ReadClock]
  }

  /** One snapshot is not enough under any policy with a startup grace: a session in place
      at once is judged orphaned by the first look, because its clock is read later than
      its snapshot. The second look spares it, exactly if its lease has not run out before
      the grace. */
  lemma OneSnapshotCondemns(p: SessionRecord, policy: Policy)
    requires policy.Valid() && Ordinary(p, policy) && policy.startupGrace > 0
    requires policy.maxTerminations > 0
    ensures var start := State(p.createdAt.value, map[], Idle, {});
      var judged := Run(start, RacingRun(p, policy), policy);
      var end := Run(judged, [TakeSnapshot, ReadClock, ReleaseOne(Gone, false)], policy);
      && HoldsConnected(Run(start, RacingRun(p, policy)[..4], policy).rows, p.owner.value, p.id, p.createdAt.value)
      && Run(start, RacingRun(p, policy)[..4], policy).now < p.createdAt.value + policy.startupGrace
      && HoldsConnected(judged.rows, p.owner.value, p.id, p.createdAt.value)
      && judged.stage == FirstJudged([p], [p])
      && end.stage.Releasing? && end.stage.todo == []
      && end.terminated == if policy.startupGrace <= policy.leaseTtl + policy.leaseGrace then {} else {p.id}
  {
    var web := p.owner.value;
    var start := State(p.createdAt.value, map[], Idle, {});
    var s1 := Apply(start, List([p]), policy);
    var s2 := Apply(s1, TakeSnapshot, policy);
    var s3 := Apply(s2, SaveRow(web, p.id), policy);
    var s4 := Apply(s3, MarkConnected(web), policy);
    var s5 := Apply(s4, Tick(policy.startupGrace), policy);
    var s6 := Apply(s5, ReadClock, policy);
    Run4(start, List([p]), TakeSnapshot, SaveRow(web, p.id), MarkConnected(web), policy);
    Run2(s4, Tick(policy.startupGrace), ReadClock, policy);
    assert OrphansAt([p], map[], s5.now, policy) == [p] + OrphansAt([p][1..], map[], s5.now, policy);
    assert RacingRun(p, policy)[..4] == [List([p]), TakeSnapshot, SaveRow(web, p.id), MarkConnected(web)];
    assert RacingRun(p, policy) == RacingRun(p, policy)[..4] + [Tick(policy.startupGrace), ReadClock];
    RunTwice(start, RacingRun(p, policy)[..4], [Tick(policy.startupGrace), ReadClock], policy);
    Run3(s6, TakeSnapshot, ReadClock, ReleaseOne(Gone, false), policy);
  }

  lemma Run2(s: State, a: Action, b: Action, policy: Policy)
    ensures Run(s, [a, b], policy) == Apply(Apply(s, a, policy), b, policy)
  {
    assert [a, b][1..] == [b] && [b][1..] == [];
    assert Run(Apply(s, a, policy), [b], policy) == Apply(Apply(s, a, policy), b, policy);
  }

  lemma Run3(s: State, a: Action, b: Action, c: Action, policy: Policy)
    ensures Run(s, [a, b, c], policy) == Apply(Apply(Apply(s, a, policy), b, policy), c, policy)
  {
    assert [a, b, c][1..] == [b, c];
    Run2(Apply(s, a, policy), b, c, policy);
  }

  lemma Run4(s: State, a: Action, b: Action, c: Action, d: Action, policy: Policy)
    ensures Run(s, [a, b, c, d], policy) == Apply(Apply(Apply(Apply(s, a, policy), b, policy), c, policy), d, policy)
  {
    assert [a, b, c, d][1..] == [b, c, d];
    Run3(Apply(s, a, policy), b, c, d, policy);
  }

  lemma {:induction false} RunTwice(s: State, a: seq<Action>, b: seq<Action>, policy: Policy)
    ensures Run(s, a + b, policy) == Run(Run(s, a, policy), b, policy)
    decreases |a|
  {
    if a == [] {
      assert a + b == b;
    } else {
      assert (a + b)[1..] == a[1..] + b;
      RunTwice(Apply(s, a[0], policy), a[1..], b, policy);
    }
  }

  /** The row must be in place strictly before the grace ends: a row written in the very
      instant the grace runs out can miss both snapshots. */
  lemma RowAtTheLastInstantIsTooLate(p: SessionRecord, policy: Policy)
    requires policy.Valid() && Ordinary(p, policy) && policy.maxTerminations > 0
    ensures var start := State(p.createdAt.value + policy.startupGrace, map[], Idle, {});
      var web := p.owner.value;
      var looked := Run(start, [List([p]), TakeSnapshot, ReadClock, TakeSnapshot], policy);
      var placed := Run(looked, [ReadClock, SaveRow(web, p.id), MarkConnected(web)], policy);
      var end := Apply(placed, ReleaseOne(Gone, false), policy);
      && HoldsConnected(placed.rows, web, p.id, p.createdAt.value + policy.startupGrace)
      && placed.now == p.createdAt.value + policy.startupGrace
      && p.id in end.terminated
  {
    var web := p.owner.value;
    var start := State(p.createdAt.value + policy.startupGrace, map[], Idle, {});
    Run4(start, List([p]), TakeSnapshot, ReadClock, TakeSnapshot, policy);
    var looked := Run(start, [List([p]), TakeSnapshot, ReadClock, TakeSnapshot], policy);
    Run3(looked, ReadClock, SaveRow(web, p.id), MarkConnected(web), policy);
    assert OrphansAt([p], map[], start.now, policy) == [p] + OrphansAt([p][1..], map[], start.now, policy);
  }
}
