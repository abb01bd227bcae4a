/** The orchestrator of guided sessions. Every dictionary entry and table row of one session
    is keyed by its id and its critical sections hold that id's lock, so one object holds
    all of them; sections of other sessions touch other objects. While a section waits,
    only `stop_browser`, which takes no lock, may write the row. Any wait may raise. */
module Orchestrator {
  import opened Sessions
  import opened SkillRepair

  type CandidateId = string

  datatype CommandType =
    | OFFER_HELP | PRESENT_GUIDANCE | SAFETY_PAUSE | COMMAND_ESCALATED | COMMAND_COMPLETED | COMMAND_PREPARED
    | COMMAND_UNAVAILABLE

  datatype Command = Command(kind: CommandType, version: nat)

  datatype ActiveStep = ActiveStep(command: Command, candidate: CandidateId, decided: bool, mode: GuidanceMode)

  datatype Task = BeginGuidance | ResumeAfterReroute | StopBrowser

  datatype Error = Refused | Denied | Broken

  datatype Outcome<+T> = Done(value: T) | Failed(error: Error)

  /** A section that cannot be refused: it is done, or a wait or a value in it raised. */
  predicate Breaks(r: Outcome<bool>) {
    r.Failed? ==> r.error.Broken?
  }

  /** How an awaited call ends; a cancellation passes through `except Exception`. */
  datatype Reply<+T> = Replied(value: T) | Raised | Cancelled

  /** What the planner of guidance may answer: only a presentation or a pause carries a
      decision, and a presentation always names a candidate of the page. */
  datatype Advice =
    | Present(candidate: CandidateId, decided: bool)
    | Pause(escalate: bool)
    | NoAdvice
    | TooManyRepairs

  predicate Decided(advice: Advice) {
    advice.Pause? || (advice.Present? && advice.decided)
  }

  function AdviceCommand(advice: Advice): CommandType {
    match advice
    case Present(_, _) => PRESENT_GUIDANCE
    case Pause(_) => SAFETY_PAUSE
    case NoAdvice => COMMAND_UNAVAILABLE
    case TooManyRepairs => COMMAND_ESCALATED
  }

  /** The state that applying an advice first moves to. */
  function FirstMove(advice: Advice): SessionState {
    match advice
    case Present(_, _) => GUIDING
    case Pause(escalate) => if escalate then ESCALATED else SAFETY_PAUSED
    case NoAdvice => PROVIDER_UNAVAILABLE
    case TooManyRepairs => ESCALATED
  }

  datatype BrowserStart = Started | Unreachable | StartCancelled

  /** What the provider answers to a saved revision: perhaps a document of its own. */
  datatype Saved = Saved(echo: Option<SkillDocument>, skillId: Option<string>)

  /** Everything outside: the answer to each await, by the time at which it ends, and the
      outcomes of the `stop_browser` calls that finish meanwhile. */
  datatype World = World(
    stops: nat -> seq<bool>,
    quiet: nat -> Reply<bool>,
    start: nat -> BrowserStart,
    snapshot: nat -> Reply<bool>,
    matched: nat -> Option<CandidateId>,
    highlight: nat -> Reply<bool>,
    decide: nat -> Reply<Advice>,
    verify: nat -> Reply<bool>,
    completed: nat -> Reply<bool>,
    getSkill: nat -> Reply<SkillDocument>,
    saveRevision: nat -> Reply<Saved>,
    saveRun: nat -> Reply<Option<string>>)
  {
    /** The guidance service only names candidates and never answers what only replay does. */
    ghost predicate Valid() {
      forall t :: decide(t).Replied? ==>
        !decide(t).value.TooManyRepairs? && (decide(t).value.Present? ==> decide(t).value.decided)
    }

    /** No saved repair is answered with a document, as with the provider's own client. */
    ghost predicate NeverAnswers() {
      forall t :: saveRevision(t).Replied? ==> saveRevision(t).value.echo.None?
    }

    /** Nothing raises, every step is verified and no control of the page is that of a
        saved step, so that a replay repairs each step. */
    ghost predicate Smooth() {
      && (forall t :: start(t).Started? && quiet(t).Replied? && snapshot(t).Replied?)
      && (forall t :: matched(t).None? && decide(t).Replied? && decide(t).value.Present?)
      && (forall t :: verify(t) == Replied(true))
      && (forall t :: getSkill(t).Replied?)
      && (forall t :: saveRevision(t).Replied? && saveRevision(t).value.skillId.Some?)
    }
  }

  /** What the browser bridge reports. A chosen candidate carries the step that would be
      recorded for it, if it has any stable selector. */
  datatype Chosen = Chosen(candidate: CandidateId, step: Option<SkillStep>)
  datatype Payload = NoCandidate | BadCandidate | Candidate(chosen: Chosen)
  datatype EventKind = GuidanceDismissed | UserAction(payload: Payload) | OtherEvent
  datatype Event = Event(id: string, bound: bool, page: string, at: int, kind: EventKind)

  /** The stuck detector's verdict on an event, and whether help was dismissed on this page
      less than ten minutes ago. */
  datatype Stuck = NotStuck | AsksForHelp | LooksStuck(dismissedRecently: bool)

  function PickMode(row: Row, advice: Advice): GuidanceMode {
    if row.state.REPAIRING? || (Decided(advice) && row.mode.REPLAY?) then RepairMode
    else if row.mode.REPLAY? then ReplayMode
    else ColdMode
  }

  function FinalState(outcome: SkillOutcome): SessionState {
    if outcome.Completed? then COMPLETED else PREPARED
  }

  function Closing(outcome: SkillOutcome): CommandType {
    if outcome.Completed? then COMMAND_COMPLETED else COMMAND_PREPARED
  }

  const REPAIR_REASON: string := "selector_or_transition_changed"

  /** What a checked step adds to the recorded route: a verified step that a decision
      guided, not one replayed from memory. */
  function Recorded(verified: bool, chosen: Chosen, step: ActiveStep): seq<SkillStep> {
    if verified && step.mode in {ColdMode, RepairMode} && step.decided && chosen.step.Some? then [chosen.step.value]
      else []
  }

  /** Where an accepted advice leaves the session. */
  function Landing(advice: Advice): SessionState {
    if advice.Present? then AWAITING_USER_ACTION else FirstMove(advice)
  }

  /** What a replay with its skill at hand answers at time `t`. */
  function ReplayReply(world: World, t: nat, attempts: nat): Reply<Advice> {
    if world.matched(t).None? then Unmatched(world, t, attempts)
    else
      match world.highlight(t)
      case Raised => Raised
      case Cancelled => Cancelled
      case Replied(shown) => if shown then Replied(Present(world.matched(t).value, false))
        else Unmatched(world, t + 1, attempts)
  }

  /** The same when the skill is still to be loaded. */
  function ReplayAnswer(world: World, t: nat, row: Row, skill: Option<SkillDocument>): Reply<Advice> {
    match skill
    case Some(document) => StepReply(world, t, row, document)
    case None =>
      if row.skillId.None? then Raised
      else
        match world.getSkill(t)
        case Raised => Raised
        case Cancelled => Cancelled
        case Replied(document) => StepReply(world, t + 1, row, document)
  }

  function StepReply(world: World, t: nat, row: Row, document: SkillDocument): Reply<Advice> {
    if row.index < |document.steps| then ReplayReply(world, t, row.repairAttempts) else Raised
  }

  function Unmatched(world: World, t: nat, attempts: nat): Reply<Advice> {
    if attempts >= 2 then Replied(TooManyRepairs) else world.decide(t)
  }

  /** A document the provider answered to a saved repair: when, for which step, and of how
      many steps the repaired skill was. */
  datatype Answered = Answered(at: nat, index: nat, steps: nat, document: SkillDocument)

  /** Where the skill of a session comes from: the document loaded or last answered, the
      repairs made since, and all documents answered so far. */
  datatype Origin = Origin(base: Option<SkillDocument>, repairs: seq<Repair>, answers: seq<Answered>)

  /** An answered document has lost the very step that was repaired. */
  ghost predicate Lost(origin: Origin) {
    exists a :: a in origin.answers && |a.document.steps| <= a.index
  }

  /** The skill is its base with all repairs since, and bases are what the provider gave. */
  ghost predicate Traced(world: World, skill: Option<SkillDocument>, origin: Origin) {
    && (skill.None? ==> origin == Origin(None, [], [])) && (skill.Some? ==> origin.base.Some?)
    && (skill.Some? ==> RepairAll(origin.base.value, origin.repairs) == Revised(skill.value))
    && (forall a :: a in origin.answers ==> AnsweredBy(world, a))
    && (origin.answers == [] && skill.Some? ==> exists t :: Loaded(world, t, origin.base.value))
  }

  ghost predicate AnsweredBy(world: World, a: Answered) {
    && world.saveRevision(a.at).Replied? && world.saveRevision(a.at).value.echo == Some(a.document)
    && a.index < a.steps
  }

  ghost predicate Loaded(world: World, t: nat, document: SkillDocument) {
    world.getSkill(t) == Replied(document)
  }

  lemma LoadedIsTraced(world: World, t: nat, document: SkillDocument)
    requires Loaded(world, t, document)
    ensures Traced(world, Some(document), Origin(Some(document), [], [])) && !Lost(Origin(Some(document), [], []))
  {
  }

  lemma RepairIsTraced(world: World, skill: SkillDocument, origin: Origin, repair: Repair)
    requires Traced(world, Some(skill), origin) && repair.stepIndex < |skill.steps|
    ensures var revised := ReviseOneStep(skill, repair.stepIndex, repair.replacement, repair.reason).skill;
      var after := origin.(repairs := origin.repairs + [repair]);
      Traced(world, Some(revised), after) && (Lost(after) <==> Lost(origin))
  {
    RepairOneMore(origin.base.value, origin.repairs, repair);
  }

  lemma AnswerIsTraced(world: World, skill: SkillDocument, origin: Origin, a: Answered)
    requires Traced(world, Some(skill), origin) && AnsweredBy(world, a)
    ensures var after := Origin(Some(a.document), [], origin.answers + [a]);
      Traced(world, Some(a.document), after) && (Lost(after) <==> Lost(origin) || |a.document.steps| <= a.index)
  {
    var after := Origin(Some(a.document), [], origin.answers + [a]);
    assert a in after.answers;
    assert forall b :: b in after.answers <==> b in origin.answers || b == a;
  }

  /** Answers at least as long as what was repaired never lose a step; a world that answers
      no document leaves the repairs of the very document it was asked for. */
  lemma KeptSteps(world: World, skill: Option<SkillDocument>, origin: Origin)
    requires Traced(world, skill, origin)
    ensures (forall a :: a in origin.answers ==> a.steps <= |a.document.steps|) ==> !Lost(origin)
    ensures world.NeverAnswers() ==> !Lost(origin) && OnlyRepaired(world, skill, origin)
  {
    if origin.answers != [] {
      assert AnsweredBy(world, origin.answers[0]);
      assert !world.NeverAnswers();
    }
  }

  /** The skill is that of one answer to the first request, with all repairs since. */
  ghost predicate OnlyRepaired(world: World, skill: Option<SkillDocument>, origin: Origin) {
    skill.Some? ==>
      && origin.base.Some? && (exists t :: Loaded(world, t, origin.base.value))
      && RepairAll(origin.base.value, origin.repairs) == Revised(skill.value)
  }

  class SessionOrchestrator {
    const world: World
    var row: Row
    var active: Option<ActiveStep>
    var command: Option<Command>
    var skill: Option<SkillDocument>
    var ledger: set<string>
    var recorded: seq<SkillStep>
    var escalated: bool
    /** What this session wrote into the participant's table of dismissals. */
    var dismissals: seq<(string, int)>
    var tasks: seq<Task>
    var ticks: nat
    /** Every row stored so far, how often the browser verified a step, and where the skill
        comes from. */
    ghost var rows: seq<Row>
    ghost var verified: nat
    ghost var origin: Origin

    /** True at every write of the row. */
    ghost predicate Sound()
      reads this`row, this`rows, this`verified, this`skill, this`origin
    {
      && world.Valid()
      && Traced(world, skill, origin)
      && Legal(rows) && rows[0].state.CREATED? && rows[0].index == 0 && rows[|rows| - 1] == row
      && row.repairAttempts <= MAX_REPAIRS
      && row.index <= verified
    }

    /** True whenever another task can look. */
    ghost predicate Valid()
      reads this`row, this`rows, this`verified, this`active, this`skill, this`origin
    {
      && Sound()
      && !row.state.GUIDING?
      && (row.state.AWAITING_USER_ACTION? ==>
            active.Some? && active.value.command == Command(PRESENT_GUIDANCE, row.version))
      && Progress(row, skill, Lost(origin))
    }

    /** How far a replay is in its skill, and which revision of it is on record. */
    static ghost predicate Progress(row: Row, skill: Option<SkillDocument>, lost: bool) {
      if !row.mode.REPLAY? then skill.None? && !lost
      else
        && (skill.Some? ==> row.skillRevision == Some(skill.value.revision))
        && (row.state in {AWAITING_USER_ACTION, VERIFYING} ==> skill.Some? && row.index < |skill.value.steps|)
        && (row.state in {COMPLETED, PREPARED} ==>
              && skill.Some? && row.state == FinalState(skill.value.outcome)
              && row.index >= |skill.value.steps|
              && (row.index == |skill.value.steps| <==> !lost))
        && (lost ==> row.state in {COMPLETED, PREPARED})
    }

    constructor (world: World, mode: SessionMode, skillId: Option<string>)
      requires world.Valid()
      ensures Valid() && this.world == world && row.state.CREATED? && row.version == 0 && row.mode == mode
      ensures row.index == 0 && row.repairAttempts == 0 && row.skillId == skillId
      ensures rows == [row] && tasks == [] && ledger == {} && skill.None? && ticks == 0
    {
      this.world := world;
      var created := Row(mode, CREATED, 0, 0, 0, NoGuidance, NotStarted, skillId, None, None, SyncPending);
      row, active, command, skill, ledger, recorded, escalated, dismissals, tasks :=
        created, None, None, None, {}, [], false, [], [];
      ticks, rows, verified, origin := 0, [created], 0, Origin(None, [], []);
    }

    // ---------------------------------------------------------------- storing the row

    method Store(next: Row)
      requires Sound() && (Quiet(row, next) || Accepted(row, next))
      requires next.repairAttempts <= MAX_REPAIRS && next.index <= verified
      modifies this`row, this`rows
      ensures Sound() && row == next && rows == old(rows) + [next]
    {
      LegalStep(rows, next);
      row := next;
      rows := rows + [next];
    }

    /** Moves the session, or raises and stores nothing. */
    method Transition(session: Row, target: SessionState, index: nat, attempts: nat, guidance: GuidanceMode,
                      browser: BrowserStatus)
        returns (r: Outcome<Row>)
      requires Sound() && Quiet(session, row) && attempts <= MAX_REPAIRS && index <= verified
      requires Permitted(row.state, target) ==> Accepted(row, Moved(row, target, index, attempts, guidance, browser))
      modifies this`row, this`rows
      ensures Sound() && old(rows) <= rows
      ensures r == if Permitted(session.state, target) then Done(row) else Failed(Refused)
      ensures row == if Permitted(session.state, target)
        then Moved(old(row), target, index, attempts, guidance, browser) else old(row)
      ensures !Permitted(session.state, target) ==> rows == old(rows)
    {
      if !Permitted(session.state, target) { return Failed(Refused); }
      Store(Moved(row, target, index, attempts, guidance, browser));
      r := Done(row);
    }

    /** A move that neither presents nor finishes a step: it keeps all invariants. */
    method Move(session: Row, target: SessionState, attempts: nat, guidance: GuidanceMode, browser: BrowserStatus)
        returns (r: Outcome<Row>)
      requires Valid() && Quiet(session, row)
      requires target !in {GUIDING, AWAITING_USER_ACTION, COMPLETED, PREPARED}
      requires target.VERIFYING? ==> row.state.AWAITING_USER_ACTION?
      requires attempts == row.repairAttempts
        || (target.REPAIRING? && !row.state.REPAIRING? && attempts == Min(row.repairAttempts + 1, MAX_REPAIRS))
      modifies this`row, this`rows
      ensures Valid() && old(rows) <= rows
      ensures r == if Permitted(session.state, target) then Done(row) else Failed(Refused)
      ensures row == if Permitted(session.state, target)
        then Moved(old(row), target, old(row).index, attempts, guidance, browser) else old(row)
    {
      MoveKeeps(row, Moved(row, target, row.index, attempts, guidance, browser), skill, Lost(origin));
      r := Transition(session, target, row.index, attempts, guidance, browser);
    }

    static lemma MoveKeeps(from: Row, to: Row, skill: Option<SkillDocument>, lost: bool)
      requires Progress(from, skill, lost) && to.mode == from.mode && to.index == from.index
      requires to.skillRevision == from.skillRevision
      requires to.state !in {AWAITING_USER_ACTION, COMPLETED, PREPARED} &&
        (to.state.VERIFYING? ==> from.state.AWAITING_USER_ACTION?)
      ensures Permitted(from.state, to.state) ==> Progress(to, skill, lost)
    {
    }

    static function Moved(row: Row, target: SessionState, index: nat, attempts: nat, guidance: GuidanceMode,
                          browser: BrowserStatus): Row {
      row.(state := target, version := row.version + 1, index := index, repairAttempts := attempts,
           guidance := guidance, browser := browser)
    }

    /** One wait. `stop_browser` may finish meanwhile, any number of times. */
    method Await() returns (t: nat)
      requires Valid()
      modifies this`row, this`rows, this`ticks
      ensures Valid() && t == old(ticks) && ticks == t + 1 && old(rows) <= rows
      ensures row == old(row).(browser := row.browser)
    {
      t := ticks;
      ticks := ticks + 1;
      var stops := world.stops(t);
      for i := 0 to |stops|
        invariant Valid() && ticks == t + 1 && old(rows) <= rows && row == old(row).(browser := row.browser)
      {
        Store(row.(browser := if stops[i] then Stopped else TerminationFailed));
      }
    }

    /** Where nothing raises, a section is done after `n` waits. */
    static ghost predicate Smoothly(world: World, r: Outcome<bool>, waits: int, n: int) {
      world.Smooth() ==> r.Done? && waits == n
    }

    /** A wait whose answer does not matter: publishing, clearing a highlight, sleeping. */
    method Pass() returns (ok: bool)
      requires Valid()
      modifies this`row, this`rows, this`ticks
      ensures Valid() && ticks == old(ticks) + 1 && old(rows) <= rows
      ensures row == old(row).(browser := row.browser)
      ensures ok == world.quiet(old(ticks)).Replied?
    {
      var t := Await();
      ok := world.quiet(t).Replied?;
    }

    // ---------------------------------------------------------------- sections outside guidance

    /** Starts the browser of a created session. */
    method AttachBrowser() returns (r: Outcome<bool>)
      requires Valid()
      modifies this`row, this`rows, this`ticks, this`tasks
      ensures Valid() && old(rows) <= rows
      ensures !old(row).state.CREATED? ==> r == Done(false) && row == old(row) && tasks == old(tasks)
      ensures row == old(row).(state := row.state, version := row.version, browser := row.browser)
      ensures old(row).state.CREATED? ==> Smoothly(world, r, ticks - old(ticks), 2)
      ensures old(row).state.CREATED? ==> row.state == (match world.start(old(ticks))
          case Started => OBSERVING case Unreachable => PROVIDER_UNAVAILABLE case StartCancelled => CREATED)
      ensures r.Done? && old(row).state.CREATED? ==> row.state.OBSERVING?
      ensures r.Done? && old(row).state.CREATED? ==>
        tasks == old(tasks) + if row.mode.REPLAY? then [BeginGuidance] else []
      ensures r.Failed? ==> r.error.Broken? && tasks == old(tasks)
    {
      var session := row;
      if !session.state.CREATED? { return Done(false); }
      var t := Await();
      var status := world.start(t);
      if status.StartCancelled? { return Failed(Broken); }
      var target := if status.Started? then OBSERVING else PROVIDER_UNAVAILABLE;
      var updated := Move(session, target, row.repairAttempts, row.guidance,
                                if status.Started? then Connected else Unavailable);
      var ok := Pass();
      if !ok || !status.Started? { return Failed(Broken); }
      if row.mode.REPLAY? { tasks := tasks + [BeginGuidance]; }
      r := Done(true);
    }

    /** Takes no lock and writes nothing but the browser status. */
    method StopBrowserNow(reply: Reply<bool>) returns (r: Outcome<bool>)
      requires Valid()
      modifies this`row, this`rows
      ensures Valid() && old(rows) <= rows && row == old(row).(browser := row.browser)
      ensures reply.Replied? ==>
        r == Done(reply.value) && row.browser == if reply.value then Stopped else TerminationFailed
      ensures !reply.Replied? ==> r == Failed(Broken) && row == old(row)
    {
      if !reply.Replied? { return Failed(Broken); }
      Store(row.(browser := if reply.value then Stopped else TerminationFailed));
      r := Done(reply.value);
    }

    /** Ends the task, from the states the table allows it in. */
    method Abandon() returns (r: Outcome<bool>)
      requires Valid()
      modifies this`row, this`rows, this`ticks, this`tasks
      ensures Valid() && old(rows) <= rows
      ensures r == Failed(Refused) <==>
        !(old(row).state in {COMPLETED, PREPARED}) && !Permitted(old(row).state, ABANDONED)
      ensures r == Failed(Refused) || old(row).state in {COMPLETED, PREPARED} ==> row == old(row) && tasks == old(tasks)
      ensures r != Failed(Refused) && !(old(row).state in {COMPLETED, PREPARED}) ==>
        row.state.ABANDONED? && row.version == old(row).version + 1
      ensures r == Done(true) ==> tasks == old(tasks) + [StopBrowser]
    {
      var session := row;
      if session.state in {COMPLETED, PREPARED} { return Done(false); }
      var updated := Move(session, ABANDONED, row.repairAttempts, row.guidance, row.browser);
      if updated.Failed? { return Failed(Refused); }
      var summarised := Pass();
      if !summarised { return Failed(Broken); }
      var published := Pass();
      if !published { return Failed(Broken); }
      tasks := tasks + [StopBrowser];
      r := Done(true);
    }

    method OfferHelp(session: Row) returns (r: Outcome<bool>)
      requires Valid() && Quiet(session, row) && row.state.OBSERVING?
      modifies this`row, this`rows, this`ticks, this`command
      ensures Valid() && old(rows) <= rows && Breaks(r)
      ensures row == old(row).(state := HELP_OFFERED, version := old(row).version + 1, browser := row.browser)
      ensures command == Some(Command(OFFER_HELP, row.version))
    {
      var updated := Move(session, HELP_OFFERED, row.repairAttempts, row.guidance, row.browser);
      command := Some(Command(OFFER_HELP, updated.value.version));
      var ok := Pass();
      r := if ok then Done(true) else Failed(Broken);
    }

    // ---------------------------------------------------------------- endings

    /** Hands over to a caregiver, from the states the table allows it in. */
    method Escalate(session: Row) returns (r: Outcome<bool>)
      requires Valid() && Quiet(session, row)
      modifies this`row, this`rows, this`ticks, this`command, this`tasks, this`escalated
      ensures Valid() && old(rows) <= rows && escalated && r != Failed(Denied)
      ensures r == Failed(Refused) <==> !Permitted(session.state, ESCALATED)
      ensures r == Failed(Refused) ==>
        row == old(row) && command == old(command) && tasks == old(tasks) && ticks == old(ticks)
      ensures r != Failed(Refused) ==>
        row == old(row).(state := ESCALATED, version := old(row).version + 1, guidance := NoGuidance,
          browser := row.browser)
      ensures r.Done? ==>
        command == Some(Command(COMMAND_ESCALATED, row.version)) && tasks == old(tasks) + [StopBrowser]
    {
      escalated := true;
      var updated := Move(session, ESCALATED, row.repairAttempts, NoGuidance, row.browser);
      if updated.Failed? { return Failed(Refused); }
      r := Close(COMMAND_ESCALATED);
    }

    /** Ends a session that is not a replay, and keeps its route if it can. */
    method Complete(session: Row) returns (r: Outcome<bool>)
      requires Valid() && Quiet(session, row) && !row.mode.REPLAY? && row.state in {OBSERVING, VERIFYING}
      modifies this`row, this`rows, this`ticks, this`command, this`tasks
      ensures Valid() && old(rows) <= rows && Breaks(r)
      ensures row.state.COMPLETED? && row.version == old(row).version + 1 && row.index == old(row).index
      ensures row.mode == old(row).mode && row.repairAttempts == old(row).repairAttempts
      ensures r.Done? ==>
        command == Some(Command(COMMAND_COMPLETED, row.version)) && tasks == old(tasks) + [StopBrowser]
      ensures r.Done? ==>
        row.sync == if recorded == [] || world.saveRun(old(ticks)).Raised? then SyncFailed else old(row).sync
      ensures r.Done? && recorded != [] && world.saveRun(old(ticks)).Replied? ==>
        row.skillId == world.saveRun(old(ticks)).value && row.skillRevision == Some(1)
    {
      var _ := Transition(session, COMPLETED, row.index, row.repairAttempts, NoGuidance, row.browser);
      var kept := KeepRoute();
      if !kept { return Failed(Broken); }
      r := Close(COMMAND_COMPLETED);
    }

    /** Saves the recorded route; without one, or when saving fails, only the sync state says so. */
    method KeepRoute() returns (kept: bool)
      requires Valid() && !row.mode.REPLAY?
      modifies this`row, this`rows, this`ticks
      ensures Valid() && old(rows) <= rows && Quiet(old(row), row)
      ensures kept ==>
        row.sync == if recorded == [] || world.saveRun(old(ticks)).Raised? then SyncFailed else old(row).sync
      ensures kept && recorded != [] && world.saveRun(old(ticks)).Replied? ==>
        row.skillId == world.saveRun(old(ticks)).value && row.skillRevision == Some(1)
    {
      if recorded == [] {
        Store(row.(sync := SyncFailed));
        return true;
      }
      var t := Await();
      var saved := world.saveRun(t);
      if saved.Cancelled? { return false; }
      Store(if saved.Replied? then row.(skillId := saved.value, skillRevision := Some(1))
        else row.(sync := SyncFailed));
      kept := true;
    }

    /** What every ending of a task does last. */
    method Close(kind: CommandType) returns (r: Outcome<bool>)
      requires Valid()
      modifies this`row, this`rows, this`ticks, this`command, this`tasks
      ensures Valid() && old(rows) <= rows && row == old(row).(browser := row.browser) && Breaks(r)
      ensures r.Done? ==> command == Some(Command(kind, row.version)) && tasks == old(tasks) + [StopBrowser]
      ensures world.Smooth() ==> r.Done?
    {
      var summarised := Pass();
      if !summarised { return Failed(Broken); }
      command := Some(Command(kind, row.version));
      var published := Pass();
      if !published { return Failed(Broken); }
      tasks := tasks + [StopBrowser];
      r := Done(true);
    }

    /** Ends a replay whose last step was verified. Between the repair that may have
        replaced the skill and this move there is no wait. */
    method FinishReplay(session: Row, document: SkillDocument, finalIndex: nat) returns (r: Outcome<bool>)
      requires Sound() && Quiet(session, row) && row.mode.REPLAY? && row.state.VERIFYING?
      requires skill == Some(document) && row.skillRevision == Some(document.revision)
      requires finalIndex == row.index + 1 <= verified && |document.steps| <= finalIndex
      requires Lost(origin) <==> |document.steps| < finalIndex
      modifies this`row, this`rows, this`ticks, this`command, this`tasks, this`active
      ensures Valid() && old(rows) <= rows && Breaks(r)
      ensures row.state == FinalState(document.outcome) && row.index == finalIndex
      ensures row.version == old(row).version + 1
      ensures row.mode == old(row).mode && row.repairAttempts == old(row).repairAttempts
      ensures row.skillId == old(row).skillId
      ensures active.None? && (world.Smooth() ==> r.Done?)
      ensures r.Done? ==> tasks == old(tasks) + [StopBrowser]
      ensures r.Done? ==>
        command == Some(Command(Closing(document.outcome), row.version))
    {
      var target := FinalState(document.outcome);
      var _ := Transition(session, target, finalIndex, row.repairAttempts, NoGuidance, row.browser);
      active := None;
      r := Close(Closing(document.outcome));
    }

    // ---------------------------------------------------------------- the skill

    /** The skill of a replay, read once. */
    method LoadSkill() returns (reply: Reply<SkillDocument>)
      requires Valid() && row.mode.REPLAY? && !Terminal(row.state)
      modifies this`row, this`rows, this`ticks, this`skill, this`origin
      ensures Valid() && old(rows) <= rows && Quiet(old(row), row)
      ensures reply.Replied? <==> skill.Some?
      ensures reply.Replied? ==> skill == Some(reply.value)
      ensures old(skill).Some? ==>
        skill == old(skill) && row == old(row) && ticks == old(ticks) && origin == old(origin)
      ensures old(skill).None? && reply.Replied? ==>
        reply == world.getSkill(old(ticks)) && row.totalSteps == Some(|reply.value.steps|)
      ensures old(skill).None? && reply.Replied? ==> ticks == old(ticks) + 1
      ensures old(skill).None? ==> reply == if row.skillId.None? then Raised else world.getSkill(old(ticks))
      ensures row.skillId == old(row).skillId
    {
      if skill.Some? { return Replied(skill.value); }
      if row.skillId.None? { return Raised; }
      var t := Await();
      var fetched := world.getSkill(t);
      if !fetched.Replied? { return fetched; }
      LoadedIsTraced(world, t, fetched.value);
      skill := Some(fetched.value);
      origin := Origin(Some(fetched.value), [], []);
      Store(row.(skillRevision := Some(fetched.value.revision), totalSteps := Some(|fetched.value.steps|)));
      reply := fetched;
    }

    /** Replaces the repaired step and asks the provider to keep the new revision. A failed
        save keeps the repair for this session; an answered document replaces it. */
    method PersistRepair(session: Row, replacement: SkillStep, reason: string) returns (r: Outcome<bool>)
      requires Valid() && Quiet(session, row) && row.mode.REPLAY? && row.state.VERIFYING?
      modifies this`row, this`rows, this`ticks, this`skill, this`origin
      ensures Sound() && old(rows) <= rows && Quiet(old(row), row)
      ensures r.Failed? ==> r.error.Broken? && Valid() && skill == old(skill)
      ensures r.Done? ==> skill.Some? && row.skillRevision == Some(skill.value.revision)
      ensures r.Done? ==> (Lost(origin) <==> |skill.value.steps| <= row.index)
      ensures r.Done? ==>
        origin == NextOrigin(old(origin), old(skill).value, Repair(row.index, replacement, reason), old(ticks), world)
      ensures r.Done? ==>
        RepairKept(old(skill).value, row.index, replacement, reason, world.saveRevision(old(ticks)), skill.value)
      ensures r.Done? ==> row.sync == if world.saveRevision(old(ticks)).Replied? then SyncDone else SyncFailed
      ensures r.Done? ==> ticks == old(ticks) + 1
      ensures r.Done? <==> old(row).skillId.Some? && !world.saveRevision(old(ticks)).Cancelled?
      ensures r.Done? && world.saveRevision(old(ticks)).Replied? ==>
        row.skillId == world.saveRevision(old(ticks)).value.skillId
    {
      var source := LoadSkill();
      var revised := ReviseOneStep(source.value, session.index, replacement, reason);
      if row.skillId.None? { return Failed(Broken); }
      var t := Await();
      var saved := world.saveRevision(t);
      if saved.Cancelled? { return Failed(Broken); }
      var repaired := if saved.Replied? && saved.value.echo.Some? then saved.value.echo.value else revised.skill;
      ghost var repair := Repair(row.index, replacement, reason);
      NextIsTraced(world, source.value, origin, repair, t);
      origin := NextOrigin(origin, source.value, repair, t, world);
      skill := Some(repaired);
      if saved.Replied? {
        Store(row.(skillId := saved.value.skillId, skillRevision := Some(repaired.revision), sync := SyncDone));
      } else {
        Store(row.(skillRevision := Some(repaired.revision), sync := SyncFailed));
      }
      r := Done(true);
    }

    /** A repair is noted, or the document answered at time `t` is the new base. */
    static function NextOrigin(origin: Origin, source: SkillDocument, repair: Repair, t: nat, world: World): Origin {
      var saved := world.saveRevision(t);
      if saved.Replied? && saved.value.echo.Some? then
        Origin(saved.value.echo, [],
          origin.answers + [Answered(t, repair.stepIndex, |source.steps|, saved.value.echo.value)])
      else origin.(repairs := origin.repairs + [repair])
    }

    static lemma NextIsTraced(world: World, source: SkillDocument, origin: Origin, repair: Repair, t: nat)
      requires Traced(world, Some(source), origin) && repair.stepIndex < |source.steps| && !Lost(origin)
      ensures var saved := world.saveRevision(t);
        var revised := ReviseOneStep(source, repair.stepIndex, repair.replacement, repair.reason).skill;
        var repaired := if saved.Replied? && saved.value.echo.Some? then saved.value.echo.value else revised;
        var after := NextOrigin(origin, source, repair, t, world);
        Traced(world, Some(repaired), after) && (Lost(after) <==> |repaired.steps| <= repair.stepIndex)
    {
      var saved := world.saveRevision(t);
      if saved.Replied? && saved.value.echo.Some? {
        AnswerIsTraced(world, source, origin, Answered(t, repair.stepIndex, |source.steps|, saved.value.echo.value));
      } else {
        RepairIsTraced(world, source, origin, repair);
      }
    }

    /** Without an answered document the skill is exactly the revision of one step. */
    static ghost predicate RepairKept(source: SkillDocument, index: nat, replacement: SkillStep, reason: string,
                                      saved: Reply<Saved>, after: SkillDocument)
    {
      if saved.Replied? && saved.value.echo.Some? then after == saved.value.echo.value
      else Revised(after) == ReviseOneStep(source, index, replacement, reason)
    }

    // ---------------------------------------------------------------- guidance

    /** Presents an advice. A refused advice leaves the session as it was, except that it
        has already become the latest command; an accepted presentation is stored together
        with the active step that carries the version it was stored with. */
    method ApplyGuidance(session: Row, advice: Advice, version: nat) returns (r: Outcome<bool>)
      requires Valid() && Quiet(session, row) && !Terminal(row.state)
      requires advice.Present? && row.mode.REPLAY? ==> skill.Some? && row.index < |skill.value.steps|
      modifies this`row, this`rows, this`ticks, this`command, this`tasks, this`escalated, this`active
      ensures Valid() && old(rows) <= rows
      ensures r == Failed(Refused) <==> !Permitted(session.state, FirstMove(advice))
      ensures r == Failed(Refused) ==>
        Quiet(old(row), row) && row == old(row) && active == old(active) && tasks == old(tasks)
      ensures r == Failed(Refused) ==> command == Some(Command(AdviceCommand(advice), version))
      ensures r != Failed(Refused) ==> row.state == Landing(advice)
      ensures r != Failed(Refused) ==> row.version == old(row).version + (if advice.Present? then 2 else 1)
      ensures row.index == old(row).index && row.repairAttempts == old(row).repairAttempts && row.mode == old(row).mode
      ensures r != Failed(Refused) && advice.Present? ==>
        && active == Some(ActiveStep(Command(PRESENT_GUIDANCE, row.version), advice.candidate, advice.decided,
             PickMode(session, advice)))
        && command == Some(active.value.command)
      ensures !advice.Present? ==> active == old(active)
      ensures row.skillId == old(row).skillId
      ensures advice.Present? && r != Failed(Refused) ==> Smoothly(world, r, ticks - old(ticks), 1)
    {
      command := Some(Command(AdviceCommand(advice), version));
      if FirstMove(advice).ESCALATED? {
        r := Escalate(session);
        return;
      }
      if advice.Present? {
        r := PresentStep(session, advice);
      } else {
        r := StopGuiding(session, FirstMove(advice));
      }
    }

    /** Pauses, or tells that guidance is unavailable. */
    method StopGuiding(session: Row, target: SessionState) returns (r: Outcome<bool>)
      requires Valid() && Quiet(session, row) && target in {SAFETY_PAUSED, PROVIDER_UNAVAILABLE}
      modifies this`row, this`rows, this`ticks
      ensures Valid() && old(rows) <= rows
      ensures r == Failed(Refused) <==> !Permitted(session.state, target)
      ensures r == Failed(Refused) ==> row == old(row)
      ensures r != Failed(Refused) ==>
        row == old(row).(state := target, version := old(row).version + 1, guidance := NoGuidance,
          browser := row.browser)
    {
      var moved := Move(session, target, row.repairAttempts, NoGuidance, row.browser);
      if moved.Failed? { return Failed(Refused); }
      var ok := Pass();
      r := if ok then Done(true) else Failed(Broken);
    }

    /** Two moves and the active step, with no wait in between. */
    method PresentStep(session: Row, advice: Advice) returns (r: Outcome<bool>)
      requires Valid() && Quiet(session, row) && !Terminal(row.state) && advice.Present?
      requires row.mode.REPLAY? ==> skill.Some? && row.index < |skill.value.steps|
      modifies this`row, this`rows, this`ticks, this`command, this`active
      ensures Valid() && old(rows) <= rows
      ensures r == Failed(Refused) <==> !Permitted(session.state, GUIDING)
      ensures r == Failed(Refused) ==> row == old(row) && active == old(active) && command == old(command)
      ensures r != Failed(Refused) ==>
        && row == old(row).(state := AWAITING_USER_ACTION, version := old(row).version + 2,
             guidance := PickMode(session, advice),
                            browser := row.browser)
        && active == Some(ActiveStep(Command(PRESENT_GUIDANCE, row.version), advice.candidate, advice.decided,
             PickMode(session, advice)))
        && command == Some(active.value.command)
      ensures r != Failed(Refused) ==> Smoothly(world, r, ticks - old(ticks), 1)
    {
      if !Permitted(session.state, GUIDING) { return Failed(Refused); }
      MoveTwice(session, advice);
      var ok := Pass();
      r := if ok then Done(true) else Failed(Broken);
    }

    method MoveTwice(session: Row, advice: Advice)
      requires Valid() && Quiet(session, row) && !Terminal(row.state) && advice.Present?
      requires Permitted(row.state, GUIDING)
      requires row.mode.REPLAY? ==> skill.Some? && row.index < |skill.value.steps|
      modifies this`row, this`rows, this`command, this`active
      ensures Valid() && old(rows) <= rows
      ensures row
        == old(row).(state := AWAITING_USER_ACTION, version := old(row).version + 2,
          guidance := PickMode(session, advice))
      ensures active
        == Some(ActiveStep(Command(PRESENT_GUIDANCE, row.version), advice.candidate, advice.decided,
          PickMode(session, advice)))
      ensures command == Some(active.value.command)
    {
      var guiding :=
        Transition(session, GUIDING, row.index, row.repairAttempts, PickMode(session, advice), row.browser);
      var updated :=
        Transition(guiding.value, AWAITING_USER_ACTION, row.index, row.repairAttempts, row.guidance, row.browser);
      command := Some(Command(PRESENT_GUIDANCE, updated.value.version));
      active := Some(ActiveStep(command.value, advice.candidate, advice.decided, PickMode(session, advice)));
    }

    /** What a replay answers to a page: the step of the skill if exactly one control
        matches and can be highlighted, an end after two repairs, else a repair. */
    method ReplayGuidance(session: Row) returns (reply: Reply<Advice>)
      requires Valid() && Quiet(session, row) && row.mode.REPLAY? && !Terminal(row.state)
      modifies this`row, this`rows, this`ticks, this`skill, this`origin
      ensures Valid() && old(rows) <= rows && Quiet(old(row), row)
      ensures reply.Replied? ==> skill.Some? && row.index < |skill.value.steps|
      ensures reply.Replied? ==> (reply.value.TooManyRepairs? ==> row.repairAttempts == MAX_REPAIRS)
      ensures reply == ReplayAnswer(world, old(ticks), old(row), old(skill))
      ensures old(skill).Some? ==> skill == old(skill)
      ensures old(skill).None? && skill.Some? ==> Replied(skill.value) == world.getSkill(old(ticks))
      ensures row.skillId == old(row).skillId
      ensures world.Smooth() && reply.Replied? && row.repairAttempts < 2 ==>
        ticks == old(ticks) + if old(skill).Some? then 1 else 2
    {
      var loaded := LoadSkill();
      if !loaded.Replied? { return if loaded.Raised? then Raised else Cancelled; }
      if session.index >= |loaded.value.steps| { return Raised; }
      var matched := world.matched(ticks);
      if matched.Some? {
        var t := Await();
        var highlighted := world.highlight(t);
        if !highlighted.Replied? { return if highlighted.Raised? then Raised else Cancelled; }
        if highlighted.value { return Replied(Present(matched.value, false)); }
      }
      if session.repairAttempts >= 2 { return Replied(TooManyRepairs); }
      var t := Await();
      reply := world.decide(t);
    }

    /** Asks for the next step and presents it. */
    method Guide() returns (r: Outcome<bool>)
      requires Valid()
      modifies this`row, this`rows, this`ticks, this`command, this`tasks, this`escalated, this`active, this`skill,
               this`origin
      ensures Valid() && old(rows) <= rows
      ensures Terminal(old(row).state) ==>
        r == Done(false) && row == old(row) && tasks == old(tasks) && command == old(command)
      ensures row.index == old(row).index
      ensures old(row).state.AWAITING_USER_ACTION? && r.Done? ==> !row.state.AWAITING_USER_ACTION?
      ensures r.Done? && !Terminal(old(row).state) ==>
        && row.state in {AWAITING_USER_ACTION, SAFETY_PAUSED, PROVIDER_UNAVAILABLE, ESCALATED}
        && (!row.mode.REPLAY? ==>
             world.decide(old(ticks) + 2).Replied? && row.state == Landing(world.decide(old(ticks) + 2).value))
      ensures r == Failed(Refused) ==> Quiet(old(row), row) && active == old(active) && tasks == old(tasks)
      ensures row.repairAttempts != old(row).repairAttempts ==>
        row.mode.REPLAY? && row.repairAttempts == old(row).repairAttempts + 1
      ensures row.mode.REPLAY? && r.Done? && row.state.AWAITING_USER_ACTION? ==>
        Presents(active, old(row), Fallback(ReplayAnswer(world, old(ticks) + 2, old(row), old(skill))))
      ensures row.mode.REPLAY? && RepairsNow(world, old(row), old(skill), old(ticks) + 2) ==>
        && r.Done? && row.state.AWAITING_USER_ACTION? && ticks == old(ticks) + (if old(skill).Some? then 5 else 6)
        && skill == (if old(skill).Some? then old(skill) else Some(world.getSkill(old(ticks) + 2).value))
      ensures row.skillId == old(row).skillId && row.mode == old(row).mode
    {
      var session := row;
      if Terminal(session.state) { return Done(false); }
      var seen := Look();
      if !seen { return Failed(Broken); }
      if session.mode.REPLAY? {
        r := GuideReplay(session);
      } else {
        r := GuideCold(session);
      }
    }

    /** Takes a snapshot of the page. */
    method Look() returns (seen: bool)
      requires Valid()
      modifies this`row, this`rows, this`ticks
      ensures Valid() && old(rows) <= rows && row == old(row).(browser := row.browser)
      ensures seen ==> ticks == old(ticks) + 2
      ensures world.Smooth() ==> seen
    {
      var t := Await();
      if !world.snapshot(t).Replied? { return false; }
      seen := Pass();
    }

    method GuideCold(session: Row) returns (r: Outcome<bool>)
      requires Valid() && Quiet(session, row) && !row.mode.REPLAY? && !Terminal(row.state)
      modifies this`row, this`rows, this`ticks, this`command, this`tasks, this`escalated, this`active
      ensures Valid() && old(rows) <= rows
      ensures row.index == old(row).index && row.mode == old(row).mode && row.repairAttempts == old(row).repairAttempts
      ensures row.skillId == old(row).skillId
      ensures r.Done? ==> world.decide(old(ticks)).Replied? && row.state == Landing(world.decide(old(ticks)).value)
      ensures r.Done? && old(row).state.AWAITING_USER_ACTION? ==> !row.state.AWAITING_USER_ACTION?
      ensures r == Failed(Refused) ==> Quiet(old(row), row) && active == old(active) && tasks == old(tasks)
    {
      var t := Await();
      var advice := world.decide(t);
      if !advice.Replied? { return Failed(Broken); }
      r := ApplyGuidance(session, advice.value, session.version + 1);
    }

    method GuideReplay(before: Row) returns (r: Outcome<bool>)
      requires Valid() && Quiet(before, row) && row.mode.REPLAY? && !Terminal(row.state)
      modifies this`row, this`rows, this`ticks, this`command, this`tasks, this`escalated, this`active, this`skill,
               this`origin
      ensures Valid() && old(rows) <= rows
      ensures row.index == old(row).index
      ensures old(row).state.AWAITING_USER_ACTION? && r.Done? ==> !row.state.AWAITING_USER_ACTION?
      ensures r.Done? ==> row.state in {AWAITING_USER_ACTION, SAFETY_PAUSED, PROVIDER_UNAVAILABLE, ESCALATED}
      ensures r.Done? ==> row.state == Landing(Fallback(ReplayAnswer(world, old(ticks), old(row), old(skill))))
      ensures r.Done? && row.state.AWAITING_USER_ACTION? ==>
        Presents(active, old(row), Fallback(ReplayAnswer(world, old(ticks), old(row), old(skill))))
      ensures RepairsNow(world, old(row), old(skill), old(ticks)) ==>
        r.Done? && ticks == old(ticks) + if old(skill).Some? then 3 else 4
      ensures old(skill).Some? ==> skill == old(skill)
      ensures old(skill).None? && skill.Some? ==> Replied(skill.value) == world.getSkill(old(ticks))
      ensures row.skillId == old(row).skillId
      ensures r == Failed(Refused) ==> Quiet(old(row), row) && active == old(active) && tasks == old(tasks)
      ensures row.mode == old(row).mode && row.repairAttempts in {old(row).repairAttempts, old(row).repairAttempts + 1}
    {
      var session := before;
      var reply := ReplayGuidance(session);
      if reply.Cancelled? { return Failed(Broken); }
      r := PresentReplay(session, Fallback(reply));
    }

    /** Whatever raises while a replay looks for its step is an advice that helps nobody. */
    static function Fallback(reply: Reply<Advice>): Advice {
      if reply.Replied? then reply.value else NoAdvice
    }

    /** The active step is the advice; a replay's decision is a repair. */
    static predicate Presents(active: Option<ActiveStep>, before: Row, advice: Advice) {
      && advice.Present? && active.Some?
      && active.value.candidate == advice.candidate && active.value.decided == advice.decided
      && active.value.mode == if advice.decided || before.state.REPAIRING? then RepairMode else ReplayMode
    }

    /** Nothing stands in the way of a repair of the step at hand. */
    static ghost predicate RepairsNow(world: World, row: Row, skill: Option<SkillDocument>, t: nat) {
      && world.Smooth() && row.state.OBSERVING? && row.repairAttempts < 2 && row.skillId.Some?
      && row.index < |(if skill.Some? then skill else Some(world.getSkill(t).value)).value.steps|
    }

    method PresentReplay(before: Row, advice: Advice) returns (r: Outcome<bool>)
      requires Valid() && Quiet(before, row) && row.mode.REPLAY? && !Terminal(row.state)
      requires advice.Present? ==> skill.Some? && row.index < |skill.value.steps|
      modifies this`row, this`rows, this`ticks, this`command, this`tasks, this`escalated, this`active
      ensures Valid() && old(rows) <= rows && row.index == old(row).index && row.mode == old(row).mode
      ensures r.Done? ==> row.state == Landing(advice)
      ensures old(row).state.AWAITING_USER_ACTION? && r.Done? ==> !row.state.AWAITING_USER_ACTION?
      ensures r == Failed(Refused) ==> Quiet(old(row), row) && active == old(active) && tasks == old(tasks)
      ensures row.repairAttempts in {old(row).repairAttempts, old(row).repairAttempts + 1}
      ensures r.Done? && advice.Present? ==> Presents(active, old(row), advice)
      ensures old(row).state.OBSERVING? && advice.Present? && advice.decided ==>
        Smoothly(world, r, ticks - old(ticks), 2)
      ensures row.skillId == old(row).skillId
    {
      var session, version := before, before.version + 1;
      if Decided(advice) && !session.state.REPAIRING? {
        var marked := MarkRepairing(session);
        if marked.Failed? { return Failed(marked.error); }
        session := marked.value;
      }
      r := ApplyGuidance(session, advice, version);
    }

    /** A replay that needs the planner is being repaired; from most states that is allowed. */
    method MarkRepairing(session: Row) returns (r: Outcome<Row>)
      requires Valid() && Quiet(session, row) && row.mode.REPLAY? && !Terminal(row.state) && !row.state.REPAIRING?
      modifies this`row, this`rows, this`ticks
      ensures Valid() && old(rows) <= rows && r != Failed(Denied)
      ensures r == Failed(Refused) <==> !Permitted(session.state, REPAIRING)
      ensures r == Failed(Refused) ==> row == old(row)
      ensures r != Failed(Refused) ==>
        row == old(row).(state := REPAIRING, version := old(row).version + 1, guidance := RepairMode,
                         repairAttempts := Min(old(row).repairAttempts + 1, MAX_REPAIRS), browser := row.browser)
      ensures r.Done? ==> Quiet(r.value, row) && ticks == old(ticks) + 1
      ensures world.Smooth() ==> !r.Failed? || r.error.Refused?
    {
      r := Move(session, REPAIRING, Min(session.repairAttempts + 1, MAX_REPAIRS), RepairMode, row.browser);
      if r.Failed? { return; }
      var ok := Pass();
      if !ok { return Failed(Broken); }
    }

    /** A wrong click tries to resume observing, and to guide again after that; but the table
        has no such move, and a session that left the detour meanwhile is left alone. */
    method Resume() returns (r: Outcome<bool>)
      requires Valid()
      modifies this`row, this`rows, this`ticks
      ensures Valid() && old(rows) <= rows && row == old(row).(browser := row.browser)
      ensures r == if !world.quiet(old(ticks)).Replied? then Failed(Broken)
                   else if row.state.REROUTING? then Failed(Refused)
                   else Done(false)
    {
      var slept := Pass();
      if !slept { return Failed(Broken); }
      var session := row;
      if !session.state.REROUTING? { return Done(false); }
      var observing := Move(session, OBSERVING, row.repairAttempts, row.guidance, row.browser);
      r := Failed(observing.error);
    }

    // ---------------------------------------------------------------- events

    /** One event of the browser bridge. */
    method HandleEvent(event: Event, stuck: Stuck) returns (r: Outcome<bool>)
      requires Valid()
      modifies this`row, this`rows, this`ticks, this`command, this`tasks, this`active, this`skill, this`ledger,
               this`recorded, this`verified, this`origin, this`escalated, this`dismissals
      ensures Valid() && old(rows) <= rows
      ensures !event.bound ==> r == Failed(Denied)
      ensures event.bound && event.id in old(ledger) ==> r == Done(false)
      ensures !event.bound || event.id in old(ledger) ==>
        && row == old(row) && tasks == old(tasks) && command == old(command) && active == old(active)
        && ledger == old(ledger) && recorded == old(recorded) && skill == old(skill)
      ensures event.bound ==> ledger == old(ledger) + {event.id}
      ensures dismissals == old(dismissals)
        + if Fresh(event, old(ledger)) && event.kind.GuidanceDismissed? then [(event.page, event.at)] else []
      ensures Fresh(event, old(ledger)) && event.kind.GuidanceDismissed? ==>
        && (r == Failed(Refused) <==> !Permitted(old(row).state, OBSERVING))
        && (r == Failed(Refused) ==> row == old(row) && command == old(command))
        && (r != Failed(Refused) ==> row.state.OBSERVING? && row.version == old(row).version + 1 && command.None?)
      ensures Fresh(event, old(ledger)) && event.kind.OtherEvent? ==>
        && tasks == old(tasks) + (if stuck.AsksForHelp? then [BeginGuidance] else [])
        && (row.state.HELP_OFFERED? && !old(row).state.HELP_OFFERED? <==>
              old(row).state.OBSERVING? && stuck.LooksStuck? && !stuck.dismissedRecently)
      ensures Fresh(event, old(ledger)) && event.kind.UserAction? ==>
        && ActedOn(event.kind.payload, r, old(row), old(active), row)
        && CheckedRight(world, old(ticks), event.kind.payload, r, old(row), old(active), old(skill), row, skill)
        && (Checks(old(row), old(active), event.kind.payload) && r.Done? ==>
              recorded == old(recorded) + Recorded(world.verify(old(ticks) + 3) == Replied(true),
                                                   event.kind.payload.chosen, old(active).value))
        && RepairsInTime(world, old(row), old(active), event.kind.payload, r, row, ticks - old(ticks))
    {
      var session := row;
      if !event.bound { return Failed(Denied); }
      if event.id in ledger { return Done(false); }
      ledger := ledger + {event.id};
      match event.kind {
        case GuidanceDismissed =>
          dismissals := dismissals + [(event.page, event.at)];
          r := Dismiss(session);
        case UserAction(payload) =>
          r := HandleUserAction(session, payload);
        case OtherEvent =>
          r := Watch(session, stuck);
      }
    }

    static predicate Fresh(event: Event, ledger: set<string>) {
      event.bound && event.id !in ledger
    }

    /** Any other event is only looked at for signs that the participant is stuck. */
    method Watch(session: Row, stuck: Stuck) returns (r: Outcome<bool>)
      requires Valid() && Quiet(session, row)
      modifies this`row, this`rows, this`ticks, this`command, this`tasks
      ensures Valid() && old(rows) <= rows
      ensures tasks == old(tasks) + if stuck.AsksForHelp? then [BeginGuidance] else []
      ensures row.state.HELP_OFFERED? && !old(row).state.HELP_OFFERED? <==>
        old(row).state.OBSERVING? && stuck.LooksStuck? && !stuck.dismissedRecently
    {
      if stuck.AsksForHelp? {
        tasks := tasks + [BeginGuidance];
      } else if stuck.LooksStuck? && session.state.OBSERVING? && !stuck.dismissedRecently {
        r := OfferHelp(session);
        return;
      }
      r := Done(true);
    }

    method Dismiss(session: Row) returns (r: Outcome<bool>)
      requires Valid() && Quiet(session, row)
      modifies this`row, this`rows, this`ticks, this`command
      ensures Valid() && old(rows) <= rows
      ensures r == Failed(Refused) <==> !Permitted(session.state, OBSERVING)
      ensures r == Failed(Refused) ==> row == old(row) && command == old(command)
      ensures r != Failed(Refused) ==> row.state.OBSERVING? && row.version == old(row).version + 1 && command.None?
    {
      var updated := Move(session, OBSERVING, row.repairAttempts, NoGuidance, row.browser);
      if updated.Failed? { return Failed(Refused); }
      command := None;
      var ok := Pass();
      r := if ok then Done(true) else Failed(Broken);
    }

    /** The participant acted on the page. Nothing here is ever refused. */
    method HandleUserAction(session: Row, payload: Payload) returns (r: Outcome<bool>)
      requires Valid() && Quiet(session, row)
      modifies this`row, this`rows, this`ticks, this`command, this`tasks, this`active, this`skill,
               this`recorded, this`verified, this`origin, this`escalated
      ensures Valid() && old(rows) <= rows && Breaks(r)
      ensures ActedOn(payload, r, old(row), old(active), row)
      ensures CheckedRight(world, old(ticks), payload, r, old(row), old(active), old(skill), row, skill)
      ensures Checks(old(row), old(active), payload) && r.Done? ==>
        recorded == old(recorded)
          + Recorded(world.verify(old(ticks) + 3) == Replied(true), payload.chosen, old(active).value)
      ensures RepairsInTime(world, old(row), old(active), payload, r, row, ticks - old(ticks))
    {
      if payload.NoCandidate? { return Done(true); }
      if payload.BadCandidate? { return Failed(Broken); }
      if session.mode in {CAREGIVER_RECORD, OBSERVE} && session.state.OBSERVING? {
        r := RecordSilentAction(session, payload.chosen);
        return;
      }
      if active.None? || !session.state.AWAITING_USER_ACTION? { return Done(true); }
      if payload.chosen.candidate != active.value.candidate {
        r := Reroute(session);
        return;
      }
      r := CheckStep(session, payload.chosen, active.value);
    }

    /** The presented control was chosen, so the step is checked. */
    static predicate Checks(row: Row, active: Option<ActiveStep>, payload: Payload) {
      && row.state.AWAITING_USER_ACTION? && payload.Candidate? && active.Some?
      && payload.chosen.candidate == active.value.candidate
    }

    /** Never refused; another control than the presented one reroutes, and without one to
        wait for the progress is kept. */
    static predicate ActedOn(payload: Payload, r: Outcome<bool>, before: Row, active: Option<ActiveStep>, after: Row) {
      && Breaks(r)
      && (before.state.AWAITING_USER_ACTION? && payload.Candidate? && active.Some? &&
           !Checks(before, active, payload) ==>
            after.state.REROUTING? && after.index == before.index)
      && (!before.state.AWAITING_USER_ACTION? ==>
           after.index == before.index && after.repairAttempts == before.repairAttempts)
    }

    /** A checked step ends as the browser verifies it, and changes the skill as it repairs. */
    static ghost predicate CheckedRight(world: World, t: nat, payload: Payload, r: Outcome<bool>, before: Row,
                                        active: Option<ActiveStep>, source: Option<SkillDocument>, after: Row,
                                        skill: Option<SkillDocument>)
    {
      Checks(before, active, payload) && r.Done? ==>
        var passed := world.verify(t + 3) == Replied(true);
        && StepChecked(before, passed, world.completed(t + 4) == Replied(true), after, skill)
        && (before.mode.REPLAY? && passed ==>
              SkillAfter(before, active.value, payload.chosen, source, world.saveRevision(t + 4), skill))
    }

    /** Where nothing raises, the repair of a presented step is done after six waits. */
    static ghost predicate RepairsInTime(world: World, before: Row, active: Option<ActiveStep>, payload: Payload,
                                         r: Outcome<bool>, after: Row, waits: int)
    {
      Checks(before, active, payload) ==> InTime(world, before, active.value, payload.chosen, r, after, waits, 6)
    }

    /** Where nothing raises, what follows from a verified repair is done after `n` waits. */
    static ghost predicate InTime(world: World, before: Row, step: ActiveStep, chosen: Chosen, r: Outcome<bool>,
                                  after: Row,
                                  waits: int, n: int)
    {
      world.Smooth() && before.mode.REPLAY? && before.skillId.Some? && Repairing(step, chosen) ==>
        r.Done? && after.skillId.Some? && (after.state.OBSERVING? ==> waits == n)
    }

    /** The participant carries out the repair that was presented. */
    static predicate RepairsBy(row: Row, active: Option<ActiveStep>, payload: Payload) {
      row.mode.REPLAY? && row.skillId.Some? && Checks(row, active, payload) && Repairing(active.value, payload.chosen)
    }

    /** How a checked step ends: a verified one raises the index and goes on or finishes, a
        failed one is rerouted, or in a replay repaired, and after two attempts escalated. */
    static ghost predicate StepChecked(before: Row, verified: bool, completed: bool, after: Row,
                                       skill: Option<SkillDocument>) {
      after.mode == before.mode &&
      if !verified then
        && after.index == before.index
        && (if before.mode.REPLAY? then
              && after.repairAttempts == Min(before.repairAttempts + 1, MAX_REPAIRS)
              && after.state == (if before.repairAttempts == 0 then REPAIRING else ESCALATED)
            else after.state.REROUTING? && after.repairAttempts == before.repairAttempts)
      else
        && after.repairAttempts == before.repairAttempts
        && (if before.mode.REPLAY? then
              && skill.Some? && after.index == before.index + 1
              && after.state
                   == (if after.index >= |skill.value.steps| then FinalState(skill.value.outcome) else OBSERVING)
            else if completed then after.state.COMPLETED? && after.index == before.index
            else after.state.OBSERVING? && after.index == before.index + 1)
    }

    method Reroute(session: Row) returns (r: Outcome<bool>)
      requires Valid() && Quiet(session, row) && row.state in {AWAITING_USER_ACTION, VERIFYING}
      modifies this`row, this`rows, this`ticks, this`tasks
      ensures Valid() && old(rows) <= rows && Breaks(r)
      ensures row == old(row).(state := REROUTING, version := old(row).version + 1, browser := row.browser)
      ensures r.Done? ==> tasks == old(tasks) + [ResumeAfterReroute]
    {
      var _ := Move(session, REROUTING, row.repairAttempts, row.guidance, row.browser);
      var published := Pass();
      if !published { return Failed(Broken); }
      if session.state.AWAITING_USER_ACTION? {
        var cleared := Pass();
        if !cleared { return Failed(Broken); }
      }
      tasks := tasks + [ResumeAfterReroute];
      r := Done(true);
    }

    /** The chosen control is the presented one: wait a little and ask the browser. */
    method CheckStep(session: Row, chosen: Chosen, step: ActiveStep) returns (r: Outcome<bool>)
      requires Valid() && Quiet(session, row) && row.state.AWAITING_USER_ACTION?
      modifies this`row, this`rows, this`ticks, this`command, this`tasks, this`active, this`skill,
               this`recorded, this`verified, this`origin, this`escalated
      ensures Valid() && old(rows) <= rows && Breaks(r)
      ensures r.Done? ==>
        && StepChecked(old(row), world.verify(old(ticks) + 3) == Replied(true),
                       world.completed(old(ticks) + 4) == Replied(true), row, skill)
        && recorded == old(recorded) + Recorded(world.verify(old(ticks) + 3) == Replied(true), chosen, step)
      ensures r.Done? && row.mode.REPLAY? && world.verify(old(ticks) + 3) == Replied(true) ==>
        SkillAfter(old(row), step, chosen, old(skill), world.saveRevision(old(ticks) + 4), skill)
      ensures InTime(world, old(row), step, chosen, r, row, ticks - old(ticks), 6)
    {
      var verifying := Move(session, VERIFYING, row.repairAttempts, row.guidance, row.browser);
      r := Verify(verifying.value, chosen, step);
    }

    method Verify(verifying: Row, chosen: Chosen, step: ActiveStep) returns (r: Outcome<bool>)
      requires Valid() && Quiet(verifying, row) && row.state.VERIFYING?
      modifies this`row, this`rows, this`ticks, this`command, this`tasks, this`active, this`skill,
               this`recorded, this`verified, this`origin, this`escalated
      ensures Valid() && old(rows) <= rows && Breaks(r)
      ensures r.Done? ==>
        && StepChecked(old(row), world.verify(old(ticks) + 3) == Replied(true),
                       world.completed(old(ticks) + 4) == Replied(true), row, skill)
        && recorded == old(recorded) + Recorded(world.verify(old(ticks) + 3) == Replied(true), chosen, step)
      ensures r.Done? && row.mode.REPLAY? && world.verify(old(ticks) + 3) == Replied(true) ==>
        SkillAfter(old(row), step, chosen, old(skill), world.saveRevision(old(ticks) + 4), skill)
      ensures InTime(world, old(row), step, chosen, r, row, ticks - old(ticks), 6)
    {
      var answer := AskBrowser();
      if !answer.Replied? { return Failed(Broken); }
      r := Judge(verifying, answer.value, chosen, step);
    }

    method Judge(verifying: Row, passed: bool, chosen: Chosen, step: ActiveStep) returns (r: Outcome<bool>)
      requires Valid() && Quiet(verifying, row) && row.state.VERIFYING? && (passed ==> row.index < verified)
      modifies this`row, this`rows, this`ticks, this`command, this`tasks, this`active, this`skill,
               this`recorded, this`origin, this`escalated
      ensures Valid() && old(rows) <= rows && Breaks(r)
      ensures r.Done? ==>
        && StepChecked(old(row), passed, world.completed(old(ticks)) == Replied(true), row, skill)
        && recorded == old(recorded) + Recorded(passed, chosen, step)
      ensures r.Done? && row.mode.REPLAY? && passed ==>
        SkillAfter(old(row), step, chosen, old(skill), world.saveRevision(old(ticks)), skill)
      ensures passed ==> InTime(world, old(row), step, chosen, r, row, ticks - old(ticks), 2)
    {
      if passed {
        r := StepVerified(verifying, chosen, step);
      } else if verifying.mode.REPLAY? {
        r := StepFailed(verifying);
      } else {
        r := Reroute(verifying);
      }
    }

    /** Publishes, clears the highlight, waits a little and asks whether the page changed. */
    method AskBrowser() returns (answer: Reply<bool>)
      requires Valid()
      modifies this`row, this`rows, this`ticks, this`verified
      ensures Valid() && old(rows) <= rows && row == old(row).(browser := row.browser)
      ensures answer.Replied? ==> answer == world.verify(old(ticks) + 3) && ticks == old(ticks) + 4
      ensures verified == old(verified) + if answer == Replied(true) then 1 else 0
      ensures world.Smooth() ==> answer == Replied(true)
    {
      var published := Pass();
      if !published { return Raised; }
      var cleared := Pass();
      if !cleared { return Raised; }
      var slept := Pass();
      if !slept { return Raised; }
      var t := Await();
      answer := world.verify(t);
      if answer == Replied(true) { verified := verified + 1; }
    }

    method StepFailed(verifying: Row) returns (r: Outcome<bool>)
      requires Valid() && Quiet(verifying, row) && row.state.VERIFYING? && row.mode.REPLAY?
      modifies this`row, this`rows, this`ticks, this`command, this`tasks, this`escalated
      ensures Valid() && old(rows) <= rows && Breaks(r)
      ensures r.Done? ==> StepChecked(old(row), false, false, row, skill)
      ensures r.Done? && row.state.REPAIRING? ==> tasks == old(tasks) + [BeginGuidance]
    {
      var repairing := MarkRepairing(verifying);
      if repairing.Failed? { return Failed(Broken); }
      if repairing.value.repairAttempts >= 2 {
        r := Escalate(repairing.value);
        return;
      }
      tasks := tasks + [BeginGuidance];
      r := Done(true);
    }

    method StepVerified(verifying: Row, chosen: Chosen, step: ActiveStep) returns (r: Outcome<bool>)
      requires Valid() && Quiet(verifying, row) && row.state.VERIFYING? && row.index < verified
      modifies this`row, this`rows, this`ticks, this`command, this`tasks, this`active, this`skill, this`recorded,
               this`origin
      ensures Valid() && old(rows) <= rows && Breaks(r)
      ensures r.Done? ==>
        && StepChecked(old(row), true, world.completed(old(ticks)) == Replied(true), row, skill)
        && recorded == old(recorded) + Recorded(true, chosen, step)
      ensures r.Done? && row.mode.REPLAY? ==>
        SkillAfter(old(row), step, chosen, old(skill), world.saveRevision(old(ticks)), skill)
      ensures InTime(world, old(row), step, chosen, r, row, ticks - old(ticks), 2)
    {
      if row.mode.REPLAY? {
        r := ReplayStepVerified(verifying, chosen, step);
        return;
      }
      if step.mode in {ColdMode, RepairMode} && step.decided {
        if chosen.step.None? { return Failed(Broken); }
        recorded := recorded + [chosen.step.value];
      }
      var t := Await();
      var answer := world.completed(t);
      if !answer.Replied? { return Failed(Broken); }
      if answer.value {
        r := Complete(verifying);
        return;
      }
      r := NextStep(verifying);
    }

    method ReplayStepVerified(verifying: Row, chosen: Chosen, step: ActiveStep) returns (r: Outcome<bool>)
      requires Valid() && Quiet(verifying, row) && row.state.VERIFYING? && row.index < verified && row.mode.REPLAY?
      modifies this`row, this`rows, this`ticks, this`command, this`tasks, this`active, this`skill, this`recorded,
               this`origin
      ensures Valid() && old(rows) <= rows && Breaks(r)
      ensures r.Done? ==>
        && StepChecked(old(row), true, false, row, skill)
        && recorded == old(recorded) + Recorded(true, chosen, step)
        && SkillAfter(old(row), step, chosen, old(skill), world.saveRevision(old(ticks)), skill)
      ensures InTime(world, old(row), step, chosen, r, row, ticks - old(ticks), 2)
    {
      if step.mode in {ColdMode, RepairMode} && step.decided {
        if chosen.step.None? { return Failed(Broken); }
        recorded := recorded + [chosen.step.value];
        if step.mode.RepairMode? {
          var persisted := PersistRepair(verifying, chosen.step.value, REPAIR_REASON);
          if persisted.Failed? { return persisted; }
        }
      }
      r := GoOn(verifying);
    }

    /** Ends the replay after its last step, or goes on to the next one. */
    method GoOn(verifying: Row) returns (r: Outcome<bool>)
      requires Sound() && Quiet(verifying, row) && row.state.VERIFYING? && row.index < verified && row.mode.REPLAY?
      requires skill.Some? && row.skillRevision == Some(skill.value.revision)
      requires Lost(origin) <==> |skill.value.steps| <= row.index
      modifies this`row, this`rows, this`ticks, this`command, this`tasks, this`active
      ensures Valid() && old(rows) <= rows && Breaks(r) && row.skillId == old(row).skillId
      ensures StepChecked(old(row), true, false, row, skill)
      ensures world.Smooth() ==> r.Done? && (row.state.OBSERVING? ==> ticks == old(ticks) + 1)
    {
      var nextIndex := verifying.index + 1;
      if nextIndex >= |skill.value.steps| {
        r := FinishReplay(verifying, skill.value, nextIndex);
        return;
      }
      r := NextStep(verifying);
    }

    /** A decision that repairs a step, carried out on a control that can be recorded. */
    static predicate Repairing(step: ActiveStep, chosen: Chosen) {
      step.mode.RepairMode? && step.decided && chosen.step.Some?
    }

    /** A verified step changes the skill only if it was repaired. */
    static ghost predicate SkillAfter(before: Row, step: ActiveStep, chosen: Chosen, source: Option<SkillDocument>,
                                      saved: Reply<Saved>, after: Option<SkillDocument>)
    {
      if step.mode.RepairMode? && step.decided then
        && source.Some? && after.Some? && chosen.step.Some?
        && RepairKept(source.value, before.index, chosen.step.value, REPAIR_REASON, saved, after.value)
      else after == source
    }

    method NextStep(verifying: Row) returns (r: Outcome<bool>)
      requires Sound() && Quiet(verifying, row) && row.state.VERIFYING? && row.index < verified
      requires Progress(row.(state := OBSERVING, index := row.index + 1), skill, Lost(origin))
      modifies this`row, this`rows, this`ticks, this`tasks, this`active
      ensures Valid() && old(rows) <= rows && Breaks(r)
      ensures row
        == old(row).(state := OBSERVING, version := old(row).version + 1, index := old(row).index + 1,
          browser := row.browser)
      ensures active.None? && (r.Done? ==> tasks == old(tasks) + [BeginGuidance])
      ensures Smoothly(world, r, ticks - old(ticks), 1)
    {
      var observing :=
        Transition(verifying, OBSERVING, verifying.index + 1, row.repairAttempts, row.guidance, row.browser);
      active := None;
      var ok := Pass();
      if !ok { return Failed(Broken); }
      tasks := tasks + [BeginGuidance];
      r := Done(true);
    }

    /** Recording without guidance: a verified action is a step of the route. */
    method RecordSilentAction(session: Row, chosen: Chosen) returns (r: Outcome<bool>)
      requires Valid() && Quiet(session, row) && !row.mode.REPLAY? && row.state.OBSERVING?
      modifies this`row, this`rows, this`ticks, this`command, this`tasks, this`recorded, this`verified
      ensures Valid() && old(rows) <= rows && Breaks(r)
      ensures row.state in {OBSERVING, COMPLETED} && row.index == old(row).index
      ensures row.repairAttempts == old(row).repairAttempts
      ensures recorded == old(recorded)
        || (chosen.step.Some? && recorded == old(recorded) + [chosen.step.value] &&
          world.verify(old(ticks) + 1) == Replied(true))
    {
      var slept := Pass();
      if !slept { return Failed(Broken); }
      var t := Await();
      var answer := world.verify(t);
      if !answer.Replied? { return Failed(Broken); }
      if answer.value {
        verified := verified + 1;
        if chosen.step.None? { return Failed(Broken); }
        recorded := recorded + [chosen.step.value];
      }
      t := Await();
      var done := world.completed(t);
      if !done.Replied? { return Failed(Broken); }
      if !done.value { return Done(true); }
      r := Complete(session);
    }

    // ---------------------------------------------------------------- whole runs

    /** Any sequence of calls, background tasks and unlocked stops, each of which may break
        off at any wait. Whatever happened, the stored rows are a legal history: from any
        moment on a terminal state stays, progress is kept, and the version counts moves. */
    method Run(calls: seq<Call>) returns (results: seq<Outcome<bool>>)
      requires Valid()
      modifies this
      ensures Valid() && old(rows) <= rows && |results| == |calls|
      ensures Terminal(old(row).state) ==> row.state == old(row).state && row.index == old(row).index
      ensures row.version == old(row).version + Moves(rows, |old(rows)| - 1, |rows| - 1)
      ensures old(row).index <= row.index <= verified
      ensures row.index <= Entries(rows, 0, |rows| - 1, VERIFYING) <= Entries(rows, 0, |rows| - 1, AWAITING_USER_ACTION)
      ensures old(row).repairAttempts <= row.repairAttempts <= MAX_REPAIRS
      ensures Replayed(row) ==> skill.Some? && |skill.value.steps| <= row.index
      ensures Replayed(row) ==> (row.index == |skill.value.steps| <==> !Lost(origin))
      ensures (forall a :: a in origin.answers ==> AnsweredBy(world, a))
      ensures (forall a :: a in origin.answers ==> a.steps <= |a.document.steps|) ==> !Lost(origin)
      ensures world.NeverAnswers() ==> !Lost(origin) && OnlyRepaired(world, skill, origin)
    {
      results := PerformAll(calls);
      KeptSteps(world, skill, origin);
      SinceThen(rows, |old(rows)| - 1);
      assert rows[|old(rows)| - 1] == old(row);
    }

    /** A replay that ran to its end. */
    static predicate Replayed(row: Row) {
      row.mode.REPLAY? && row.state in {COMPLETED, PREPARED}
    }

    /** What a history keeps from any of its rows to the last. */
    static lemma SinceThen(rows: seq<Row>, i: nat)
      requires Legal(rows) && i < |rows| && rows[0].state.CREATED? && rows[0].index == 0
      ensures var then', now := rows[i], rows[|rows| - 1];
        && (Terminal(then'.state) ==> now.state == then'.state && now.index == then'.index)
        && now.version == then'.version + Moves(rows, i, |rows| - 1)
        && then'.index <= now.index && now.mode == then'.mode
        && (then'.repairAttempts <= MAX_REPAIRS ==> then'.repairAttempts <= now.repairAttempts <= MAX_REPAIRS)
        && now.index <= Entries(rows, 0, |rows| - 1, VERIFYING) <= Entries(rows, 0, |rows| - 1, AWAITING_USER_ACTION)
    {
      LaterRow(rows, i, |rows| - 1);
      StepsWerePresented(rows, 0, |rows| - 1);
    }

    method PerformAll(calls: seq<Call>) returns (results: seq<Outcome<bool>>)
      requires Valid()
      modifies this
      ensures Valid() && old(rows) <= rows && |results| == |calls|
    {
      results := [];
      for i := 0 to |calls|
        invariant Valid() && old(rows) <= rows && |results| == i
      {
        var r := Perform(calls[i]);
        results := results + [r];
      }
    }

    method Perform(call: Call) returns (r: Outcome<bool>)
      requires Valid()
      modifies this
      ensures Valid() && old(rows) <= rows
    {
      match call {
        case Attach => r := AttachBrowser();
        case Handle(event, stuck) => r := HandleEvent(event, stuck);
        case Begin => r := Guide();
        case ResumeRerouted => r := Resume();
        case AbandonSession => r := Abandon();
        case Stop(reply) => r := StopBrowserNow(reply);
      }
    }
  }

  const ONE_STEP: SkillDocument := SkillDocument(7, Completed, [SkillStep("first", [])])
  const TWO_STEPS: SkillDocument := ONE_STEP.(steps := ONE_STEP.steps + [SkillStep("second", [])])

  /** Repairs both steps of a skill; to the second repair the provider answers the first
      step alone. */
  function Forgetful(): World {
    World(t => [], t => Replied(true), t => Started, t => Replied(true), t => None, t => Replied(true),
          t => Replied(Present("control", true)), t => Replied(true), t => Replied(false), t => Replied(TWO_STEPS),
          t => Replied(Saved(if t < 20 then None else Some(ONE_STEP), Some("skill"))), t => Replied(None))
  }

  /** The repaired control is chosen. */
  function Chooses(id: string): Event {
    Event(id, true, "page", 0, UserAction(Candidate(Chosen("control", Some(SkillStep("repaired", []))))))
  }

  /** Begins such a replay: the repair of the first step is presented. */
  method Begins() returns (session: SessionOrchestrator)
    ensures fresh(session) && session.world == Forgetful() && session.Valid() && session.ledger == {}
    ensures SessionOrchestrator.RepairsBy(session.row, session.active, Chooses("a").kind.payload)
    ensures session.row.index == 0 && session.row.repairAttempts <= 1 && session.ticks == 8
    ensures session.skill == Some(TWO_STEPS)
  {
    session := new SessionOrchestrator(Forgetful(), REPLAY, Some("skill"));
    assert session.world.Smooth();
    var attached := session.AttachBrowser();
    assert session.row.state.OBSERVING? && session.row.mode.REPLAY?;
    var guided := session.Guide();
  }

  /** Its first step, repaired and verified. */
  method RepairsTheFirst() returns (session: SessionOrchestrator)
    ensures fresh(session) && session.world == Forgetful() && session.Valid() && "b" !in session.ledger
    ensures session.row.mode.REPLAY? && session.row.state.OBSERVING? && session.row.skillId.Some?
    ensures session.row.index == 1 && session.row.repairAttempts <= 1 && session.ticks == 14
    ensures session.skill.Some? && |session.skill.value.steps| == 2
  {
    session := Begins();
    assert session.world.Smooth();
    var repaired := session.HandleEvent(Chooses("a"), NotStuck);
  }

  /** A replay that completes past the end of its skill: both steps are repaired and
      verified, and the document answered to the second repair has one step only. */
  method CompletesPastTheEnd() returns (session: SessionOrchestrator)
    ensures session.world == Forgetful() && session.Valid() && SessionOrchestrator.Replayed(session.row)
    ensures session.skill == Some(ONE_STEP) && session.row.index == 2 && Lost(session.origin)
  {
    session := RepairsTheFirst();
    assert session.world.Smooth();
    var guided := session.Guide();
    assert session.row.state.AWAITING_USER_ACTION? && session.ticks == 19;
    var repaired := session.HandleEvent(Chooses("b"), NotStuck);
  }

  datatype Call =
    | Attach | Handle(event: Event, stuck: Stuck) | Begin | ResumeRerouted | AbandonSession | Stop(reply: Reply<bool>)
}
