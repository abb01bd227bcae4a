/** The states of a session, its stored row, and what every legal history of rows keeps. */
module Sessions {

  datatype Option<+T> = None | Some(value: T)

  datatype SessionState =
    | CREATED | OBSERVING | HELP_OFFERED | GUIDING | AWAITING_USER_ACTION | VERIFYING | REROUTING | REPAIRING
    | SAFETY_PAUSED | PROVIDER_UNAVAILABLE | COMPLETED | PREPARED | ESCALATED | ABANDONED | FAILED

  function AllowedTransitions(state: SessionState): set<SessionState> {
    match state
    case CREATED => {OBSERVING, PROVIDER_UNAVAILABLE, FAILED}
    case OBSERVING =>
      {HELP_OFFERED, GUIDING, REPAIRING, SAFETY_PAUSED, COMPLETED, PREPARED, ESCALATED, ABANDONED, FAILED,
        PROVIDER_UNAVAILABLE}
    case HELP_OFFERED => {OBSERVING, GUIDING, SAFETY_PAUSED, ABANDONED, FAILED, PROVIDER_UNAVAILABLE}
    case GUIDING => {AWAITING_USER_ACTION, SAFETY_PAUSED, ESCALATED, FAILED, PROVIDER_UNAVAILABLE}
    case AWAITING_USER_ACTION =>
      {VERIFYING, REROUTING, SAFETY_PAUSED, ABANDONED, ESCALATED, FAILED, PROVIDER_UNAVAILABLE}
    case VERIFYING => {GUIDING, OBSERVING, REROUTING, REPAIRING, SAFETY_PAUSED, COMPLETED, PREPARED, ESCALATED, FAILED}
    case REROUTING => {GUIDING, REPAIRING, SAFETY_PAUSED, ESCALATED, FAILED, PROVIDER_UNAVAILABLE}
    case REPAIRING => {GUIDING, SAFETY_PAUSED, ESCALATED, FAILED, PROVIDER_UNAVAILABLE}
    case SAFETY_PAUSED => {OBSERVING, VERIFYING, ESCALATED, PREPARED, ABANDONED, FAILED}
    case PROVIDER_UNAVAILABLE => {OBSERVING, ABANDONED, FAILED}
    case _ => {}
  }

  /** The check in front of every move: staying is always allowed. */
  predicate Permitted(current: SessionState, target: SessionState) {
    target == current || target in AllowedTransitions(current)
  }

  predicate Terminal(state: SessionState) {
    state in {COMPLETED, PREPARED, ESCALATED, ABANDONED, FAILED}
  }

  /** The states from which the moves that the orchestrator attempts anywhere are refused:
      observing again after a wrong click or a dismissal, abandoning, escalating, guiding. */
  lemma RefusedMoves(state: SessionState)
    ensures !Permitted(state, OBSERVING) <==>
      state in {GUIDING, AWAITING_USER_ACTION, REROUTING, REPAIRING} || Terminal(state)
    ensures !Permitted(state, ABANDONED) <==>
      state in {CREATED, GUIDING, VERIFYING, REROUTING, REPAIRING, COMPLETED, PREPARED, ESCALATED, FAILED}
    ensures !Permitted(state, ESCALATED) <==>
      state in {CREATED, HELP_OFFERED, PROVIDER_UNAVAILABLE, COMPLETED, PREPARED, ABANDONED, FAILED}
    ensures !Permitted(state, GUIDING) <==>
      state in {CREATED, AWAITING_USER_ACTION, SAFETY_PAUSED, PROVIDER_UNAVAILABLE} || Terminal(state)
    ensures Terminal(state) <==> AllowedTransitions(state) == {}
  {
  }

  datatype SessionMode = OBSERVE | CAREGIVER_RECORD | COLD_TEACH | REPLAY
  datatype GuidanceMode = NoGuidance | ColdMode | ReplayMode | RepairMode
  datatype BrowserStatus = NotStarted | Connected | Unavailable | Stopped | TerminationFailed
  datatype SyncState = SyncPending | SyncDone | SyncFailed

  const MAX_REPAIRS: nat := 2

  /** The stored row of a session, without its texts. */
  datatype Row = Row(mode: SessionMode, state: SessionState, version: nat, index: nat, repairAttempts: nat,
                     guidance: GuidanceMode, browser: BrowserStatus, skillId: Option<string>,
                     skillRevision: Option<nat>, totalSteps: Option<nat>, sync: SyncState)

  function Min(a: nat, b: nat): nat { if a < b then a else b }

  /** A write that leaves the progress of the session alone. */
  predicate Quiet(a: Row, b: Row) {
    b.mode == a.mode && b.state == a.state && b.version == a.version && b.index == a.index
    && b.repairAttempts == a.repairAttempts
  }

  /** An accepted move. */
  predicate Accepted(a: Row, b: Row) {
    && b.mode == a.mode && Permitted(a.state, b.state) && b.version == a.version + 1
    && (b.index == a.index ||
         (a.state.VERIFYING? && b.state in {OBSERVING, COMPLETED, PREPARED} && b.index == a.index + 1))
    && (b.repairAttempts == a.repairAttempts
        || (b.state.REPAIRING? && !a.state.REPAIRING? && b.repairAttempts == Min(a.repairAttempts + 1, MAX_REPAIRS)))
    && (b.state.AWAITING_USER_ACTION? ==> a.state.GUIDING?)
    && (b.state.VERIFYING? ==> a.state.AWAITING_USER_ACTION?)
  }

  /** Every row ever stored for a session, in order. */
  ghost predicate Legal(rows: seq<Row>) {
    rows != [] && forall i :: 0 < i < |rows| ==> Quiet(rows[i - 1], rows[i]) || Accepted(rows[i - 1], rows[i])
  }

  lemma LegalStep(rows: seq<Row>, next: Row)
    requires Legal(rows)
    requires Quiet(rows[|rows| - 1], next) || Accepted(rows[|rows| - 1], next)
    ensures Legal(rows + [next]) && rows <= rows + [next]
  {
  }

  /** How many moves of a kind happened among the rows i..j. */
  ghost function Entries(rows: seq<Row>, i: nat, j: nat, state: SessionState): nat
    requires i <= j < |rows|
    decreases j
  {
    if i == j then 0
    else Entries(rows, i, j - 1, state) + if Accepted(rows[j - 1], rows[j]) && rows[j].state == state then 1 else 0
  }

  ghost function Moves(rows: seq<Row>, i: nat, j: nat): nat
    requires i <= j < |rows|
    decreases j
  {
    if i == j then 0 else Moves(rows, i, j - 1) + if Accepted(rows[j - 1], rows[j]) then 1 else 0
  }

  /** From any stored row to any later one: the version counts the accepted moves, a
      terminal state is still the same, and progress never falls back. */
  lemma {:induction false} LaterRow(rows: seq<Row>, i: nat, j: nat)
    requires Legal(rows) && i <= j < |rows|
    ensures rows[j].version == rows[i].version + Moves(rows, i, j)
    ensures Terminal(rows[i].state) ==> rows[j].state == rows[i].state && rows[j].index == rows[i].index
    ensures rows[i].mode == rows[j].mode && rows[i].index <= rows[j].index
    ensures rows[i].repairAttempts <= MAX_REPAIRS ==> rows[i].repairAttempts <= rows[j].repairAttempts <= MAX_REPAIRS
    decreases j
  {
    if i < j { LaterRow(rows, i, j - 1); }
  }

  /** A step counts only when it was verified, and it was verified only after it had been
      guided and waited for: the index never runs ahead of any of them, whatever skips. */
  lemma {:induction false} StepsWerePresented(rows: seq<Row>, i: nat, j: nat)
    requires Legal(rows) && i <= j < |rows| && rows[i].state.CREATED?
    ensures rows[j].index + (if rows[j].state.VERIFYING? then 1 else 0)
      <= rows[i].index + Entries(rows, i, j, VERIFYING)
    ensures Entries(rows, i, j, VERIFYING) + (if rows[j].state.AWAITING_USER_ACTION? then 1 else 0)
      <= Entries(rows, i, j, AWAITING_USER_ACTION)
    ensures Entries(rows, i, j, AWAITING_USER_ACTION) + (if rows[j].state.GUIDING? then 1 else 0)
      <= Entries(rows, i, j, GUIDING)
    decreases j
  {
    if i < j { StepsWerePresented(rows, i, j - 1); }
  }

  /** The attempts only rise by entering a repair, and no more than twice. */
  lemma {:induction false} RepairsAreCounted(rows: seq<Row>, i: nat, j: nat)
    requires Legal(rows) && i <= j < |rows|
    ensures rows[j].repairAttempts <= rows[i].repairAttempts + Entries(rows, i, j, REPAIRING)
    decreases j
  {
    if i < j { RepairsAreCounted(rows, i, j - 1); }
  }
}
