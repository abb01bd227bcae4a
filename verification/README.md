# Verified model of the web assistant's stateful core

A Dafny model of the parts of the repository that keep state over time, each proved against
a specification that does not look like its code. One module per component:

- **Reconciliation**, **ReleaseRace**, **Backlog**, **Worker**: a pass that lists the
  provider's live browser sessions, judges them against the operational rows, judges the
  orphans again against a second snapshot and terminates within a budget; the same pass
  racing with the backend; how repeated passes clear a backlog; the bounded loop around it.
- **Sessions**, **Orchestrator**, **SkillRepair**: the fifteen-state session machine, the
  critical sections that move it, and the repair of single steps of a saved skill.
- **GoalMatch**, **LocalActions**, **Autopilot**: an autonomous run that plans, checks and
  performs one action at a time, the planner that needs no model, and the comparison of the
  task's words with the words on the page.
- **StuckDetector**: trimmed queues that decide as the whole history would.
- **TelemetryOutbox**: a durable queue with first-write-wins keys, retries and backoff.
- **EventStream**, **StreamCuts**: the web client's incremental reader of server-sent events,
  and for which texts the cuts of the network do not matter to it.
- **Decimal38**, **Cost**: the cost of a model call in 38-digit decimal arithmetic.
- **CalendarDates**, **Routines**: recurrence, due dates and confidence of a routine.

Everything outside, the provider, the planner, the browser, the clock and the network, is an
arbitrary function (`World`) of the time at which an await ends, and it may answer, raise or
be cancelled. What a method promises therefore holds for every behaviour of the outside.

How the parts are modelled:

- Objects whose methods update them are classes with those fields; each such method is
  specified by a function of the old state or by what its invariants keep. Ghost fields hold
  what happened: every row ever stored, every action handed to the browser, every item ever
  requested.
- `SessionOrchestrator` holds the row and the dictionary entries of one session. They are
  all keyed by the session id and its sections run under that id's lock, so sections of
  other sessions touch other objects, and while a section waits only `stop_browser`, which
  takes no lock, can write the row. `Run` performs calls and background tasks in any order.
  The guidance service can only answer what its constructors build (`backend/app/services/guidance.py:106-188`).
- A refused transition is an error that leaves the row alone. The table refuses some moves
  the code attempts: resuming after a wrong click, dismissing while the participant is
  awaited, and abandoning from several states. Only safety is claimed there.
- An autopilot run is one object too. `confirm` acts only on a paused run and the old drive
  does nothing after a pause, so two drives never overlap in effect.
- `ReleaseRace` takes every clock as one clock that never runs backwards, and every step of
  the backend and of the pass as atomic.

Where the code differs from what one might expect:

- The event reader removes every CRLF in each piece as it arrives, so a CR directly before a
  CRLF reads differently depending on the cut, and it never treats a lone CR as a line end
  as section 9.2.6 of the WHATWG HTML Living Standard does; all white space after `data:` is
  stripped, not one space. `StreamCuts.CutsDoNotMatterExactly` says for which
  texts the cuts do not matter, and `EventStream.ChunkIndependenceIsExact` that for a text
  that ends in a blank line these are the texts without a CR before a CRLF. An empty piece is
  what a streaming decoder yields for the first bytes of a longer character.
- The startup grace protects a row only if it is in place strictly before the grace ends
  (`ReleaseRace.RowAtTheLastInstantIsTooLate`).
- A flush scans a fixed number of the oldest rows, so rows behind that many failing ones are
  never attempted (`TelemetryOutbox.AttemptedExactly`, `ScanLimitStarves`).
- A replay ends at an index equal to the number of steps exactly unless the provider answered
  a repair with a document that has lost the repaired step
  (`Orchestrator.CompletesPastTheEnd`). The orchestrator takes over whatever document is
  answered; the client in `backend/app/integrations/everos/client.py:448-469` never answers
  one, and for such clients the index is always right and the skill is the loaded document
  with all repairs.
- The due date of a routine is strictly after the last *counted* start. A start on a local
  day that counted already is dropped, so after travelling west the last start can be on a
  later day than the last counted one (`Routines.TravellerIsDueToday`).
- A planner that names a control it was not offered is not rejected and its click is not
  recorded. The claims that nothing is repeated on a page hold for a participant's run as
  long as every click and fill named an offered control; the ghost field `obedient` records
  that, and the bounds on steps, passes, planner calls and scrolls do not need it.

## Model

| member | source | states |
|---|---|---|
| Reconciliation.OrphanIsStable | backend/app/services/browser_reconciliation.py:544-624 | with the owner's row unchanged, a session judged orphaned is judged orphaned at every later clock reading |
| Reconciliation.ReclaimedMeansRowChanged | backend/app/services/browser_reconciliation.py:486-506 | an orphan that the second look spares is ACTIVE, never SKIPPED, and its owner's row has changed and names it |
| Reconciliation.MarkReleased | backend/app/services/browser_reconciliation.py:251-268 | the release update touches exactly the rows that hold that provider session and are not stopped yet |
| Reconciliation.LocalStore.RecordRelease | backend/app/services/browser_reconciliation.py:251-268 | a read-only store changes nothing; otherwise the rows become those of the release update, and the answer tells whether one changed |
| Reconciliation.CountsBalance | backend/app/services/browser_reconciliation.py:349-366 | inspected = active + orphaned + skipped always, and orphaned = terminated + failed + deferred once every entry is accounted for |
| Reconciliation.ReleaseCalls | backend/app/services/browser_reconciliation.py:486-506 | the ids handed to the provider are the first still-orphaned ones, exactly min(budget, how many are left) |
| Reconciliation.ReleaseEntries | backend/app/services/browser_reconciliation.py:486-542 | every record released in a pass ends accounted for, and is deferred only when the budget is used up |
| Reconciliation.ReleaseRows | backend/app/services/browser_reconciliation.py:508-542 | when the backend writes nothing meanwhile, the rows after a release are exactly those justified by the calls made |
| Reconciliation.ReleaseTable | backend/app/services/browser_reconciliation.py:486-542 | the rows after a release of orphans, which all have owners, are exactly what the backend and the pass make of them call by call |
| Reconciliation.StopsAreExplained | backend/app/services/browser_reconciliation.py:508-542 | in the table before any call, whatever provider and backend do, every newly stopped row holds a session that was called, confirmed over and written, unless the backend stopped it during one of the calls before, over the table of that moment |
| Reconciliation.ReleaseStops | backend/app/services/browser_reconciliation.py:486-542 | so for a whole release of orphans, which all have owners: the pass never stops the row of a successor |
| Reconciliation.ConfirmedStops | backend/app/services/browser_reconciliation.py:508-542 | if the backend stops no row during the calls, only confirmed ends of called sessions stop rows |
| Reconciliation.OnlyConfirmedRowsStop | backend/app/services/browser_reconciliation.py:508-542 | a row becomes stopped only when the provider confirmed the end of the very session it holds; a session that superseded it keeps its row |
| Reconciliation.TwiceOrphanedIsDistinct | backend/app/services/browser_reconciliation.py:453-506 | the ids that both looks condemn are distinct |
| Reconciliation.ReleaseOfJudged | backend/app/services/browser_reconciliation.py:453-506 | in an executed pass the calls are the first of the twice-orphaned sessions, as many as the budget allows, every released entry is accounted for, and one is deferred only when the whole budget was used |
| Reconciliation.BrowserReconciliationService.ListLiveSessions | backend/app/services/browser_reconciliation.py:465-474 | the live sessions are those of both listings, the first record of each id, in order; an error of either listing is an error |
| Reconciliation.BrowserReconciliationService.Reconcile | backend/app/services/browser_reconciliation.py:413-463 | a dry run calls nothing and writes nothing; an executed pass terminates exactly the first still-orphaned ids of both looks within the budget; its rows are exactly those that its calls and the backend make, and whatever the backend does, every newly stopped row is explained by a confirmed call or by a stop the backend wrote over the table of that moment; a provider error leaves everything alone |
| Reconciliation.BrowserReconciliationService.ReleaseEach | backend/app/services/browser_reconciliation.py:486-506 | the loop over the orphans does what the value specification of a release does, record by record |
| Reconciliation.BrowserReconciliationService.Terminate | backend/app/services/browser_reconciliation.py:508-542 | one termination: what its record says, what is written and whether the call counts as confirmed |
| ReleaseRace.TwoSnapshotsProtect | backend/app/services/browser_reconciliation.py:436-460 | under every interleaving with backend steps, a session whose row reaches its connected form before the grace ends, keeps it to the second snapshot and is then inside its lease and deadline is never terminated |
| ReleaseRace.OneSnapshotCondemns | backend/app/services/browser_reconciliation.py:436-439 | under every policy with a startup grace and a budget one look judges such a session orphaned, because its clock is read after its snapshot; the second look spares it exactly if the grace is no longer than lease and lease grace together |
| ReleaseRace.RowAtTheLastInstantIsTooLate | backend/app/services/browser_reconciliation.py:591-592 | a row written in the very instant the grace runs out can miss both snapshots and its session is terminated: the grace has to be met strictly |
| ReleaseRace.TwoLooksAreTwice | backend/app/services/browser_reconciliation.py:453-506 | what the two looks of this state machine condemn is what the pass of the service condemns |
| ReleaseRace.ReleasesRefine | backend/app/services/browser_reconciliation.py:486-542 | its release steps, when nothing interferes, leave the rows and terminate the sessions of the service's release |
| Backlog.OthersJudgedAlike | backend/app/services/browser_reconciliation.py:508-624 | stopping the rows of ended sessions never changes the judgement of any other session |
| Backlog.SecondLookAgrees | backend/app/services/browser_reconciliation.py:486-506 | with the rows unchanged the second look condemns exactly the orphans of the first |
| Backlog.PassShrinks | backend/app/services/browser_reconciliation.py:486-506 | if no new orphan appears a pass leaves at most what its budget could not reach, whatever other sessions and rows do |
| Backlog.BacklogClears | backend/app/services/browser_reconciliation.py:453-506 | however the listing and the rows move, if no new orphan appears and terminations work, at most n - k * max_terminations of n orphans are left after k passes, and none once k reaches the ceiling of n / max_terminations |
| Backlog.BacklogClearsExactly | backend/app/services/browser_reconciliation.py:453-506 | if no orphan vanishes by itself either, exactly that many are left, and none exactly when k reaches that ceiling |
| Backlog.QuietPassIsSteady | backend/app/services/browser_reconciliation.py:453-506 | a pass during which the backend writes no row, called sessions end, no orphan ends by itself, newcomers are no orphans and nobody grows into one, makes no new orphan and lets none vanish |
| Backlog.SparedOrphanReturns | backend/app/services/browser_reconciliation.py:486-506 | being orphaned at the first look only is not enough: a session whose row appears only for the second look and then fails to be stopped is an orphan of two passes in a row without being called, more than the bound allows |
| Worker.WaitNeedsAnInterval | backend/app/workers/browser_reconciliation_worker.py:149-165 | another cycle starts exactly when strictly more than one interval remains and no stop was requested |
| Worker.RuntimeBoundsCycles | backend/app/workers/browser_reconciliation_worker.py:112-165 | a loop bounded by a runtime runs at most the ceiling of runtime / interval cycles |
| Worker.FailuresEndTheLoop | backend/app/workers/browser_reconciliation_worker.py:124-140 | `max_consecutive_failures` failed cycles in a row are never followed by another cycle |
| Worker.StreakIsBounded | backend/app/workers/browser_reconciliation_worker.py:124-140 | no streak of failures is longer than the bound |
| Worker.BrowserReconciliationWorker.Run | backend/app/workers/browser_reconciliation_worker.py:112-147 | the reports of exactly the cycles that ran; it stopped because the next cycle may not start, a stop was requested, or a cycle raised; all three bounds hold |
| Sessions.LaterRow | backend/app/services/orchestrator.py:1272-1286 | between any two rows ever stored the version counts the accepted moves, a terminal state and its step index stay, and step index and repair attempts never fall, attempts never above two |
| Sessions.StepsWerePresented | backend/app/services/orchestrator.py:685-786 | the step index never exceeds the number of verifications entered, these never the number of waits, these never the number of guidings |
| Sessions.RepairsAreCounted | backend/app/services/orchestrator.py:720-740 | repair attempts only rise by entering a repair |
| Sessions.RefusedMoves | backend/app/domain/sessions.py:5-102 | from exactly which states observing, abandoning, escalating and guiding are refused, and that the terminal states are those without any move |
| Orchestrator.SessionOrchestrator.Transition | backend/app/services/orchestrator.py:1272-1286 | a permitted move is stored with the version one higher; a refused one raises and stores nothing |
| Orchestrator.SessionOrchestrator.Await | backend/app/services/orchestrator.py:260-267 | while a section waits only the browser status of its row can change, and all invariants hold at every such moment |
| Orchestrator.SessionOrchestrator.StopBrowserNow | backend/app/services/orchestrator.py:260-267 | stopping without the lock changes the browser status and nothing else of the row |
| Orchestrator.SessionOrchestrator.AttachBrowser | backend/app/services/orchestrator.py:196-258 | only a created session starts a browser; it ends observing, unavailable, or untouched after a cancellation |
| Orchestrator.SessionOrchestrator.Abandon | backend/app/services/orchestrator.py:668-683 | exactly which states refuse to be abandoned, leaving the row as it was; otherwise the session is abandoned once, even when a later wait breaks off |
| Orchestrator.SessionOrchestrator.ApplyGuidance | backend/app/services/orchestrator.py:898-951 | refused exactly when the table has no first move for the advice, and then row, active step and tasks are as before though the command was already replaced; an accepted presentation is stored with an active step that carries the stored version |
| Orchestrator.SessionOrchestrator.ReplayGuidance | backend/app/services/orchestrator.py:808-896 | an answer means the skill is loaded and the index inside it; with the skill at hand, exactly the matched step, an end after two repairs, or a repair |
| Orchestrator.SessionOrchestrator.Guide | backend/app/services/orchestrator.py:403-468 | a terminal session is left alone; while the participant is awaited no new presentation is accepted; a completed call ends waiting, paused, unavailable or escalated as its advice says; a refusal keeps the progress |
| Orchestrator.SessionOrchestrator.GuideReplay | backend/app/services/orchestrator.py:417-446 | a replay presents exactly what its skill, loaded if need be, answers at that moment, or is unavailable; it counts one repair attempt when it has to ask the planner, and a decision presented is a repair |
| Orchestrator.SessionOrchestrator.HandleEvent | backend/app/services/orchestrator.py:310-354 | an unbound or repeated event changes nothing; a dismissal is remembered for its page even when it is refused, and succeeds exactly where observing is permitted; a user action reroutes or is checked as its verification says; help is offered exactly to a stuck, observing, not recently dismissed session |
| Orchestrator.SessionOrchestrator.HandleUserAction | backend/app/services/orchestrator.py:685-786 | never refused; a wrong control reroutes; the presented one is checked and ends as its verification says |
| Orchestrator.SessionOrchestrator.CheckStep | backend/app/services/orchestrator.py:712-786 | a verified step raises the index by one and goes on, finishes or completes; a failed one reroutes, or in a replay repairs the first time and escalates the second; the route records it exactly when a decision guided it |
| Orchestrator.SessionOrchestrator.ReplayStepVerified | backend/app/services/orchestrator.py:749-786 | a repaired step replaces the skill by the revision of that step, or by the provider's own document, before the index moves |
| Orchestrator.SessionOrchestrator.RecordSilentAction | backend/app/services/orchestrator.py:788-806 | recording without guidance adds a step exactly after a verified action and never moves the index |
| Orchestrator.SessionOrchestrator.Complete | backend/app/services/orchestrator.py:968-1048 | the session is completed before its memory is saved; what the provider answers only decides skill id, revision and sync state |
| Orchestrator.SessionOrchestrator.FinishReplay | backend/app/services/orchestrator.py:1050-1087 | completed or prepared as the skill says, at the final index, with no active step left |
| Orchestrator.SessionOrchestrator.Escalate | backend/app/services/orchestrator.py:1089-1127 | refused exactly where the table has no escalation, leaving row and command alone |
| Orchestrator.SessionOrchestrator.PersistRepair | backend/app/services/orchestrator.py:1155-1230 | it fails exactly without a skill id or on a cancellation; a failed save keeps the repair for this session, an answered document replaces it; the row's revision is that of the skill at hand; the repaired step is lost exactly when the answered document does not reach it |
| Orchestrator.SessionOrchestrator.Resume | backend/app/services/orchestrator.py:1232-1240 | a rerouted session never resumes observing: the move is refused and the row unchanged; any other session is left alone |
| Orchestrator.SessionOrchestrator.Run | backend/app/services/orchestrator.py:91-1286 | any sequence of calls, tasks and unlocked stops, each of which may break off at any wait, keeps every invariant: a waiting session has an active step with the stored version and terminal states stay; a finished replay is at its number of steps exactly unless a document answered to a repair lacked the repaired step, so always if answers are as long as what was repaired, or if no save answers a document: then the skill is the loaded document with all repairs |
| Orchestrator.KeptSteps | backend/app/services/orchestrator.py:1155-1230 | answers no shorter than the repaired skill never lose a step; without answered documents the skill is that of one load with all repairs since |
| Orchestrator.CompletesPastTheEnd | backend/app/services/orchestrator.py:749-786 | a run that completes at index two of a one-step skill, after the second of two repairs was answered with a document of one step |
| SkillRepair.Lineage | backend/app/services/repair.py:9-28 | k repairs raise the revision by k, keep outcome and number of steps, and leave on each step the body of its last repair and exactly one record per repair; they fail exactly when an index is past the skill |
| SkillRepair.RepairOneMore | backend/app/services/repair.py:9-28 | one repair after others is all of them together, which carries the lineage through a session |
| SkillRepair.RepairsKeepDates | backend/app/services/repair.py:9-28 | any repairs keep each history strictly increasing in source revisions below the current one |
| SkillRepair.UntouchedSteps | backend/app/services/repair.py:9-28 | a step that no repair names is unchanged |
| Autopilot.AgentRun.Drive | backend/app/services/autopilot.py:311-392 | every drive that is not cancelled ends outside RUNNING, whatever planner, browser and publishing do |
| Autopilot.AgentRun.Live | backend/app/services/autopilot.py:271-392 | over a whole life of approvals, refusals and stops: never more than max_steps steps, numbered from one, at most max_steps + 7 passes, at most two planner calls per pass, nothing harmful handed to the browser, no more than four scrolls per visit, no repetition on a visit |
| Autopilot.AgentRun.Pass | backend/app/services/autopilot.py:317-375 | a pass that goes on adds one step or one of six free question skips, and asks the planner at most twice |
| Autopilot.AgentRun.Decide | backend/app/services/autopilot.py:333-374 | a finished plan completes, a question pauses a participant's run and never a demo's |
| Autopilot.AgentRun.AnswerForDemo | backend/app/services/autopilot.py:344-366 | a demo's question counts as answered and is either replaced by a local action or skipped, at most six times |
| Autopilot.AgentRun.Guard | backend/app/services/autopilot.py:372-376 | an action that must stop is never handed to the browser but pauses the run |
| Autopilot.AgentRun.MakePlan | backend/app/services/autopilot.py:394-546 | a demo's own details come before any planner; otherwise the plan is one of at most two planner answers or a local choice, rewritten without lowering its safety; a counted click is for a control that was offered, nothing on this page is repeated, and a third scroll in a row needs a second asking |
| Autopilot.AgentRun.LastWord | backend/app/services/autopilot.py:463-481 | a scroll that is off the table becomes exactly the deterministic planner's choice, or, if it has none, no plan once the page's scrolls are spent; any other answer is recorded as it is |
| Autopilot.AgentRun.RecordClick | backend/app/services/autopilot.py:482-516 | a click goes to the row the task names unless that was clicked before; its label was not withheld and now is; a non-safe classification is kept; an id that was not offered is passed on unrecorded |
| Autopilot.AgentRun.RecordFill | backend/app/services/autopilot.py:517-539 | a text goes into a field once; the second time it becomes one Enter press and the field is withheld |
| Autopilot.AgentRun.PersonaFill | backend/app/services/autopilot.py:548-583 | only a demo, the first fillable field not filled before, never one flagged password, payment or bank |
| Autopilot.AgentRun.RefreshPage | backend/app/services/autopilot.py:652-667 | a failed read changes nothing; a new page key, and only that, makes everything on the page available again |
| Autopilot.AgentRun.Perform | backend/app/services/autopilot.py:624-650 | one step is recorded before the browser is asked and settled after it answers; a broken off one stays recorded |
| Autopilot.AgentRun.Pause | backend/app/services/autopilot.py:669-682 | a pause is a step of its own and waits for a confirmation |
| Autopilot.AgentRun.Confirm | backend/app/services/autopilot.py:289-309 | only a paused run can be approved, which resumes it, or refused, which ends it |
| Autopilot.OnceMore | backend/app/services/autopilot.py:406-414 | adding an action whose label or text was not withheld keeps a visit free of repetitions |
| Autopilot.Withhold | backend/app/services/autopilot.py:482-539 | a key that is not withheld yet is new on this visit, and withholding it keeps the visit free of repetitions |
| Autopilot.Offered | backend/app/services/autopilot.py:406-414 | exactly the controls not tried on this page and never a sign-in or a membership |
| LocalActions.PlanLocally | backend/app/services/autopilot.py:725-799 | done on a finished page, else the first field whose value the task states, else the first of the highest-scoring clickable controls if it scores at least two, else nothing |
| LocalActions.BestClick | backend/app/services/autopilot.py:765-791 | the control of greatest score, the earliest of equals |
| GoalMatch.NamedWords | backend/app/services/autopilot.py:827-849 | with its early break, exactly the length of the longest contiguous run of the label's words that the task says contiguously |
| GoalMatch.ShorterOccurs | backend/app/services/autopilot.py:840-847 | the early break loses nothing: a phrase that is said has every shorter phrase from its start said |
| GoalMatch.LongestIsAttained | backend/app/services/autopilot.py:827-849 | that length is attained by a common run, and no common run is longer |
| GoalMatch.FindNamed | backend/app/services/autopilot.py:852-923 | the guards and loops compute the redirect |
| GoalMatch.RedirectIsOptimal | backend/app/services/autopilot.py:852-923 | a redirect exists only for a named-nothing choice and is the first visible, enabled control of the same role and tag, other than the chosen one, of the greatest positive strength; without one no such control has any strength or a guard holds |
| GoalMatch.RedirectIsFixpoint | backend/app/services/autopilot.py:906-907 | redirecting the result again changes nothing |
| StuckDetector.VisitQueueIsFilter | backend/app/services/stuck_detector.py:61-64 | with times in order, cutting the front of a page's trimmed queue gives exactly the visits of the whole history since then |
| StuckDetector.ScrollQueueIsFilter | backend/app/services/stuck_detector.py:85-95 | the same for the scrolls since the last productive event |
| StuckDetector.ExpectedByQueues | backend/app/services/stuck_detector.py:38-103 | with times in order the queues decide as the whole history does |
| StuckDetector.BackwardClockBreaks | backend/app/services/stuck_detector.py:116-118 | the order is needed: after a clock that ran backwards a stale visit is still counted |
| StuckDetector.ObservationWindow.Observe | backend/app/services/stuck_detector.py:38-103 | the fields are the queues of everything observed, and with times in order the reason is that of the whole history |
| StuckDetector.StuckDetector.Observe | backend/app/services/stuck_detector.py:38-103 | the same for each of many sessions, leaving all others untouched |
| TelemetryOutbox.EnqueueKeepsFirst | backend/app/persistence/repository.py:686-703 | each kind and stable key has one row with the payload it was first requested with, and enqueueing keeps all rows |
| TelemetryOutbox.MarkKeepsFirst | backend/app/persistence/repository.py:721-729 | marking a row keeps that |
| TelemetryOutbox.WalkSelects | backend/app/services/telemetry.py:109-120 | the scan with its early exit collects the first due rows and counts exactly those it passed over |
| TelemetryOutbox.SelectedRows | backend/app/services/telemetry.py:99-120 | a flush attempts distinct, unsynchronised, due rows, at most the batch size |
| TelemetryOutbox.BackoffIsBounded | backend/app/services/telemetry.py:240-245 | the retry delay is nondecreasing in the attempt and within base and maximum |
| TelemetryOutbox.BackoffDoubles | backend/app/services/telemetry.py:240-245 | it doubles up to the maximum and stays there from the thirty-first attempt |
| TelemetryOutbox.TelemetryService.SyncItem | backend/app/services/telemetry.py:157-200 | one attempt: its row, retry time and acknowledgement, and nothing else |
| TelemetryOutbox.TelemetryService.Flush | backend/app/services/telemetry.py:99-135 | synced + failed = selected, at most the batch size; synced counts exactly the rows acknowledged and marked; every other row is untouched |
| TelemetryOutbox.TelemetryService.Serve | backend/app/services/telemetry.py:99-238 | over any enqueues and flushes, with any failures and orders of completion, every requested item keeps one row with its first payload, and a row that was never acknowledged stays selectable |
| TelemetryOutbox.TelemetryService.RecordFailure | backend/app/services/telemetry.py:202-238 | a failed attempt waits the growing delay only after a retryable provider error, else the maximum, even when the mark could not be stored |
| TelemetryOutbox.ForcedFlushDrains | backend/app/services/telemetry.py:99-135 | a forced flush that succeeds removes exactly the oldest batch |
| TelemetryOutbox.AttemptedExactly | backend/app/services/telemetry.py:99-120 | counted from the oldest, an unsynchronised row is attempted by a flush exactly if it lies within the scan limit, is due, and fewer older rows are due than the batch holds |
| TelemetryOutbox.ScanLimitStarves | backend/app/services/telemetry.py:104-107 | a row behind as many older unsynchronised rows as the scan limit is attempted by no flush, forced or not |
| EventStream.ConsumeStream | web/src/api/client.ts:854-887 | the events delivered are those of the blocks consumed; for a text without a CR directly before CRLF they are those of the whole text, whatever the cuts |
| EventStream.Drain | web/src/api/client.ts:870-884 | the inner loop delivers the blocks of the buffer in order and keeps the incomplete tail, stopping at the first payload that does not parse |
| EventStream.ChunkIndependence | web/src/api/client.ts:866-884 | for such a text every way of cutting it into pieces yields the blocks of the leftmost split of the normalised whole |
| EventStream.ChunkIndependenceIsExact | web/src/api/client.ts:866-884 | for a text that ends in a blank line the pieces do not matter exactly when no CR stands directly before a CRLF |
| EventStream.LonePairBreaks | web/src/api/client.ts:869-870 | cutting right after such a CRLF changes what is emitted |
| StreamCuts.CutsDoNotMatterExactly | web/src/api/client.ts:866-884 | for any text at all every way of cutting it, empty pieces included, gives the same blocks exactly when removing one CR and removing every CR before each line feed give the same blocks |
| StreamCuts.InTwoIsConsumed | web/src/api/client.ts:866-884 | then the text has a part that every cutting reads alike and a tail in which none finds a blank line |
| StreamCuts.SlowlyIsBare | web/src/api/client.ts:866-884 | read a character at a time with empty pieces in between, a text gives the blocks of the text without any CR before a line feed |
| EventStream.NormalizePrefix | web/src/api/client.ts:869-870 | normalising a buffer before more text arrives does not change the normal form of the whole |
| EventStream.SplitJoin | web/src/api/client.ts:871-873 | the blocks joined by blank lines and the tail are the text again |
| EventStream.SplitIsUnique | web/src/api/client.ts:871-873 | a text has no other such split into blocks without a blank line |
| Cost.MakeUsage | backend/app/services/cost_calculator.py:39-46 | counts are accepted exactly when none is negative and not all are zero |
| Cost.FromRow | backend/app/services/cost_calculator.py:69-109 | an accepted rate has a positive quantity and conversion and a price that is not negative; without a conversion only dollars are accepted, at one |
| Cost.CalculateFromRates | backend/app/services/cost_calculator.py:250-341 | estimates and blank identifiers are refused; otherwise the cost is that of the selected rates, or the refusal of the first class without exactly one, or in the end the refusal of a blank cost id, which only a given id can be |
| Cost.CostExactlyWhen | backend/app/services/cost_calculator.py:284-310 | used tokens have a cost exactly when every used class has one rate in force and these share currency, conversion and rounding rule |
| Cost.CostIgnoresOrder | backend/app/services/cost_calculator.py:278-319 | lists that hold the relevant rates equally often have the same cost or refusal |
| Cost.PermutationIsSame | backend/app/services/cost_calculator.py:278-283 | permuting the rates and adding rates of other versions or unused classes gives such lists |
| Cost.CostIsClose | backend/app/services/cost_calculator.py:312-321 | the amount in dollars differs from the exact one by at most (1 + 5e-38)^7 - 1 times it, the amount in the rates' currency by at most (1 + 5e-38)^6 - 1 |
| Cost.ContextRounds | backend/app/services/cost_calculator.py:312-314 | the rounding of a 38-digit half-even decimal context is one this holds for |
| Decimal38.RoundIsClose | backend/app/services/cost_calculator.py:312-314 | rounding to 38 significant digits, half to even, is off by at most 5e-38 relative to the exact value |
| Decimal38.ExponentExists | backend/app/services/cost_calculator.py:312-314 | every positive number has an exponent that leaves 38 digits |
| Decimal38.NearRounded | backend/app/services/cost_calculator.py:315-321 | k roundings and one more are k + 1 roundings off |
| Routines.OnePerDay | backend/app/services/activity_memory.py:204-209 | the counted starts have exactly the local days of all starts, each once |
| Routines.PatternExactlyWhen | backend/app/services/activity_memory.py:210-233 | there is a pattern exactly when there are starts on two local days and their median gap is at most 2, 5 to 10 or 24 to 38 days |
| Routines.PatternPromises | backend/app/services/activity_memory.py:197-276 | at least two days, a time of day, exactly the median minute, a valid due date strictly after the last counted day: one or two, or seven to ten days on, or in the very next month on the median day clipped to it; confidence between 0.55 and 0.98 |
| Routines.DueAfterLastStart | backend/app/services/activity_memory.py:204-209 | if the local days of the starts never go back, the due date is strictly after the local date of the last start of all, counted or not |
| Routines.DueAfterLastStartInOneZone | backend/app/services/activity_memory.py:204-254 | so it is for a participant whose starts are all in one zone |
| Routines.DueAfterLastStartExactly | backend/app/services/activity_memory.py:204-254 | for any zones it is strictly after exactly when the day of the last start is less than one or two days, less than the weekly interval, or short of the clipped typical day of the next month, past the last counted day |
| Routines.WeeklyIsDueLater | backend/app/services/activity_memory.py:239-254 | a weekly routine is due strictly after the last start wherever the participant travels |
| Routines.TravellerIsDueToday | backend/app/services/activity_memory.py:204-254 | a daily routine of a participant who travels west can be due on the very local date of the last start |
| Routines.NextDateIsLater | backend/app/services/activity_memory.py:239-254 | the monthly date is the typical day clipped to the next month, the others exactly the interval later |
| Routines.RepeatedDayChangesNothing | backend/app/services/activity_memory.py:202-209 | one more start on a day already counted changes no pattern below the row limit, and at the limit exactly by forgetting the oldest row |
| Routines.LimitForgets | backend/app/persistence/repository.py:256-283 | at the limit it can lose a pattern: when the oldest row is one of a task's only two days |
| Routines.InferPattern | backend/app/services/activity_memory.py:197-276 | the loops over one task's starts compute the pattern |
| Routines.Patterns | backend/app/services/activity_memory.py:197-276 | the patterns of exactly the tasks whose recent starts have one, each once, in the order of their due times |
| Routines.MedianBetween | backend/app/services/activity_memory.py:219-238 | the median lies within any bounds of the values |
| CalendarDates.AddDaysAdds | backend/app/services/activity_memory.py:251 | adding days to a date gives a valid date that many day numbers later |
| CalendarDates.BeforeIsOrdinal | backend/app/services/activity_memory.py:239-254 | calendar order is the order of the day numbers |
| CalendarDates.InNextMonthIsLater | backend/app/services/activity_memory.py:240-249 | the date in the next month is valid, later and exactly one month on |

## Left out

- Autopilot.AgentRun.RecordClick: a click on an id that was not offered is passed on unrecorded, as in the code, so nothing is claimed about its repetition.
- Autopilot.AgentRun.Live: confirmations that arrive while a drive is still publishing its pause are not a separate step, because that drive does nothing afterwards.
- Orchestrator.SessionOrchestrator.Guide: which control a saved step matches on the page is an arbitrary answer; the selector search is not part of this model.
- Orchestrator.SessionOrchestrator.HandleEvent: the telemetry rows an event enqueues are left out; whether a page was dismissed recently is an arbitrary answer, because the participant's other sessions write the same table.
- Reconciliation.BrowserReconciliationService.Reconcile: report text, redaction, anomalies and id canonicalisation are left out; owners and environments are taken as already canonical.
- TelemetryOutbox.TelemetryService.Flush: the number of concurrent attempts is left out; attempts finish in any order.
- Routines.Patterns: the order of patterns that are due at the same time is left out.
- Cost.CostIsClose: exponents are unbounded, so overflow and underflow of the decimal context are left out; its default limits lie far beyond any price.
- The provider's client is not part of this model; a live session is running or pending, an ended one failed, timed out or completed.
- Failures of the local database itself are left out except where a mark or a release may fail to be stored.
- SQLite text, JSON and YAML encoding, UTF-8 decoding, HTTP, authentication and logging.
- Regular expressions, redaction and tokenising: words, labels and titles are taken as already normalised.
- Time zones and the spread of gaps: a local date for a moment and any non-negative number are given.
- Reminders, recall phrasing, routine caches, event fan-out and the caregiver's views would only add easier members.
