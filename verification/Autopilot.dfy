/** One autonomous run: read the page, plan one action, check it, perform it, narrate it.
    The planner, the browser and the publishing are answers of an arbitrary world. The
    methods of the service that work on a run are methods of the run. */
module Autopilot {
  import opened GoalMatch
  import opened LocalActions

  datatype RunState = RUNNING | NEEDS_CONFIRMATION | COMPLETED | FAILED | STOPPED

  datatype StepStatus = StepRunning | StepDone | StepFailed | StepBlocked

  datatype Step = Step(no: nat, action: Action, status: StepStatus)

  /** How an awaited call ends. */
  datatype Reply<+T> = Replied(value: T) | Raised | Cancelled

  datatype PageState = PageState(key: string, blocked: bool)

  /** Everything outside, by the time an await ends. The planner's answer may be anything;
      an unusable one is none. */
  datatype World = World(
    pageState: nat -> Reply<PageState>,
    snapshot: nat -> Reply<seq<Candidate>>,
    planner: nat -> Reply<Option<Plan>>,
    act: nat -> Reply<bool>,
    publish: nat -> Reply<bool>,
    reading: nat -> Reading,
    personaValue: Candidate -> Option<string>,
    typedKey: (string, string) -> string,
    urlKey: string -> string)

  const MAX_SCROLLS_PER_PAGE: nat := 4
  const MAX_SKIPPED_QUESTIONS: nat := 6

  const NEVER_OFFERED: seq<string> := [
    "sign in", "sign-in", "log in", "login", "create account", "create an account", "sign up", "subscribe",
    "subscription", "membership", "free trial", "start trial", "circle 360", "join now"]

  predicate NeverOffered(c: Candidate) {
    c.name != "" && ContainsAny(c.name, NEVER_OFFERED)
  }

  /** What the planner is shown: nothing tried on this page, no sign-in, no membership. */
  function Offered(candidates: seq<Candidate>, tried: set<string>): (offered: seq<Candidate>)
    ensures forall c :: c in offered <==> c in candidates && c.name !in tried && !NeverOffered(c)
    decreases |candidates|
  {
    if candidates == [] then []
    else
      (if candidates[0].name !in tried && !NeverOffered(candidates[0]) then [candidates[0]] else [])
      + Offered(candidates[1..], tried)
  }

  /** The first control of a list with an id. */
  function FirstWith(candidates: seq<Candidate>, id: string): (found: Option<Candidate>)
    ensures found.Some? ==> found.value in candidates && found.value.id == id
    ensures found.None? ==> forall c :: c in candidates ==> c.id != id
    decreases |candidates|
  {
    if candidates == [] then None
    else if candidates[0].id == id then Some(candidates[0])
    else FirstWith(candidates[1..], id)
  }

  /** The flags of the control a plan is aimed at, as the safety check sees them. */
  function FlagsOf(candidates: seq<Candidate>, id: string): set<Flag> {
    var target := FirstWith(candidates, id);
    if id != "" && target.Some? then target.value.flags else {}
  }

  /** Whether a plan pauses the run: a password always, for a participant also money,
      deletion and fields that hold payment or bank details. */
  predicate Stops(demo: bool, safety: Safety, flags: set<Flag>) {
    PASSWORD in flags || (!demo && (safety in {MONEY, DELETION} || flags * STOPPING_FLAGS != {}))
  }

  /** How an action handed to the browser counts on a page: a click on a label, a text typed
      into a label, a repeated text turned into Enter, or anything else. */
  datatype Kind = Clicked | Typed | Submitted | Uncounted

  datatype Handed = Handed(plan: Plan, flags: set<Flag>, kind: Kind, key: string)

  datatype Answer = Answer(plan: Option<Plan>, kind: Kind, key: string)

  /** Why a pass through the loop ended. */
  datatype Flow = GoOn | Ended | Crashed | Interrupted

  function ScrollsIn(visit: seq<Handed>): nat {
    if visit == [] then 0
    else ScrollsIn(visit[..|visit| - 1]) + if visit[|visit| - 1].plan.action.SCROLL? then 1 else 0
  }

  /** On one visit of a page: every counted key is withheld, and none came twice. */
  ghost predicate Once(visit: seq<Handed>, tried: set<string>) {
    && (forall h :: h in visit && h.kind != Uncounted ==> h.key in tried)
    && (forall i, j :: 0 <= i < j < |visit| && visit[i].kind == visit[j].kind != Uncounted ==>
         visit[i].key != visit[j].key)
    && (forall h :: h in visit ==>
         (h.plan.action.CLICK? <==> h.kind == Clicked) && (h.plan.action.FILL? <==> h.kind == Typed))
  }

  /** The next action of a visit does not repeat one. */
  ghost predicate New(visit: seq<Handed>, tried: set<string>, action: Action, kind: Kind, key: string) {
    && (kind != Uncounted ==> key in tried && forall g :: g in visit && g.kind == kind ==> g.key != key)
    && (action.CLICK? <==> kind == Clicked) && (action.FILL? <==> kind == Typed)
  }

  lemma OnceMore(visit: seq<Handed>, tried: set<string>, h: Handed)
    requires Once(visit, tried) && New(visit, tried, h.plan.action, h.kind, h.key)
    ensures Once(visit + [h], tried)
  {
  }

  /** A key that was not withheld is new, and withholding more keeps the visit. */
  lemma Withhold(visit: seq<Handed>, tried: set<string>, key: string, action: Action, kind: Kind)
    requires Once(visit, tried)
    ensures Once(visit, tried + {key})
    ensures key !in tried && (action.CLICK? <==> kind == Clicked) && (action.FILL? <==> kind == Typed) ==>
      New(visit, tried + {key}, action, kind, key)
  {
  }

  lemma OneMoreScroll(visit: seq<Handed>, h: Handed)
    ensures ScrollsIn(visit + [h]) == ScrollsIn(visit) + if h.plan.action.SCROLL? then 1 else 0
  {
    assert (visit + [h])[..|visit|] == visit;
  }

  class AgentRun {
    const world: World
    const goal: Goal
    const maxSteps: nat
    const demo: bool

    var state: RunState
    var steps: seq<Step>
    var blocked: bool
    var pendingConfirmation: bool
    var filledLabels: set<string>
    var pageKey: string
    var triedOnPage: set<string>
    var clickedLabels: set<string>
    var scrollsOnPage: nat
    var answeredQuestions: nat
    var ticks: nat

    /** Passes through the loop, free question skips among them and planner calls, over the
        whole life of the run; whether a drive was cancelled while it ran; whether the
        planner always named a control it was offered; and what the browser was handed, in
        all and since the page key last changed. */
    ghost var passes: nat
    ghost var skips: nat
    ghost var asked: nat
    ghost var interrupted: bool
    ghost var obedient: bool
    ghost var handed: seq<Handed>
    ghost var visit: seq<Handed>

    ghost predicate Numbered()
      reads this`steps
    {
      |steps| <= maxSteps && forall i :: 0 <= i < |steps| ==> steps[i].no == i + 1
    }

    /** `ahead` is one in the middle of a pass. */
    ghost predicate Counted(ahead: nat)
      reads this`steps, this`state, this`pendingConfirmation, this`answeredQuestions, this`passes, this`skips,
            this`asked, this`interrupted
    {
      && passes <= |steps| + skips + (if state in {RUNNING, NEEDS_CONFIRMATION} && !interrupted then ahead else 1)
      && skips <= answeredQuestions && skips <= MAX_SKIPPED_QUESTIONS
      && asked <= 2 * passes
      && (interrupted ==> state in {RUNNING, STOPPED})
      && (pendingConfirmation <==> state == NEEDS_CONFIRMATION)
    }

    ghost predicate Scrolled()
      reads this`scrollsOnPage, this`visit
    {
      ScrollsIn(visit) <= scrollsOnPage <= MAX_SCROLLS_PER_PAGE
    }

    ghost predicate Harmless()
      reads this`handed
    {
      forall h :: h in handed ==> !Stops(demo, h.plan.safety, h.flags)
    }

    ghost predicate Visited()
      reads this`triedOnPage, this`obedient, this`visit
    {
      !demo && obedient ==> Once(visit, triedOnPage)
    }

    ghost predicate Valid(ahead: nat)
      reads this
    {
      Numbered() && Counted(ahead) && Scrolled() && Harmless() && Visited()
    }

    constructor (world: World, goal: Goal, maxSteps: nat, demo: bool)
      ensures Valid(0) && state == RUNNING && steps == [] && !interrupted && obedient
      ensures this.world == world && this.goal == goal && this.maxSteps == maxSteps && this.demo == demo
    {
      this.world, this.goal, this.maxSteps, this.demo := world, goal, maxSteps, demo;
      state, steps, blocked, pendingConfirmation := RUNNING, [], false, false;
      filledLabels, pageKey, triedOnPage, clickedLabels := {}, "", {}, {};
      scrollsOnPage, answeredQuestions, ticks := 0, 0, 0;
      passes, skips, asked, interrupted, obedient, handed, visit := 0, 0, 0, false, true, [], [];
    }

    method Await() returns (t: nat)
      modifies this`ticks
      ensures t == old(ticks) && ticks == t + 1
    {
      t := ticks;
      ticks := ticks + 1;
    }

    /** Publishing never fails a run; it can only be cancelled. */
    method Publish() returns (published: bool)
      modifies this`ticks
      ensures published <==> !world.publish(old(ticks)).Cancelled?
      ensures ticks == old(ticks) + 1
    {
      var t := Await();
      published := !world.publish(t).Cancelled?;
    }

    /** Reads the page. A new page key starts a new visit: everything may be tried again. */
    method RefreshPage() returns (flow: Flow)
      requires Scrolled() && Visited()
      modifies this`ticks, this`blocked, this`pageKey, this`triedOnPage, this`scrollsOnPage, this`visit
      ensures Scrolled() && Visited()
      ensures flow == if world.pageState(old(ticks)).Cancelled? then Interrupted else GoOn
      ensures pageKey == old(pageKey) ==>
        triedOnPage == old(triedOnPage) && scrollsOnPage == old(scrollsOnPage) && visit == old(visit)
      ensures pageKey != old(pageKey) ==> triedOnPage == {} && scrollsOnPage == 0 && visit == []
      ensures match world.pageState(old(ticks))
        case Replied(page) => pageKey == page.key && blocked == page.blocked
        case _ => pageKey == old(pageKey) && blocked == old(blocked)
    {
      var t := Await();
      var reply := world.pageState(t);
      match reply {
        case Cancelled => return Interrupted;
        case Raised => return GoOn;
        case Replied(page) =>
          blocked := page.blocked;
          if page.key != pageKey {
            pageKey := page.key;
            triedOnPage, scrollsOnPage, visit := {}, 0, [];
          }
          return GoOn;
      }
    }

    method Finish(outcome: RunState) returns (flow: Flow)
      requires Valid(1) && state == RUNNING && !interrupted && outcome in {COMPLETED, FAILED}
      requires outcome == COMPLETED ==> |steps| < maxSteps
      modifies this`state, this`steps, this`ticks
      ensures Valid(0) && state == outcome && flow in {Ended, Interrupted}
      ensures steps == old(steps) + if outcome == COMPLETED then [Step(|old(steps)| + 1, DONE, StepDone)] else []
    {
      state := outcome;
      if outcome == COMPLETED { steps := steps + [Step(|steps| + 1, DONE, StepDone)]; }
      var published := Publish();
      flow := if published then Ended else Interrupted;
    }

    /** Stops to ask; the question is a step of its own. */
    method Pause() returns (flow: Flow)
      requires Valid(1) && state == RUNNING && !interrupted && |steps| < maxSteps
      modifies this`state, this`steps, this`pendingConfirmation, this`ticks
      ensures Valid(0) && state == NEEDS_CONFIRMATION && flow in {Ended, Interrupted}
      ensures steps == old(steps) + [Step(|old(steps)| + 1, ASK, StepBlocked)]
    {
      state, pendingConfirmation := NEEDS_CONFIRMATION, true;
      steps := steps + [Step(|steps| + 1, ASK, StepBlocked)];
      var published := Publish();
      flow := if published then Ended else Interrupted;
    }

    /** Performs one checked action. The step is recorded before the browser is asked. */
    method Perform(plan: Plan, flags: set<Flag>, kind: Kind, key: string) returns (flow: Flow)
      requires Valid(1) && state == RUNNING && !interrupted && |steps| < maxSteps
      requires !Stops(demo, plan.safety, flags)
      requires !demo && obedient ==> New(visit, triedOnPage, plan.action, kind, key)
      requires plan.action.SCROLL? ==> ScrollsIn(visit) < scrollsOnPage
      modifies this`steps, this`ticks, this`blocked, this`pageKey, this`triedOnPage, this`scrollsOnPage, this`visit,
               this`handed
      ensures Valid(0) && |steps| == |old(steps)| + 1 && flow in {GoOn, Crashed, Interrupted}
      ensures handed == old(handed) || handed == old(handed) + [Handed(plan, flags, kind, key)]
      ensures flow == GoOn ==> handed == old(handed) + [Handed(plan, flags, kind, key)]
      ensures flow == GoOn ==>
        steps == old(steps) + [Step(|old(steps)| + 1, plan.action,
                                    if world.act(old(ticks) + 1) == Replied(true) then StepDone else StepFailed)]
    {
      ghost var before := steps;
      BeginStep(plan.action);
      var published := Publish();
      if !published { return Interrupted; }
      flow := HandOver(Handed(plan, flags, kind, key), before);
    }

    method HandOver(ghost h: Handed, ghost before: seq<Step>) returns (flow: Flow)
      requires Valid(0) && steps == before + [Step(|before| + 1, h.plan.action, StepRunning)]
      requires !Stops(demo, h.plan.safety, h.flags)
      requires !demo && obedient ==> New(visit, triedOnPage, h.plan.action, h.kind, h.key)
      requires h.plan.action.SCROLL? ==> ScrollsIn(visit) < scrollsOnPage
      modifies this`steps, this`ticks, this`blocked, this`pageKey, this`triedOnPage, this`scrollsOnPage, this`visit,
               this`handed
      ensures Valid(0) && |steps| == |old(steps)| && flow in {GoOn, Crashed, Interrupted}
      ensures handed == old(handed) + [h]
      ensures flow == GoOn ==>
        steps == before
          + [Step(|before| + 1, h.plan.action, if world.act(old(ticks)) == Replied(true) then StepDone else StepFailed)]
    {
      Hand(h);
      flow := Act(steps[|steps| - 1].action, before);
    }

    method Act(action: Action, ghost before: seq<Step>) returns (flow: Flow)
      requires Valid(0) && steps == before + [Step(|before| + 1, action, StepRunning)]
      modifies this`steps, this`ticks, this`blocked, this`pageKey, this`triedOnPage, this`scrollsOnPage, this`visit
      ensures Valid(0) && |steps| == |old(steps)| && flow in {GoOn, Crashed, Interrupted}
      ensures flow == GoOn ==>
        steps == before
          + [Step(|before| + 1, action, if world.act(old(ticks)) == Replied(true) then StepDone else StepFailed)]
    {
      var t := Await();
      var performed := world.act(t);
      if performed.Cancelled? { return Interrupted; }
      if performed.Raised? { return Crashed; }
      flow := Settle(before, action, performed.value);
    }

    method Settle(ghost before: seq<Step>, action: Action, performed: bool) returns (flow: Flow)
      requires Valid(0) && steps == before + [Step(|before| + 1, action, StepRunning)]
      modifies this`steps, this`ticks, this`blocked, this`pageKey, this`triedOnPage, this`scrollsOnPage, this`visit
      ensures Valid(0) && flow in {GoOn, Interrupted}
      ensures steps == before + [Step(|before| + 1, action, if performed then StepDone else StepFailed)]
    {
      SettleStep(before, action, if performed then StepDone else StepFailed);
      flow := LookAgain(performed);
    }

    /** Only an action that was performed may have changed the page. */
    method LookAgain(performed: bool) returns (flow: Flow)
      requires Valid(0)
      modifies this`ticks, this`blocked, this`pageKey, this`triedOnPage, this`scrollsOnPage, this`visit
      ensures Valid(0) && flow in {GoOn, Interrupted}
    {
      if performed {
        flow := RefreshPage();
        if flow.Interrupted? { return; }
      }
      var published := Publish();
      flow := if published then GoOn else Interrupted;
    }

    method BeginStep(action: Action)
      requires Numbered() && Counted(1) && |steps| < maxSteps && state == RUNNING && !interrupted
      modifies this`steps
      ensures Numbered() && Counted(0)
      ensures steps == old(steps) + [Step(|old(steps)| + 1, action, StepRunning)]
    {
      steps := steps + [Step(|steps| + 1, action, StepRunning)];
    }

    method SettleStep(ghost before: seq<Step>, action: Action, status: StepStatus)
      requires Numbered() && Counted(0) && steps == before + [Step(|before| + 1, action, StepRunning)]
      modifies this`steps
      ensures Numbered() && Counted(0) && steps == before + [Step(|before| + 1, action, status)]
    {
      var last := |steps| - 1;
      steps := steps[..last] + [steps[last].(status := status)];
    }

    ghost method Hand(h: Handed)
      requires Scrolled() && Harmless() && Visited()
      requires !Stops(demo, h.plan.safety, h.flags)
      requires !demo && obedient ==> New(visit, triedOnPage, h.plan.action, h.kind, h.key)
      requires h.plan.action.SCROLL? ==> ScrollsIn(visit) < scrollsOnPage
      modifies this`handed, this`visit
      ensures handed == old(handed) + [h] && visit == old(visit) + [h]
      ensures Scrolled() && Harmless() && Visited()
    {
      OneMoreScroll(visit, h);
      if !demo && obedient { OnceMore(visit, triedOnPage, h); }
      handed, visit := handed + [h], visit + [h];
    }

    // ---------------------------------------------------------------- planning

    /** A field a demo types its persona into. */
    predicate Fillable(c: Candidate, filled: set<string>) {
      && demo && c.visible && c.enabled && c.textInput && c.flags * STOPPING_FLAGS == {}
      && c.name != "" && c.name !in filled && world.personaValue(c).Some?
    }

    /** Types the persona into the first field this run has not filled yet. */
    method PersonaFill(candidates: seq<Candidate>) returns (plan: Option<Plan>)
      modifies this`filledLabels
      ensures plan.None? ==>
        filledLabels == old(filledLabels) && forall c :: c in candidates ==> !Fillable(c, filledLabels)
      ensures plan.Some? ==>
        exists i :: 0 <= i < |candidates| && Fillable(candidates[i], old(filledLabels))
          && (forall j :: 0 <= j < i ==> !Fillable(candidates[j], old(filledLabels)))
          && filledLabels == old(filledLabels) + {candidates[i].name}
          && plan.value == FillPlan(candidates[i], world.personaValue(candidates[i]).value).(safety := SAFE)
    {
      if !demo { return None; }
      for i := 0 to |candidates|
        invariant filledLabels == old(filledLabels)
        invariant forall j :: 0 <= j < i ==> !Fillable(candidates[j], filledLabels)
      {
        if Fillable(candidates[i], filledLabels) {
          filledLabels := filledLabels + {candidates[i].name};
          return Some(FillPlan(candidates[i], world.personaValue(candidates[i]).value).(safety := SAFE));
        }
      }
      return None;
    }

    /** What recording a planned action does: it may be rewritten, its key is withheld, and
        its safety classification is never lowered. */
    ghost predicate Recorded(plan: Plan, answer: Answer)
      reads this`triedOnPage, this`obedient, this`visit
    {
      && answer.plan.Some?
      && (plan.safety != SAFE ==> answer.plan.value.safety == plan.safety)
      && (answer.plan.value.action == plan.action || (plan.action.FILL? && answer.plan.value.action.PRESS?))
      && (!demo && obedient ==> New(visit, triedOnPage, answer.plan.value.action, answer.kind, answer.key))
    }

    /** A click goes to the row the task names, if it names another one of the list that
        was not clicked before; the label is withheld before the click. */
    method RecordClick(plan: Plan, offered: seq<Candidate>) returns (answer: Answer)
      requires Visited() && plan.action.CLICK? && forall c :: c in offered ==> c.name !in triedOnPage
      modifies this`triedOnPage, this`clickedLabels, this`obedient
      ensures Visited() && Recorded(plan, answer)
      ensures obedient <==> old(obedient) && FirstWith(offered, plan.candidateId).Some?
      ensures FirstWith(offered, plan.candidateId).None? ==>
        answer == Answer(Some(plan), Uncounted, "") && triedOnPage == old(triedOnPage)
      ensures FirstWith(offered, plan.candidateId).Some? ==>
        var target := ClickTarget(plan, offered, old(clickedLabels));
        && answer.kind == Clicked && answer.key == target.name
        && triedOnPage == old(triedOnPage) + {target.name} && clickedLabels == old(clickedLabels) + {target.name}
        && answer.plan == Some(Redirected(plan, FirstWith(offered, plan.candidateId).value, target))
    {
      var target := FirstWith(offered, plan.candidateId);
      if target.None? {
        obedient := false;
        return Answer(Some(plan), Uncounted, "");
      }
      var chosen := target.value;
      var named := FindNamed(goal, chosen, offered);
      RedirectIsOptimal(goal, chosen, offered);
      if named.Some? && named.value.name in clickedLabels { named := None; }
      if named.Some? { chosen := named.value; }
      assert chosen == ClickTarget(plan, offered, clickedLabels);
      if !demo && obedient { Withhold(visit, triedOnPage, chosen.name, CLICK, Clicked); }
      triedOnPage, clickedLabels := triedOnPage + {chosen.name}, clickedLabels + {chosen.name};
      answer := Answer(Some(Redirected(plan, target.value, chosen)), Clicked, chosen.name);
    }

    /** The control a planned click goes to. */
    function ClickTarget(plan: Plan, offered: seq<Candidate>, clicked: set<string>): Candidate
      requires FirstWith(offered, plan.candidateId).Some?
    {
      var chosen := FirstWith(offered, plan.candidateId).value;
      var named := NamedInGoal(goal, chosen, offered);
      if named.Some? && named.value.name !in clicked then named.value else chosen
    }

    static function Redirected(plan: Plan, chosen: Candidate, target: Candidate): Plan {
      if target.id == chosen.id then plan
      else plan.(candidateId := target.id, narration := "Choosing " + target.name + ".",
                 safety := if plan.safety != SAFE then plan.safety else CandidateSafety(target))
    }

    static function Submission(plan: Plan): Plan {
      plan.(action := PRESS, value := "Enter", url := "", taskComplete := false)
    }

    /** A text goes into a field once; the second time it is submitted instead and the
        field withheld. */
    method RecordFill(plan: Plan, offered: seq<Candidate>) returns (answer: Answer)
      requires Visited() && plan.action.FILL? && forall c :: c in offered ==> c.name !in triedOnPage
      modifies this`triedOnPage, this`obedient
      ensures Visited() && Recorded(plan, answer)
      ensures obedient <==> old(obedient) && plan.candidateId != "" && FirstWith(offered, plan.candidateId).Some?
      ensures plan.candidateId == "" ==> answer == Answer(Some(plan), Uncounted, "") && triedOnPage == old(triedOnPage)
      ensures plan.candidateId != "" ==>
        var target := FirstWith(offered, plan.candidateId);
        var name := if target.Some? then target.value.name else plan.candidateId;
        var typed := world.typedKey(name, plan.value);
        && triedOnPage == old(triedOnPage) + {if typed in old(triedOnPage) then name else typed}
        && answer == (if typed in old(triedOnPage) then Answer(Some(Submission(plan)), Submitted, name)
             else Answer(Some(plan), Typed, typed))
    {
      if plan.candidateId == "" {
        obedient := false;
        return Answer(Some(plan), Uncounted, "");
      }
      var target := FirstWith(offered, plan.candidateId);
      var name := if target.Some? then target.value.name else plan.candidateId;
      if target.None? { obedient := false; }
      var typed := world.typedKey(name, plan.value);
      if typed in triedOnPage {
        if !demo && obedient { Withhold(visit, triedOnPage, name, PRESS, Submitted); }
        triedOnPage := triedOnPage + {name};
        return Answer(Some(Submission(plan)), Submitted, name);
      }
      if !demo && obedient { Withhold(visit, triedOnPage, typed, FILL, Typed); }
      triedOnPage := triedOnPage + {typed};
      answer := Answer(Some(plan), Typed, typed);
    }

    /** Records a planned action on the page it is for. */
    method Record(plan: Plan, offered: seq<Candidate>) returns (answer: Answer)
      requires Visited() && Scrolled() && forall c :: c in offered ==> c.name !in triedOnPage
      requires plan.action.SCROLL? ==> scrollsOnPage < MAX_SCROLLS_PER_PAGE
      modifies this`triedOnPage, this`clickedLabels, this`scrollsOnPage, this`obedient
      ensures Visited() && Scrolled() && Recorded(plan, answer)
      ensures answer.plan.value.action.SCROLL? ==> ScrollsIn(visit) < scrollsOnPage
      ensures scrollsOnPage == old(scrollsOnPage) + if plan.action.SCROLL? then 1 else 0
      ensures answer.kind == Clicked ==>
        exists c :: c in offered && c.id == answer.plan.value.candidateId && c.name == answer.key
    {
      if plan.action.CLICK? { answer := RecordClick(plan, offered); return; }
      if plan.action.FILL? { answer := RecordFill(plan, offered); return; }
      if plan.action.NAVIGATE? && plan.url != "" {
        if !demo && obedient { Withhold(visit, triedOnPage, world.urlKey(plan.url), NAVIGATE, Uncounted); }
        triedOnPage := triedOnPage + {world.urlKey(plan.url)};
      } else if plan.action.SCROLL? {
        scrollsOnPage := scrollsOnPage + 1;
      }
      answer := Answer(Some(plan), Uncounted, "");
    }

    /** Asks the planner once. A slow or failing planner, or an unusable answer, is none. */
    method AskPlanner() returns (reply: Reply<Option<Plan>>)
      modifies this`ticks, this`asked
      ensures asked == old(asked) + 1 && ticks == old(ticks) + 1
      ensures reply == if world.planner(old(ticks)).Raised? then Replied(None) else world.planner(old(ticks))
    {
      var t := Await();
      asked := asked + 1;
      reply := world.planner(t);
      if reply.Raised? { reply := Replied(None); }
    }

    /** Plans one action. Scrolling is refused after two scrolls in a row or when the page's
        scrolls are spent: then the planner is asked once more, and after that the
        deterministic planner has the last word. */
    method MakePlan(candidates: seq<Candidate>, noScroll: bool) returns (reply: Reply<Answer>)
      requires Visited() && Scrolled()
      modifies this`triedOnPage, this`clickedLabels, this`scrollsOnPage, this`filledLabels, this`ticks, this`obedient,
               this`asked
      ensures Visited() && Scrolled() && !reply.Raised?
      ensures old(asked) <= asked <= old(asked) + if noScroll then 1 else 2
      ensures reply.Replied? && reply.value.plan.Some? ==> Ready(reply.value)
      ensures if exists c :: c in candidates && Fillable(c, old(filledLabels))
        then FilledIn(reply) && asked == old(asked)
              else asked > old(asked) && Consulted(reply, candidates, noScroll, old(ticks), old(triedOnPage))
      ensures !noScroll && ScrolledTwice() && Scrolls(reply) ==>
        asked == old(asked) + 2
      decreases !noScroll, 1
    {
      var filled := PersonaFill(candidates);
      if filled.Some? { return Replied(Answer(filled, Uncounted, "")); }
      reply := Consult(candidates, noScroll);
    }

    static predicate Scrolls(reply: Reply<Answer>) {
      reply.Replied? && reply.value.plan.Some? && reply.value.plan.value.action.SCROLL?
    }

    /** A demo's own details come before any planner. */
    static predicate FilledIn(reply: Reply<Answer>) {
      reply.Replied? && reply.value.kind == Uncounted && reply.value.plan.Some?
      && reply.value.plan.value.action.FILL? && reply.value.plan.value.safety == SAFE
    }

    /** An answer made of what the planner said, or of a control of the page; a counted
        click is for a control the planner was shown. */
    ghost predicate Consulted(reply: Reply<Answer>, candidates: seq<Candidate>, noScroll: bool, t: nat,
                              tried: set<string>)
      reads this`triedOnPage, this`obedient, this`visit
    {
      reply.Replied? && reply.value.plan.Some? ==>
        && (exists p :: Recorded(p, reply.value) && (Proposed(p, t, !noScroll) || LocalPlan(p, candidates)))
        && (reply.value.kind == Clicked ==> exists c :: ShownAs(c, candidates, tried, reply.value))
    }

    method Consult(candidates: seq<Candidate>, noScroll: bool) returns (reply: Reply<Answer>)
      requires Visited() && Scrolled() && forall c :: c in candidates ==> !Fillable(c, filledLabels)
      modifies this`triedOnPage, this`clickedLabels, this`scrollsOnPage, this`filledLabels, this`ticks, this`obedient,
               this`asked
      ensures Visited() && Scrolled() && !reply.Raised?
      ensures old(asked) < asked <= old(asked) + if noScroll then 1 else 2
      ensures reply.Replied? && reply.value.plan.Some? ==> Ready(reply.value)
      ensures Consulted(reply, candidates, noScroll, old(ticks), old(triedOnPage))
      ensures !noScroll && ScrolledTwice() && Scrolls(reply) ==>
        asked == old(asked) + 2
      decreases !noScroll, 0
    {
      var offered := Offered(candidates, triedOnPage);
      var exhausted := scrollsOnPage >= MAX_SCROLLS_PER_PAGE;
      var asking := AskPlanner();
      if asking.Cancelled? { return Cancelled; }
      if asking.value.None? { return Replied(Answer(None, Uncounted, "")); }
      var plan := asking.value.value;
      if plan.action.SCROLL? && !noScroll && !exhausted && ScrolledTwice() {
        reply := MakePlan(candidates, true);
        return;
      }
      var answer := Conclude(plan, candidates, offered, noScroll, exhausted, old(ticks));
      reply := Replied(answer);
    }

    /** Records what the planner said or what replaces it. */
    method Conclude(plan: Plan, ghost candidates: seq<Candidate>, offered: seq<Candidate>, noScroll: bool,
                    exhausted: bool, ghost t: nat)
      returns (answer: Answer)
      requires Visited() && Scrolled() && offered == Offered(candidates, triedOnPage) && Proposed(plan, t, !noScroll)
      requires exhausted <==> scrollsOnPage >= MAX_SCROLLS_PER_PAGE
      modifies this`triedOnPage, this`clickedLabels, this`scrollsOnPage, this`obedient
      ensures Visited() && Scrolled()
      ensures answer.plan.Some? ==>
        Ready(answer) && (answer.plan.value.action.SCROLL? ==> plan.action.SCROLL? && !exhausted)
      ensures Consulted(Replied(answer), candidates, noScroll, t, old(triedOnPage))
    {
      answer := LastWord(plan, offered, noScroll, exhausted);
      if answer.kind == Clicked {
        ghost var c :| c in offered && c.id == answer.plan.value.candidateId && c.name == answer.key;
        assert ShownAs(c, candidates, old(triedOnPage), answer);
      }
    }

    /** A scroll that is off the table becomes a choice of the deterministic planner, or, when
        the page's scrolls are spent, no plan at all. */
    method LastWord(proposed: Plan, offered: seq<Candidate>, noScroll: bool, exhausted: bool) returns (answer: Answer)
      requires Visited() && Scrolled() && forall c :: c in offered ==> c.name !in triedOnPage
      requires exhausted <==> scrollsOnPage >= MAX_SCROLLS_PER_PAGE
      modifies this`triedOnPage, this`clickedLabels, this`scrollsOnPage, this`obedient
      ensures Visited() && Scrolled()
      ensures answer.plan.Some? ==> Ready(answer)
      ensures answer.kind == Clicked ==>
        answer.plan.Some? && exists c :: c in offered && c.id == answer.plan.value.candidateId && c.name == answer.key
      ensures !(proposed.action.SCROLL? && (noScroll || exhausted)) ==> Recorded(proposed, answer)
      ensures proposed.action.SCROLL? && (noScroll || exhausted) ==>
        exists fallback ::
          Chooses(world.reading(ticks), offered, fallback) && (fallback.Some? ==> LocalPlan(fallback.value, offered))
          && Replaces(fallback, proposed, exhausted, answer)
    {
      if !(proposed.action.SCROLL? && (noScroll || exhausted)) {
        answer := Record(proposed, offered);
        return;
      }
      var fallback := PlanLocally(world.reading(ticks), offered);
      if fallback.None? && exhausted {
        answer := Answer(None, Uncounted, "");
      } else {
        answer := Record(if fallback.Some? then fallback.value else proposed, offered);
      }
      assert Replaces(fallback, proposed, exhausted, answer);
    }

    /** The local choice if there is one, else the scroll while any is left. */
    ghost predicate Replaces(fallback: Option<Plan>, proposed: Plan, exhausted: bool, answer: Answer)
      reads this`triedOnPage, this`obedient, this`visit
    {
      if fallback.Some? then Recorded(fallback.value, answer)
      else if exhausted then answer.plan.None?
      else Recorded(proposed, answer)
    }

    /** The planner's answer to the first or the second asking. */
    ghost predicate Proposed(p: Plan, t: nat, twice: bool) {
      world.planner(t) == Replied(Some(p)) || (twice && world.planner(t + 1) == Replied(Some(p)))
    }

    /** The control of the snapshot a counted click is for: one the planner was shown. */
    static ghost predicate ShownAs(c: Candidate, candidates: seq<Candidate>, tried: set<string>, answer: Answer) {
      answer.plan.Some? && c in Offered(candidates, tried) && c.id == answer.plan.value.candidateId &&
        c.name == answer.key
    }

    predicate ScrolledTwice()
      reads this`steps
    {
      |steps| >= 2 && steps[|steps| - 1].action.SCROLL? && steps[|steps| - 2].action.SCROLL?
    }

    /** An answer that may be performed without repeating anything on this page. */
    ghost predicate Ready(answer: Answer)
      reads this`triedOnPage, this`obedient, this`visit, this`scrollsOnPage
      requires answer.plan.Some?
    {
      && (!demo && obedient ==> New(visit, triedOnPage, answer.plan.value.action, answer.kind, answer.key))
      && (answer.plan.value.action.SCROLL? ==> ScrollsIn(visit) < scrollsOnPage)
    }

    // ---------------------------------------------------------------- driving

    /** How a pass leaves the run. One that goes on adds a step or a free skip to those
        `before`; one that does not has ended, or is to be finished or cut off. */
    ghost predicate Leaves(flow: Flow, before: nat)
      reads this
    {
      match flow
      case GoOn => Valid(0) && state == RUNNING && |steps| + skips == before + 1
      case Ended => Valid(0) && state != RUNNING
      case Crashed => Valid(1) && state == RUNNING
      case Interrupted => Valid(if state == RUNNING then 1 else 0)
    }

    /** One pass through the loop. */
    method Pass() returns (flow: Flow)
      requires Valid(0) && state == RUNNING && !interrupted && |steps| < maxSteps
      modifies this
      ensures !interrupted && asked <= old(asked) + 2 && passes == old(passes) + 1
      ensures |steps| >= |old(steps)| && skips >= old(skips)
      ensures Leaves(flow, |old(steps)| + old(skips))
    {
      passes := passes + 1;
      if blocked { flow := Finish(FAILED); return; }
      var t := Await();
      var snapshot := world.snapshot(t);
      if snapshot.Cancelled? { return Interrupted; }
      if snapshot.Raised? { return Crashed; }
      flow := PlanAndDecide(snapshot.value);
    }

    method PlanAndDecide(candidates: seq<Candidate>) returns (flow: Flow)
      requires Numbered() && Scrolled() && Harmless() && Visited() && state == RUNNING && !interrupted
      requires |steps| < maxSteps
      requires Counted(1) && asked + 2 <= 2 * passes
      modifies this`state, this`steps, this`pendingConfirmation, this`answeredQuestions, this`ticks, this`blocked,
               this`pageKey, this`triedOnPage, this`scrollsOnPage, this`visit, this`handed, this`skips,
               this`clickedLabels, this`filledLabels, this`obedient, this`asked
      ensures asked <= old(asked) + 2 && |steps| >= |old(steps)| && skips >= old(skips)
      ensures Leaves(flow, |old(steps)| + old(skips))
    {
      var reply := MakePlan(candidates, false);
      if reply.Cancelled? { return Interrupted; }
      if reply.value.plan.None? { flow := Finish(FAILED); return; }
      flow := Decide(reply.value, candidates);
    }

    method Decide(answer: Answer, candidates: seq<Candidate>) returns (flow: Flow)
      requires Valid(1) && state == RUNNING && !interrupted && |steps| < maxSteps
      requires answer.plan.Some? && Ready(answer)
      modifies this`state, this`steps, this`pendingConfirmation, this`answeredQuestions, this`ticks, this`blocked,
               this`pageKey, this`triedOnPage, this`scrollsOnPage, this`visit, this`handed, this`skips
      ensures |steps| >= |old(steps)| && skips >= old(skips)
      ensures Leaves(flow, |old(steps)| + old(skips))
      ensures answer.plan.value.taskComplete || answer.plan.value.action.DONE? ==>
        state == COMPLETED && handed == old(handed)
      ensures !answer.plan.value.taskComplete && answer.plan.value.action.ASK? ==>
        (if demo then answeredQuestions == old(answeredQuestions) + 1
          else state == NEEDS_CONFIRMATION && handed == old(handed))
    {
      var plan := answer.plan.value;
      if plan.taskComplete || plan.action.DONE? { flow := Finish(COMPLETED); return; }
      if plan.action.ASK? && demo {
        flow := AnswerForDemo(candidates);
        return;
      }
      if plan.action.ASK? { flow := Pause(); return; }
      flow := Guard(answer, candidates);
    }

    /** A demo never asks: the question counts as answered and the deterministic planner
        takes the step on all controls, or the pass is skipped, at most six times. */
    method AnswerForDemo(candidates: seq<Candidate>) returns (flow: Flow)
      requires Valid(1) && state == RUNNING && !interrupted && |steps| < maxSteps && demo
      modifies this`state, this`steps, this`pendingConfirmation, this`answeredQuestions, this`ticks, this`blocked,
               this`pageKey, this`triedOnPage, this`scrollsOnPage, this`visit, this`handed, this`skips
      ensures |steps| >= |old(steps)| && skips >= old(skips) && answeredQuestions == old(answeredQuestions) + 1
      ensures Leaves(flow, |old(steps)| + old(skips))
    {
      answeredQuestions := answeredQuestions + 1;
      var forced := PlanLocally(world.reading(ticks), candidates);
      if forced.Some? {
        flow := Guard(Answer(forced, Uncounted, ""), candidates);
      } else {
        flow := SkipQuestion();
      }
    }

    /** Nothing to do instead of a question: the pass is free, or it was one too many. */
    method SkipQuestion() returns (flow: Flow)
      requires Valid(1) && state == RUNNING && !interrupted && skips < answeredQuestions
      modifies this`state, this`steps, this`ticks, this`skips
      ensures |steps| >= |old(steps)| && skips >= old(skips)
      ensures Leaves(flow, |old(steps)| + old(skips))
    {
      if answeredQuestions > MAX_SKIPPED_QUESTIONS { flow := Finish(FAILED); return; }
      skips := skips + 1;
      flow := GoOn;
    }

    /** Checks the action, and pauses or performs it. */
    method Guard(answer: Answer, candidates: seq<Candidate>) returns (flow: Flow)
      requires Valid(1) && state == RUNNING && !interrupted && |steps| < maxSteps
      requires answer.plan.Some? && Ready(answer)
      modifies this`state, this`steps, this`pendingConfirmation, this`ticks, this`blocked, this`pageKey,
               this`triedOnPage, this`scrollsOnPage, this`visit, this`handed
      ensures Valid(0) && |steps| == |old(steps)| + 1
      ensures flow in {GoOn, Crashed} ==> state == RUNNING
      ensures flow == Ended ==> state == NEEDS_CONFIRMATION
      ensures Stops(demo, answer.plan.value.safety, FlagsOf(candidates, answer.plan.value.candidateId)) ==>
        handed == old(handed) && flow in {Ended, Interrupted}
      ensures flow == GoOn ==>
        handed == old(handed)
          + [Handed(answer.plan.value, FlagsOf(candidates, answer.plan.value.candidateId), answer.kind, answer.key)]
    {
      var plan := answer.plan.value;
      var flags := FlagsOf(candidates, plan.candidateId);
      if Stops(demo, plan.safety, flags) {
        flow := Pause();
      } else {
        flow := Perform(plan, flags, answer.kind, answer.key);
      }
    }

    /** Drives the run until it pauses or ends; only a cancellation leaves it running. */
    method Drive() returns (cancelled: bool)
      requires Valid(0) && state == RUNNING && !interrupted
      modifies this
      ensures Valid(0)
      ensures !cancelled ==> state != RUNNING && !interrupted
      ensures state == RUNNING ==> interrupted
    {
      var flow := RefreshPage();
      if flow.Interrupted? {
        interrupted := true;
        return true;
      }
      if blocked {
        flow := Finish(FAILED);
        return flow.Interrupted?;
      }
      while state == RUNNING && |steps| < maxSteps
        invariant Valid(0) && !interrupted
        decreases maxSteps - |steps| + MAX_SKIPPED_QUESTIONS - skips
      {
        flow := Pass();
        if !flow.GoOn? {
          cancelled := Leave(flow);
          return;
        }
      }
      if state == RUNNING { flow := Finish(FAILED); }
      cancelled := flow.Interrupted?;
    }

    /** How a pass that does not go on leaves the drive. */
    method Leave(flow: Flow) returns (cancelled: bool)
      requires !interrupted && flow != GoOn
      requires flow == Ended ==> Valid(0) && state != RUNNING
      requires flow == Crashed ==> Valid(1) && state == RUNNING
      requires flow == Interrupted ==> Valid(if state == RUNNING then 1 else 0)
      modifies this`state, this`steps, this`ticks, this`interrupted
      ensures Valid(0)
      ensures !cancelled ==> state != RUNNING && !interrupted
      ensures state == RUNNING ==> interrupted
    {
      match flow {
        case Ended =>
          return false;
        case Crashed =>
          var finishing := Finish(FAILED);
          return finishing.Interrupted?;
        case Interrupted =>
          interrupted := state == RUNNING;
          return true;
      }
    }

    /** Resolves a pause: approval resumes the run, refusal ends it without acting. */
    method Confirm(approved: bool) returns (resumed: bool)
      requires Valid(0)
      modifies this`state, this`pendingConfirmation, this`ticks
      ensures Valid(0)
      ensures old(state) != NEEDS_CONFIRMATION ==> state == old(state) && !resumed
      ensures old(state) == NEEDS_CONFIRMATION ==>
        state == (if approved then RUNNING else STOPPED) && resumed == approved && !interrupted
    {
      if state != NEEDS_CONFIRMATION { return false; }
      pendingConfirmation := false;
      state := if approved then RUNNING else STOPPED;
      var _ := Publish();
      resumed := approved;
    }

    /** Stops a run whose drive was cancelled; a paused or ended run stays as it is. */
    method Stop()
      requires Valid(0)
      modifies this`state, this`ticks
      ensures Valid(0) && state == if old(state) == RUNNING then STOPPED else old(state)
    {
      if state == RUNNING {
        state := STOPPED;
        var _ := Publish();
      }
    }

    /** A whole life: a drive, and after it any number of approvals, refusals and stops, each
        approval of a pause driving on. */
    method Live(decisions: seq<Decision>)
      requires Valid(0) && state == RUNNING && !interrupted
      modifies this
      ensures Numbered() && Scrolled() && Harmless() && Visited()
      ensures state == RUNNING ==> interrupted
      ensures passes <= maxSteps + MAX_SKIPPED_QUESTIONS + 1 && asked <= 2 * passes
    {
      var _ := Drive();
      for i := 0 to |decisions|
        invariant Valid(0) && (state == RUNNING ==> interrupted)
      {
        match decisions[i] {
          case Approve =>
            var resumed := Confirm(true);
            if resumed { var _ := Drive(); }
          case Refuse =>
            var _ := Confirm(false);
          case StopNow =>
            Stop();
        }
      }
    }
  }

  datatype Decision = Approve | Refuse | StopNow
}
