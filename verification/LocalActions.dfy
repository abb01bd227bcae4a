/** Plans and the deterministic planner that picks a control without asking a model. */
module LocalActions {
  import opened GoalMatch

  datatype Safety = SAFE | MONEY | IDENTITY | DELETION | SUSPICIOUS | UNKNOWN

  datatype Action = CLICK | FILL | SELECT | CHECK | PRESS | NAVIGATE | SCROLL | WAIT | DONE | ASK

  /** An empty id, value or address stands for none. */
  datatype Plan = Plan(action: Action, candidateId: string, value: string, url: string, narration: string,
                       safety: Safety, taskComplete: bool)

  const STOPPING_FLAGS: set<Flag> := {PASSWORD, PAYMENT, BANK}

  const COMPLETE_MARKERS: seq<string> := ["task complete", "success", "all done", "finished"]
  const LOW_VALUE_MARKERS: seq<string> := [
    "sign in", "log in", "cookie", "privacy", "terms", "menu", "account", "help", "search form", "site search",
    "translate", "feedback", "skip to", "newsletter", "subscribe", "download the app"]
  const MONEY_MARKERS: seq<string> := ["pay", "purchase", "place order", "checkout"]
  const IDENTITY_MARKERS: seq<string> := ["passport", "social security", "driver license"]
  const DELETION_MARKERS: seq<string> := ["delete", "erase", "remove permanently"]
  const IGNORED_WORDS: set<string> := {"and", "for", "from", "into", "the", "this", "that", "with", "your"}

  /** What a control does, from its flags and its name. */
  function CandidateSafety(c: Candidate): Safety {
    if PAYMENT in c.flags || BANK in c.flags || ContainsAny(c.name, MONEY_MARKERS) then MONEY
    else if IDENTITY_FLAG in c.flags || ContainsAny(c.name, IDENTITY_MARKERS) then IDENTITY
    else if ContainsAny(c.name, DELETION_MARKERS) then DELETION
    else SAFE
  }

  function Significant(words: seq<string>): set<string> {
    set w | w in words && |w| > 2 && w !in IGNORED_WORDS
  }

  function CountMarkers(text: string, markers: seq<string>): nat
    decreases |markers|
  {
    if markers == [] then 0 else (if Contains(text, markers[0]) then 1 else 0) + CountMarkers(text, markers[1..])
  }

  /** What the planner reads from the task and the narration so far: the value the task
      states outright for a field, its words, and the recent history as one text. */
  datatype Reading = Reading(title: string, explicit: Candidate -> Option<string>, promptTokens: set<string>,
                             history: string)

  predicate Clickable(c: Candidate) {
    && c.visible && c.enabled && c.flags * STOPPING_FLAGS == {} && c.name != ""
    && (c.role in {"button", "link", "tab", "menuitem"} || c.tag in {"a", "button", "summary"})
  }

  function Score(r: Reading, c: Candidate): int {
    5 * |r.promptTokens * Significant(c.words)| + 3 * CountMarkers(c.name, ACTION_MARKERS)
    - 8 * CountMarkers(c.name, LOW_VALUE_MARKERS) - (if Contains(r.history, c.name) then 2 else 0)
  }

  /** How the planner rates a control for a click: not at all unless it may be clicked. */
  function Ratings(r: Reading): Candidate -> Option<int> {
    (c: Candidate) => if Clickable(c) then Some(Score(r, c)) else None
  }

  /** The value the task states outright for a field that can take it. */
  function Stated(r: Reading): Candidate -> Option<string> {
    (c: Candidate) => if c.visible && c.enabled then r.explicit(c) else None
  }

  /** The planner's choice: done, or the first field whose value the task states, or the
      first of the best clickable controls, if it scores at least two. */
  ghost predicate Chooses(r: Reading, candidates: seq<Candidate>, plan: Option<Plan>) {
    if ContainsAny(r.title, COMPLETE_MARKERS) then plan == Some(DonePlan())
    else ChoosesControl(Stated(r), Ratings(r), candidates, plan)
  }

  ghost predicate ChoosesControl(stated: Candidate -> Option<string>, rate: Candidate -> Option<int>,
                                 candidates: seq<Candidate>,
                                 plan: Option<Plan>)
  {
    if exists c :: c in candidates && stated(c).Some? then
      exists i :: 0 <= i < |candidates| && FirstStated(stated, candidates, i)
        && plan == Some(FillPlan(candidates[i], stated(candidates[i]).value))
    else if exists c :: c in candidates && rate(c).Some? && rate(c).value >= 2 then
      exists i :: 0 <= i < |candidates| && FirstBest(rate, candidates, |candidates|, i) &&
        plan == Some(ClickPlan(candidates[i]))
    else plan.None?
  }

  ghost predicate FirstStated(stated: Candidate -> Option<string>, candidates: seq<Candidate>, i: nat) {
    i < |candidates| && stated(candidates[i]).Some? && forall j :: 0 <= j < i ==> stated(candidates[j]).None?
  }

  /** Control `i` is rated, none of the first `n` higher and none before it as high. */
  ghost predicate FirstBest(rate: Candidate -> Option<int>, candidates: seq<Candidate>, n: nat, i: nat)
    requires n <= |candidates|
  {
    && i < n && rate(candidates[i]).Some?
    && (forall j :: 0 <= j < n && rate(candidates[j]).Some? ==> rate(candidates[j]).value <= rate(candidates[i]).value)
    && (forall j :: 0 <= j < i && rate(candidates[j]).Some? ==> rate(candidates[j]).value < rate(candidates[i]).value)
  }

  function DonePlan(): Plan {
    Plan(DONE, "", "", "", "The task is complete.", SAFE, true)
  }

  function FillPlan(c: Candidate, value: string): Plan {
    Plan(FILL, c.id, value, "", "Entering " + (if c.name != "" then c.name else "the requested information") + ".",
      CandidateSafety(c), false)
  }

  function ClickPlan(c: Candidate): Plan {
    Plan(CLICK, c.id, "", "", "Choosing " + c.name + ".", CandidateSafety(c), false)
  }

  /** The deterministic planner; it only ever finishes, fills or clicks. */
  method PlanLocally(r: Reading, candidates: seq<Candidate>) returns (plan: Option<Plan>)
    ensures Chooses(r, candidates, plan)
    ensures plan.Some? ==> LocalPlan(plan.value, candidates)
  {
    if ContainsAny(r.title, COMPLETE_MARKERS) { return Some(DonePlan()); }
    plan := PickControl(Stated(r), Ratings(r), candidates);
  }

  /** A plan of this planner names a control of the page, and is classified by it. */
  ghost predicate LocalPlan(plan: Plan, candidates: seq<Candidate>) {
    if plan.taskComplete then plan.action.DONE?
    else plan.action in {FILL, CLICK} && exists c ::
      c in candidates && c.id == plan.candidateId && plan.safety == CandidateSafety(c)
  }

  method PickControl(stated: Candidate -> Option<string>, rate: Candidate -> Option<int>, candidates: seq<Candidate>)
      returns (plan: Option<Plan>)
    ensures ChoosesControl(stated, rate, candidates, plan)
    ensures plan.Some? ==> LocalPlan(plan.value, candidates)
  {
    var field := StatedField(stated, candidates);
    if field.Some? {
      assert candidates[field.value] in candidates;
      return Some(FillPlan(candidates[field.value], stated(candidates[field.value]).value));
    }
    var best := BestClick(rate, candidates);
    if best.None? || rate(candidates[best.value]).value < 2 { return None; }
    assert candidates[best.value] in candidates;
    plan := Some(ClickPlan(candidates[best.value]));
  }

  method StatedField(stated: Candidate -> Option<string>, candidates: seq<Candidate>) returns (field: Option<nat>)
    ensures field.None? ==> forall c :: c in candidates ==> stated(c).None?
    ensures field.Some? ==> FirstStated(stated, candidates, field.value)
  {
    for i := 0 to |candidates|
      invariant forall j :: 0 <= j < i ==> stated(candidates[j]).None?
    {
      if stated(candidates[i]).Some? { return Some(i); }
    }
    return None;
  }

  method BestClick(rate: Candidate -> Option<int>, candidates: seq<Candidate>) returns (best: Option<nat>)
    ensures best.None? ==> forall c :: c in candidates ==> rate(c).None?
    ensures best.Some? ==> FirstBest(rate, candidates, |candidates|, best.value)
  {
    best := None;
    for i := 0 to |candidates|
      invariant best.None? ==> forall j :: 0 <= j < i ==> rate(candidates[j]).None?
      invariant best.Some? ==> FirstBest(rate, candidates, i, best.value)
    {
      var rating := rate(candidates[i]);
      if rating.Some? && (best.None? || rating.value > rate(candidates[best.value]).value) { best := Some(i); }
    }
  }
}
