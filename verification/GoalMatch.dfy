/** Comparing the words of the task with the words on the controls of a page: which row of
    a list the task names. Words and labels are already casefolded. */
module GoalMatch {

  datatype Option<+T> = None | Some(value: T)

  datatype Flag = PASSWORD | PAYMENT | IDENTITY_FLAG | BANK | HIDDEN | TOKEN

  /** A control of a page snapshot; `words` are the words of its normalised label. */
  datatype Candidate = Candidate(id: string, name: string, words: seq<string>, role: string, tag: string,
                                 textInput: bool, visible: bool, enabled: bool, flags: set<Flag>)

  /** The task: its words, and those of them it wrote as a name. */
  datatype Goal = Goal(words: seq<string>, names: set<string>)

  predicate MarkedAt(text: string, marker: string, at: int) {
    0 <= at <= |text| - |marker| && text[at..at + |marker|] == marker
  }

  predicate Contains(text: string, marker: string) {
    exists at :: 0 <= at <= |text| && MarkedAt(text, marker, at)
  }

  predicate ContainsAny(text: string, markers: seq<string>) {
    exists i :: 0 <= i < |markers| && Contains(text, markers[i])
  }

  const ACTION_MARKERS: seq<string> := [
    "continue", "next", "start", "begin", "search", "find", "book", "schedule", "add", "join", "check in", "finish",
    "complete", "submit"]

  // ------------------------------------------------------------------ the longest common run

  predicate OccursAt(goal: seq<string>, phrase: seq<string>, at: int) {
    0 <= at <= |goal| - |phrase| && goal[at..at + |phrase|] == phrase
  }

  predicate Occurs(goal: seq<string>, phrase: seq<string>) {
    exists at :: 0 <= at <= |goal| && OccursAt(goal, phrase, at)
  }

  predicate SaidFrom(goal: seq<string>, words: seq<string>, start: int, span: nat) {
    0 <= start <= |words| - span && Occurs(goal, words[start..start + span])
  }

  /** Some run of that many words is common to both. */
  predicate CommonRun(goal: seq<string>, words: seq<string>, span: nat) {
    exists start :: 0 <= start <= |words| && SaidFrom(goal, words, start, span)
  }

  /** The greatest length, up to `bound`, of a run common to both. */
  function LongestUpTo(goal: seq<string>, words: seq<string>, bound: nat): nat {
    if bound == 0 || CommonRun(goal, words, bound) then bound else LongestUpTo(goal, words, bound - 1)
  }

  function LongestRun(goal: seq<string>, words: seq<string>): nat {
    LongestUpTo(goal, words, |words|)
  }

  /** A phrase that is not said has no longer phrase from the same start that is. */
  lemma ShorterOccurs(goal: seq<string>, words: seq<string>, start: int, shorter: nat, longer: nat)
    requires shorter <= longer && SaidFrom(goal, words, start, longer)
    ensures SaidFrom(goal, words, start, shorter)
  {
    var phrase := words[start..start + longer];
    var at :| 0 <= at <= |goal| && OccursAt(goal, phrase, at);
    assert goal[at..at + longer][..shorter] == goal[at..at + shorter];
    assert phrase[..shorter] == words[start..start + shorter];
    assert OccursAt(goal, words[start..start + shorter], at);
  }

  /** The length is attained, and every common run is at most that long. */
  lemma {:induction false} LongestIsAttained(goal: seq<string>, words: seq<string>, bound: nat, span: nat)
    ensures LongestUpTo(goal, words, bound) <= bound
    ensures LongestUpTo(goal, words, bound) > 0 ==> CommonRun(goal, words, LongestUpTo(goal, words, bound))
    ensures span <= bound && CommonRun(goal, words, span) ==> span <= LongestUpTo(goal, words, bound)
    decreases bound
  {
    if bound > 0 && !CommonRun(goal, words, bound) {
      LongestIsAttained(goal, words, bound - 1, span);
    }
  }

  lemma LongestIs(goal: seq<string>, words: seq<string>, longest: nat)
    requires longest > 0 ==> CommonRun(goal, words, longest)
    requires forall start, span :: 0 <= start && span > longest ==> !SaidFrom(goal, words, start, span)
    ensures longest == LongestRun(goal, words)
  {
    LongestIsAttained(goal, words, |words|, longest);
  }

  /** The search with its early break finds the longest common run. */
  method NamedWords(goal: seq<string>, words: seq<string>) returns (longest: nat)
    ensures longest == LongestRun(goal, words)
  {
    longest := 0;
    for start := 0 to |words|
      invariant longest > 0 ==> CommonRun(goal, words, longest)
      invariant forall s, span :: 0 <= s < start && span > longest ==> !SaidFrom(goal, words, s, span)
    {
      longest := LongestFrom(goal, words, start, longest);
    }
    LongestIs(goal, words, longest);
  }

  method LongestFrom(goal: seq<string>, words: seq<string>, start: nat, before: nat) returns (longest: nat)
    requires start < |words| && (before > 0 ==> CommonRun(goal, words, before))
    ensures longest >= before && (longest > 0 ==> CommonRun(goal, words, longest))
    ensures forall span :: span > longest ==> !SaidFrom(goal, words, start, span)
  {
    longest := before;
    for end := start + 1 to |words| + 1
      invariant longest >= before && longest >= end - 1 - start
      invariant longest > 0 ==> CommonRun(goal, words, longest)
    {
      var span := end - start;
      var said := PhraseSaid(goal, words[start..end]);
      if !said {
        forall longer | longer > longest ensures !SaidFrom(goal, words, start, longer) {
          if SaidFrom(goal, words, start, longer) { ShorterOccurs(goal, words, start, span, longer); }
        }
        break;
      }
      assert SaidFrom(goal, words, start, span);
      longest := if span > longest then span else longest;
    }
  }

  method PhraseSaid(goal: seq<string>, phrase: seq<string>) returns (said: bool)
    ensures said <==> Occurs(goal, phrase)
  {
    for at := 0 to (if |goal| >= |phrase| then |goal| - |phrase| + 1 else 0)
      invariant forall a :: 0 <= a < at ==> !OccursAt(goal, phrase, a)
    {
      if goal[at..at + |phrase|] == phrase {
        assert OccursAt(goal, phrase, at);
        return true;
      }
    }
    return false;
  }

  // ------------------------------------------------------------------ the named sibling

  predicate Sibling(chosen: Candidate, c: Candidate) {
    c.visible && c.enabled && c.role == chosen.role && c.tag == chosen.tag
  }

  function Siblings(chosen: Candidate, offered: seq<Candidate>): seq<Candidate>
    decreases |offered|
  {
    if offered == [] then []
    else (if Sibling(chosen, offered[0]) then [offered[0]] else []) + Siblings(chosen, offered[1..])
  }

  /** How many controls carry a word. */
  function Carriers(word: string, controls: seq<Candidate>): nat
    decreases |controls|
  {
    if controls == [] then 0
    else (if word in controls[0].words then 1 else 0) + Carriers(word, controls[1..])
  }

  /** A single word counts when the task wrote it as a name and one sibling alone has it. */
  function Distinctive(goal: Goal, siblings: seq<Candidate>): set<string> {
    set word | word in goal.words && word in goal.names && Carriers(word, siblings) == 1
  }

  function Strength(goal: Goal, distinctive: set<string>, words: seq<string>): nat {
    var run := LongestRun(goal.words, words);
    if run > 1 then run else if exists w :: w in words && w in distinctive then 1 else 0
  }

  /** What a control competes with: its strength, if it may compete at all. */
  function Rating(goal: Goal, chosen: Candidate, distinctive: set<string>, c: Candidate): nat {
    if c.id == chosen.id || !Sibling(chosen, c) then 0 else Strength(goal, distinctive, c.words)
  }

  /** The guards: a label that could name something and names nothing. */
  predicate MayRedirect(goal: Goal, chosen: Candidate, offered: seq<Candidate>) {
    && chosen.name != "" && !ContainsAny(chosen.name, ACTION_MARKERS)
    && Strength(goal, Distinctive(goal, Siblings(chosen, offered)), chosen.words) == 0
  }

  /** The first control of the greatest positive rating among the first `n`. */
  function BestAmong(goal: Goal, chosen: Candidate, distinctive: set<string>, offered: seq<Candidate>,
                     n: nat): Option<nat>
    requires n <= |offered|
  {
    if n == 0 then None
    else
      var best := BestAmong(goal, chosen, distinctive, offered, n - 1);
      var rating := Rating(goal, chosen, distinctive, offered[n - 1]);
      if rating >= 1 &&
        (best.None? || (best.value < |offered| && rating > Rating(goal, chosen, distinctive, offered[best.value])))
      then Some(n - 1)
      else best
  }

  function NamedInGoal(goal: Goal, chosen: Candidate, offered: seq<Candidate>): Option<Candidate> {
    if !MayRedirect(goal, chosen, offered) then None
    else
      var best := BestAmong(goal, chosen, Distinctive(goal, Siblings(chosen, offered)), offered, |offered|);
      if best.Some? && best.value < |offered| then Some(offered[best.value]) else None
  }

  /** The best is the first of the greatest rating, and there is one unless all are zero. */
  lemma {:induction false} BestIsFirstMaximal(goal: Goal, chosen: Candidate, distinctive: set<string>,
                                              offered: seq<Candidate>, n: nat)
    requires n <= |offered|
    ensures var best := BestAmong(goal, chosen, distinctive, offered, n);
      if best.None? then forall j :: 0 <= j < n ==> Rating(goal, chosen, distinctive, offered[j]) == 0
      else
        && best.value < n && Rating(goal, chosen, distinctive, offered[best.value]) >= 1
        && (forall j :: 0 <= j < n ==>
             Rating(goal, chosen, distinctive, offered[j]) <= Rating(goal, chosen, distinctive, offered[best.value]))
        && (forall j :: 0 <= j < best.value ==>
             Rating(goal, chosen, distinctive, offered[j]) < Rating(goal, chosen, distinctive, offered[best.value]))
    decreases n
  {
    if n > 0 { BestIsFirstMaximal(goal, chosen, distinctive, offered, n - 1); }
  }

  /** What a redirect may be: the first of the strongest other rows of the same list, of
      positive strength; there is none exactly when a guard holds or no row is named. */
  lemma {:induction false} RedirectIsOptimal(goal: Goal, chosen: Candidate, offered: seq<Candidate>)
    ensures var distinctive := Distinctive(goal, Siblings(chosen, offered));
      match NamedInGoal(goal, chosen, offered)
      case None => MayRedirect(goal, chosen, offered) ==>
        forall c :: c in offered && c.id != chosen.id && Sibling(chosen, c) ==>
          Strength(goal, distinctive, c.words) == 0
      case Some(named) =>
        && MayRedirect(goal, chosen, offered)
        && named in offered && named.id != chosen.id && Sibling(chosen, named)
        && Strength(goal, distinctive, named.words) >= 1
        && (forall c :: c in offered && c.id != chosen.id && Sibling(chosen, c) ==>
              Strength(goal, distinctive, c.words) <= Strength(goal, distinctive, named.words))
        && exists i :: 0 <= i < |offered| && offered[i] == named
             && forall j :: 0 <= j < i ==>
                  Rating(goal, chosen, distinctive, offered[j]) < Strength(goal, distinctive, named.words)
  {
    var distinctive := Distinctive(goal, Siblings(chosen, offered));
    BestIsFirstMaximal(goal, chosen, distinctive, offered, |offered|);
    forall c | c in offered && c.id != chosen.id && Sibling(chosen, c)
      ensures exists j ::
        0 <= j < |offered| && Rating(goal, chosen, distinctive, offered[j]) == Strength(goal, distinctive, c.words)
    {
      var j :| 0 <= j < |offered| && offered[j] == c;
    }
  }

  lemma {:induction false} SameSiblings(chosen: Candidate, named: Candidate, offered: seq<Candidate>)
    requires named.role == chosen.role && named.tag == chosen.tag
    ensures Siblings(named, offered) == Siblings(chosen, offered)
    decreases |offered|
  {
    if offered != [] { SameSiblings(chosen, named, offered[1..]); }
  }

  /** Redirecting again changes nothing. */
  lemma {:induction false} RedirectIsFixpoint(goal: Goal, chosen: Candidate, offered: seq<Candidate>)
    requires NamedInGoal(goal, chosen, offered).Some?
    ensures NamedInGoal(goal, NamedInGoal(goal, chosen, offered).value, offered) == None
  {
    var named := NamedInGoal(goal, chosen, offered).value;
    RedirectIsOptimal(goal, chosen, offered);
    SameSiblings(chosen, named, offered);
  }

  /** The loops over the offered controls compute it. */
  method FindNamed(goal: Goal, chosen: Candidate, offered: seq<Candidate>) returns (named: Option<Candidate>)
    ensures named == NamedInGoal(goal, chosen, offered)
  {
    if chosen.name == "" || ContainsAny(chosen.name, ACTION_MARKERS) { return None; }
    var distinctive := Distinctive(goal, Siblings(chosen, offered));
    var strength := StrengthOf(goal, distinctive, chosen.words);
    if strength > 0 { return None; }
    var best: Option<nat> := None;
    var most := 0;
    for i := 0 to |offered|
      invariant best == BestAmong(goal, chosen, distinctive, offered, i)
      invariant best.Some? ==> best.value < i && most == Rating(goal, chosen, distinctive, offered[best.value])
    {
      var candidate := offered[i];
      if candidate.id == chosen.id || !Sibling(chosen, candidate) { continue; }
      strength := StrengthOf(goal, distinctive, candidate.words);
      if strength < 1 { continue; }
      if best.None? || strength > most { best, most := Some(i), strength; }
    }
    return if best.Some? then Some(offered[best.value]) else None;
  }

  method StrengthOf(goal: Goal, distinctive: set<string>, words: seq<string>) returns (strength: nat)
    ensures strength == Strength(goal, distinctive, words)
  {
    var run := NamedWords(goal.words, words);
    strength := if run > 1 then run else if exists w :: w in words && w in distinctive then 1 else 0;
  }
}
