/** Repairing one step of a confirmed skill, and the lineage that repeated repairs leave. */
module SkillRepair {

  datatype SkillOutcome = Completed | Prepared

  datatype RepairRecord = RepairRecord(sourceRevision: nat, reason: string)

  /** A step; `body` stands for its instruction, selectors and expected transition. */
  datatype SkillStep = SkillStep(body: string, history: seq<RepairRecord>)

  datatype SkillDocument = SkillDocument(revision: nat, outcome: SkillOutcome, steps: seq<SkillStep>)

  datatype Revised = Revised(skill: SkillDocument) | IndexError

  /** A new document with one step replaced. Whatever history the replacement brings is
      dropped: it inherits the history of the step it replaces, plus this repair. */
  function ReviseOneStep(skill: SkillDocument, stepIndex: nat, replacement: SkillStep, reason: string): Revised {
    if stepIndex >= |skill.steps| then IndexError
    else
      var step := replacement.(history := skill.steps[stepIndex].history + [RepairRecord(skill.revision, reason)]);
      Revised(skill.(revision := skill.revision + 1, steps := skill.steps[stepIndex := step]))
  }

  /** One repair that was asked for. */
  datatype Repair = Repair(stepIndex: nat, replacement: SkillStep, reason: string)

  /** Repairs one after the other; an index past the skill stops the whole run. */
  function RepairAll(skill: SkillDocument, repairs: seq<Repair>): Revised
    decreases |repairs|
  {
    if repairs == [] then Revised(skill)
    else
      var r := ReviseOneStep(skill, repairs[0].stepIndex, repairs[0].replacement, repairs[0].reason);
      if r.IndexError? then r else RepairAll(r.skill, repairs[1..])
  }

  /** One more repair is one more revision. */
  lemma {:induction false} RepairOneMore(skill: SkillDocument, repairs: seq<Repair>, last: Repair)
    requires RepairAll(skill, repairs).Revised?
    ensures RepairAll(skill, repairs + [last])
         == ReviseOneStep(RepairAll(skill, repairs).skill, last.stepIndex, last.replacement, last.reason)
    decreases |repairs|
  {
    if repairs == [] {
      assert [last][1..] == [] && repairs + [last] == [last];
    } else {
      assert (repairs + [last])[1..] == repairs[1..] + [last];
      var first := ReviseOneStep(skill, repairs[0].stepIndex, repairs[0].replacement, repairs[0].reason);
      RepairOneMore(first.skill, repairs[1..], last);
    }
  }

  /** The records that repairs starting at `revision` leave on step `i`. */
  function RecordsOf(repairs: seq<Repair>, revision: nat, i: nat): seq<RepairRecord>
    decreases |repairs|
  {
    if repairs == [] then []
    else
      (if repairs[0].stepIndex == i then [RepairRecord(revision, repairs[0].reason)] else [])
      + RecordsOf(repairs[1..], revision + 1, i)
  }

  /** The body step `i` has in the end: that of its last repair, or its own. */
  function BodyAfter(repairs: seq<Repair>, i: nat, body: string): string
    decreases |repairs|
  {
    if repairs == [] then body
    else BodyAfter(repairs[1..], i, if repairs[0].stepIndex == i then repairs[0].replacement.body else body)
  }

  /** Each history has strictly increasing source revisions below the document's own. */
  ghost predicate Dated(skill: SkillDocument) {
    forall i :: 0 <= i < |skill.steps| ==> Ascending(skill.steps[i].history, 0, skill.revision)
  }

  ghost predicate Ascending(history: seq<RepairRecord>, low: nat, high: nat) {
    && (forall a, b :: 0 <= a < b < |history| ==> history[a].sourceRevision < history[b].sourceRevision)
    && (forall a :: 0 <= a < |history| ==> low <= history[a].sourceRevision < high)
  }

  /** What k repairs leave behind, exactly: the revision k higher, as many steps, and on
      each step the body of its last repair and one record for each of its repairs. They
      fail exactly when one of the indices is past the skill. */
  lemma {:induction false} Lineage(skill: SkillDocument, repairs: seq<Repair>)
    ensures RepairAll(skill, repairs).IndexError? <==> exists r :: r in repairs && r.stepIndex >= |skill.steps|
    ensures RepairAll(skill, repairs).Revised? ==> Inherits(skill, repairs, RepairAll(skill, repairs).skill)
    decreases |repairs|
  {
    if repairs != [] {
      assert repairs == [repairs[0]] + repairs[1..];
      var r := ReviseOneStep(skill, repairs[0].stepIndex, repairs[0].replacement, repairs[0].reason);
      if r.Revised? {
        Lineage(r.skill, repairs[1..]);
        if RepairAll(skill, repairs).Revised? {
          InheritFirst(skill, repairs, r.skill, RepairAll(skill, repairs).skill);
        }
      }
    }
  }

  ghost predicate Inherits(skill: SkillDocument, repairs: seq<Repair>, after: SkillDocument) {
    && after.revision == skill.revision + |repairs|
    && after.outcome == skill.outcome
    && |after.steps| == |skill.steps|
    && forall i :: 0 <= i < |skill.steps| ==> InheritsStep(skill, repairs, after, i)
  }

  ghost predicate InheritsStep(skill: SkillDocument, repairs: seq<Repair>, after: SkillDocument, i: nat)
    requires i < |skill.steps| == |after.steps|
  {
    && after.steps[i].history == skill.steps[i].history + RecordsOf(repairs, skill.revision, i)
    && after.steps[i].body == BodyAfter(repairs, i, skill.steps[i].body)
  }

  lemma InheritFirst(skill: SkillDocument, repairs: seq<Repair>, revised: SkillDocument, after: SkillDocument)
    requires repairs != []
    requires ReviseOneStep(skill, repairs[0].stepIndex, repairs[0].replacement, repairs[0].reason) == Revised(revised)
    requires Inherits(revised, repairs[1..], after)
    ensures Inherits(skill, repairs, after)
  {
    forall i | 0 <= i < |skill.steps| ensures InheritsStep(skill, repairs, after, i) {
      assert InheritsStep(revised, repairs[1..], after, i);
      var later := RecordsOf(repairs[1..], skill.revision + 1, i);
      if repairs[0].stepIndex == i {
        Regroup(skill.steps[i].history, RepairRecord(skill.revision, repairs[0].reason), later);
      } else {
        assert [] + later == later;
      }
    }
  }

  lemma Regroup(history: seq<RepairRecord>, record: RepairRecord, later: seq<RepairRecord>)
    ensures (history + [record]) + later == history + ([record] + later)
  {
  }

  lemma {:induction false} RecordsAscend(repairs: seq<Repair>, revision: nat, i: nat)
    ensures Ascending(RecordsOf(repairs, revision, i), revision, revision + |repairs|)
    decreases |repairs|
  {
    if repairs != [] { RecordsAscend(repairs[1..], revision + 1, i); }
  }

  /** Any number of repairs keeps every history in order. */
  lemma RepairsKeepDates(skill: SkillDocument, repairs: seq<Repair>)
    requires Dated(skill) && RepairAll(skill, repairs).Revised?
    ensures Dated(RepairAll(skill, repairs).skill)
  {
    Lineage(skill, repairs);
    var after := RepairAll(skill, repairs).skill;
    forall i | 0 <= i < |skill.steps| ensures Ascending(after.steps[i].history, 0, after.revision) {
      assert InheritsStep(skill, repairs, after, i);
      RecordsAscend(repairs, skill.revision, i);
    }
  }

  lemma {:induction false} Unrepaired(repairs: seq<Repair>, revision: nat, i: nat, body: string)
    requires forall r :: r in repairs ==> r.stepIndex != i
    ensures RecordsOf(repairs, revision, i) == [] && BodyAfter(repairs, i, body) == body
    decreases |repairs|
  {
    if repairs != [] {
      assert repairs[0] in repairs;
      Unrepaired(repairs[1..], revision + 1, i, body);
    }
  }

  /** A step that no repair named is the same step. */
  lemma UntouchedSteps(skill: SkillDocument, repairs: seq<Repair>, i: nat)
    requires RepairAll(skill, repairs).Revised? && i < |skill.steps|
    requires forall r :: r in repairs ==> r.stepIndex != i
    ensures |RepairAll(skill, repairs).skill.steps| == |skill.steps|
    ensures RepairAll(skill, repairs).skill.steps[i] == skill.steps[i]
  {
    Lineage(skill, repairs);
    assert InheritsStep(skill, repairs, RepairAll(skill, repairs).skill, i);
    Unrepaired(repairs, skill.revision, i, skill.steps[i].body);
  }
}
