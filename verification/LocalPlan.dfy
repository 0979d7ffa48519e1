/** A worker's local plan, rebuilt from its plan events. */
module LocalPlans {
  import opened Contracts

  type StepId = Text
  type Reference = Text

  datatype StepStatus = StepPending | StepRunning | StepCompleted | StepCancelled | StepSuperseded

  datatype PlanStep = PlanStep(stepId: StepId, description: Text, status: StepStatus, evidence: seq<Reference>)

  datatype EventKind = PlanCreated | PlanRevised | StepStarted | StepDone | StepDropped | StepReplaced

  datatype PlanEvent = PlanEvent(kind: EventKind, steps: seq<PlanStep>, stepId: Option<StepId>, evidence: seq<Reference>)

  datatype LocalPlan = LocalPlan(version: nat, steps: seq<PlanStep>)

  datatype PlanError =
    | InvalidPayload
    | CreatedTwice
    | NotCreated
    | UnknownStep(stepId: StepId)
    | CannotStart(stepId: StepId)
    | CannotComplete(stepId: StepId)

  datatype Outcome = Reduced(plan: LocalPlan) | Refused(error: PlanError)

  const EMPTY_PLAN := LocalPlan(0, [])

  function Ids(steps: seq<PlanStep>): set<StepId> {
    set step | step in steps :: step.stepId
  }

  ghost predicate DistinctSteps(steps: seq<PlanStep>) {
    forall i, j | 0 <= i < j < |steps| :: steps[i].stepId != steps[j].stepId
  }

  predicate Repeated(steps: seq<PlanStep>) {
    exists i, j | 0 <= i < |steps| && 0 <= j < |steps| :: i < j && steps[i].stepId == steps[j].stepId
  }

  predicate ValidPayload(e: PlanEvent) {
    && (if e.kind.PlanCreated? || e.kind.PlanRevised?
        then e.steps != [] && e.stepId.None? && !Repeated(e.steps)
        else e.stepId.Some?)
    && (e.evidence != [] ==> e.kind.StepDone?)
  }

  function Fresh(step: PlanStep): PlanStep {
    PlanStep(step.stepId, step.description, StepPending, [])
  }

  function FreshAll(steps: seq<PlanStep>): (made: seq<PlanStep>)
    ensures |made| == |steps| && forall i | 0 <= i < |steps| :: made[i] == Fresh(steps[i])
  {
    seq(|steps|, i requires 0 <= i < |steps| => Fresh(steps[i]))
  }

  // ---- lookups ----

  function IndexOf(steps: seq<PlanStep>, id: StepId): (index: Option<nat>)
    ensures index.Some? ==> index.value < |steps| && steps[index.value].stepId == id
    ensures index.None? <==> id !in Ids(steps)
  {
    if steps == [] then None
    else if steps[0].stepId == id then Some(0)
    else
      var rest := IndexOf(steps[1..], id);
      assert Ids(steps) == {steps[0].stepId} + Ids(steps[1..]);
      if rest.Some? then Some(rest.value + 1) else None
  }

  function StepFor(steps: seq<PlanStep>, id: StepId): (step: PlanStep)
    requires id in Ids(steps)
    ensures step in steps && step.stepId == id
  {
    steps[IndexOf(steps, id).value]
  }

  // ---- revision ----

  /** A requested step keeps the history of the step it names. */
  function Requested(steps: seq<PlanStep>, requested: PlanStep): PlanStep {
    if requested.stepId in Ids(steps) then StepFor(steps, requested.stepId).(description := requested.description)
    else Fresh(requested)
  }

  function RequestedAll(steps: seq<PlanStep>, requested: seq<PlanStep>): (kept: seq<PlanStep>)
    ensures |kept| == |requested| && forall i | 0 <= i < |requested| :: kept[i] == Requested(steps, requested[i])
  {
    seq(|requested|, i requires 0 <= i < |requested| => Requested(steps, requested[i]))
  }

  function Retired(step: PlanStep): PlanStep {
    step.(status := if step.status.StepCancelled? then StepCancelled else StepSuperseded)
  }

  /** Steps the revision no longer names are kept, in their order, as cancelled or superseded. */
  function RetiredAll(steps: seq<PlanStep>, requested: set<StepId>): (retired: seq<PlanStep>)
    ensures forall r :: r in retired <==> exists step :: step in steps && step.stepId !in requested && r == Retired(step)
  {
    if steps == [] then []
    else
      var last := steps[|steps| - 1];
      var front := RetiredAll(steps[..|steps| - 1], requested);
      assert steps == steps[..|steps| - 1] + [last];
      if last.stepId in requested then front else front + [Retired(last)]
  }

  function Revised(plan: LocalPlan, requested: seq<PlanStep>): LocalPlan {
    LocalPlan(plan.version + 1, RequestedAll(plan.steps, requested) + RetiredAll(plan.steps, Ids(requested)))
  }

  // ---- step events ----

  /** `dict.fromkeys`: first occurrences, in order. */
  function Dedup(refs: seq<Reference>): (unique: seq<Reference>)
    ensures forall r :: r in unique <==> r in refs
  {
    if refs == [] then []
    else
      var front := Dedup(refs[..|refs| - 1]);
      assert refs == refs[..|refs| - 1] + [refs[|refs| - 1]];
      if refs[|refs| - 1] in front then front else front + [refs[|refs| - 1]]
  }

  datatype StepOutcome = StepMoved(step: PlanStep) | StepRefused(error: PlanError)

  function Moved(step: PlanStep, e: PlanEvent): StepOutcome {
    match e.kind
    case StepStarted =>
      if step.status.StepPending? || step.status.StepRunning? then StepMoved(step.(status := StepRunning))
      else StepRefused(CannotStart(step.stepId))
    case StepDone =>
      if step.status.StepCancelled? || step.status.StepSuperseded? then StepRefused(CannotComplete(step.stepId))
      else StepMoved(step.(status := StepCompleted, evidence := Dedup(step.evidence + e.evidence)))
    case StepDropped => StepMoved(step.(status := StepCancelled))
    case _ => StepMoved(step.(status := StepSuperseded))
  }

  function StepApplied(plan: LocalPlan, e: PlanEvent): Outcome
    requires e.stepId.Some?
  {
    match IndexOf(plan.steps, e.stepId.value)
    case None => Refused(UnknownStep(e.stepId.value))
    case Some(i) =>
      match Moved(plan.steps[i], e)
      case StepRefused(error) => Refused(error)
      case StepMoved(step) => Reduced(plan.(steps := plan.steps[i := step]))
  }

  function Applied(plan: LocalPlan, e: PlanEvent): Outcome {
    if !ValidPayload(e) then Refused(InvalidPayload)
    else if e.kind.PlanCreated? then
      if plan.version != 0 then Refused(CreatedTwice) else Reduced(LocalPlan(1, FreshAll(e.steps)))
    else if plan.version == 0 then Refused(NotCreated)
    else if e.kind.PlanRevised? then Reduced(Revised(plan, e.steps))
    else StepApplied(plan, e)
  }

  function Reduce(events: seq<PlanEvent>): Outcome {
    if events == [] then Reduced(EMPTY_PLAN)
    else
      match Reduce(events[..|events| - 1])
      case Refused(error) => Refused(error)
      case Reduced(plan) => Applied(plan, events[|events| - 1])
  }

  // ---- what every accepted history keeps ----

  predicate IsInactive(status: StepStatus) {
    status.StepCancelled? || status.StepSuperseded?
  }

  ghost predicate NoRepeats(refs: seq<Reference>) {
    forall i, j | 0 <= i < j < |refs| :: refs[i] != refs[j]
  }

  ghost predicate PlanOk(plan: LocalPlan) {
    && DistinctSteps(plan.steps)
    && (forall step | step in plan.steps :: NoRepeats(step.evidence))
    && (plan.version == 0 ==> plan.steps == [])
  }

  /** A later form of one step: its evidence is extended and a step given up stays given up. */
  ghost predicate StepAdvances(before: PlanStep, after: PlanStep) {
    && after.stepId == before.stepId
    && before.evidence <= after.evidence
    && (IsInactive(before.status) ==> IsInactive(after.status))
  }

  ghost predicate Advances(before: LocalPlan, after: LocalPlan) {
    && before.version <= after.version
    && forall step | step in before.steps :: exists later :: later in after.steps && StepAdvances(step, later)
  }

  lemma {:induction false} IndexOfDistinct(steps: seq<PlanStep>, i: nat)
    requires DistinctSteps(steps) && i < |steps|
    ensures IndexOf(steps, steps[i].stepId) == Some(i)
  {
    if i > 0 {
      assert steps[0].stepId != steps[i].stepId;
      IndexOfDistinct(steps[1..], i - 1);
    }
  }

  lemma {:induction false} DedupHasNoRepeats(refs: seq<Reference>)
    ensures NoRepeats(Dedup(refs))
  {
    if refs != [] {
      DedupHasNoRepeats(refs[..|refs| - 1]);
    }
  }

  lemma {:induction false} DedupExtends(known: seq<Reference>, added: seq<Reference>)
    requires NoRepeats(known)
    ensures known <= Dedup(known + added)
    decreases |known| + |added|
  {
    if added != [] {
      DedupExtends(known, added[..|added| - 1]);
      assert (known + added)[..|known| + |added| - 1] == known + added[..|added| - 1];
    } else if known != [] {
      assert known + added == known;
      DedupExtends(known[..|known| - 1], []);
      assert known[..|known| - 1] + [] == known[..|known| - 1];
      DedupOfDistinct(known);
    }
  }

  lemma {:induction false} DedupOfDistinct(refs: seq<Reference>)
    requires NoRepeats(refs)
    ensures Dedup(refs) == refs
  {
    if refs != [] {
      DedupOfDistinct(refs[..|refs| - 1]);
    }
  }

  // -- step events

  lemma MovedAdvances(step: PlanStep, e: PlanEvent)
    requires NoRepeats(step.evidence) && Moved(step, e).StepMoved?
    ensures StepAdvances(step, Moved(step, e).step) && NoRepeats(Moved(step, e).step.evidence)
    ensures IsInactive(step.status) ==> !e.kind.StepStarted? && !e.kind.StepDone?
  {
    DedupHasNoRepeats(step.evidence + e.evidence);
    DedupExtends(step.evidence, e.evidence);
  }

  lemma StepAppliedKeeps(plan: LocalPlan, e: PlanEvent)
    requires PlanOk(plan) && e.stepId.Some? && StepApplied(plan, e).Reduced?
    ensures PlanOk(StepApplied(plan, e).plan) && Advances(plan, StepApplied(plan, e).plan)
  {
    hide IndexOf, Moved, StepAdvances, NoRepeats;
    var i := IndexOf(plan.steps, e.stepId.value).value;
    var after := StepApplied(plan, e).plan;
    MovedAdvances(plan.steps[i], e);
    MovedKeepsId(plan.steps[i], e);
    forall step | step in plan.steps
      ensures exists later :: later in after.steps && StepAdvances(step, later)
    {
      var j :| 0 <= j < |plan.steps| && plan.steps[j] == step;
      StepStays(step);
      assert after.steps[j] in after.steps && StepAdvances(step, after.steps[j]);
    }
  }

  lemma MovedKeepsId(step: PlanStep, e: PlanEvent)
    requires Moved(step, e).StepMoved?
    ensures Moved(step, e).step.stepId == step.stepId
  {}

  lemma StepStays(step: PlanStep)
    ensures StepAdvances(step, step)
  {}

  // -- revisions

  lemma {:induction false} RetiredIdsAreDistinct(steps: seq<PlanStep>, requested: set<StepId>)
    requires DistinctSteps(steps)
    ensures DistinctSteps(RetiredAll(steps, requested))
    ensures forall r | r in RetiredAll(steps, requested) :: r.stepId in Ids(steps) && r.stepId !in requested
  {
    if steps != [] {
      var last := steps[|steps| - 1];
      var front := steps[..|steps| - 1];
      RetiredIdsAreDistinct(front, requested);
      forall step | step in front
        ensures step.stepId != last.stepId && step.stepId in Ids(steps)
      {
        var i :| 0 <= i < |front| && front[i] == step;
        assert steps[i].stepId != steps[|steps| - 1].stepId && steps[i] in steps;
      }
      assert last in steps;
    }
  }

  lemma RevisedIsDistinct(plan: LocalPlan, requested: seq<PlanStep>)
    requires DistinctSteps(plan.steps) && !Repeated(requested)
    ensures DistinctSteps(Revised(plan, requested).steps)
  {
    hide RetiredAll;
    var kept, retired := RequestedAll(plan.steps, requested), RetiredAll(plan.steps, Ids(requested));
    RetiredIdsAreDistinct(plan.steps, Ids(requested));
    forall i, j | 0 <= i < |requested| && 0 <= j < |retired|
      ensures kept[i].stepId != retired[j].stepId
    {
      assert requested[i] in requested && retired[j] in retired;
    }
  }

  lemma RevisedKeepsEvidence(plan: LocalPlan, requested: seq<PlanStep>)
    requires PlanOk(plan)
    ensures forall step | step in Revised(plan, requested).steps :: NoRepeats(step.evidence)
  {
    hide DistinctSteps, NoRepeats;
    NothingRepeats();
    forall step | step in Revised(plan, requested).steps
      ensures NoRepeats(step.evidence)
    {
      if step in RequestedAll(plan.steps, requested) {
        var i :| 0 <= i < |requested| && step == Requested(plan.steps, requested[i]);
      } else {
        assert step in RetiredAll(plan.steps, Ids(requested));
      }
    }
  }

  lemma NothingRepeats()
    ensures NoRepeats([])
  {}

  lemma RevisedAdvances(plan: LocalPlan, requested: seq<PlanStep>)
    requires PlanOk(plan)
    ensures Advances(plan, Revised(plan, requested))
  {
    hide NoRepeats;
    var after := Revised(plan, requested);
    forall step | step in plan.steps
      ensures exists later :: later in after.steps && StepAdvances(step, later)
    {
      if step.stepId in Ids(requested) {
        var i :| 0 <= i < |requested| && requested[i].stepId == step.stepId;
        StepForFinds(plan.steps, step);
        assert after.steps[i] == Requested(plan.steps, requested[i]);
        assert after.steps[i] in after.steps && StepAdvances(step, after.steps[i]);
      } else {
        assert Retired(step) in RetiredAll(plan.steps, Ids(requested));
        assert Retired(step) in after.steps && StepAdvances(step, Retired(step));
      }
    }
  }

  lemma StepForFinds(steps: seq<PlanStep>, step: PlanStep)
    requires DistinctSteps(steps) && step in steps
    ensures step.stepId in Ids(steps) && StepFor(steps, step.stepId) == step
  {
    var i :| 0 <= i < |steps| && steps[i] == step;
    IndexOfDistinct(steps, i);
  }

  lemma CreatedIsOk(steps: seq<PlanStep>)
    requires !Repeated(steps)
    ensures PlanOk(LocalPlan(1, FreshAll(steps)))
  {}

  lemma AppliedKeeps(plan: LocalPlan, e: PlanEvent)
    requires PlanOk(plan) && Applied(plan, e).Reduced?
    ensures PlanOk(Applied(plan, e).plan) && Advances(plan, Applied(plan, e).plan)
    ensures Applied(plan, e).plan.version == plan.version + (if e.kind.PlanCreated? || e.kind.PlanRevised? then 1 else 0)
    ensures Applied(plan, e).plan.version > 0
  {
    hide Revised, StepApplied, FreshAll, DistinctSteps, NoRepeats, Repeated;
    if e.kind.PlanCreated? {
      CreatedIsOk(e.steps);
    } else if e.kind.PlanRevised? {
      RevisedIsDistinct(plan, e.steps);
      RevisedKeepsEvidence(plan, e.steps);
      RevisedAdvances(plan, e.steps);
      RevisedVersion(plan, e.steps);
    } else {
      StepAppliedKeeps(plan, e);
      StepAppliedVersion(plan, e);
    }
  }

  lemma RevisedVersion(plan: LocalPlan, requested: seq<PlanStep>)
    ensures Revised(plan, requested).version == plan.version + 1
  {}

  lemma StepAppliedVersion(plan: LocalPlan, e: PlanEvent)
    requires e.stepId.Some? && StepApplied(plan, e).Reduced?
    ensures StepApplied(plan, e).plan.version == plan.version
  {}

  // ---- whole histories ----

  function Revisions(events: seq<PlanEvent>): nat {
    if events == [] then 0 else Revisions(events[..|events| - 1]) + (if events[|events| - 1].kind.PlanRevised? then 1 else 0)
  }

  lemma AdvancesFromItself(plan: LocalPlan)
    ensures Advances(plan, plan)
  {
    forall step | step in plan.steps
      ensures exists later :: later in plan.steps && StepAdvances(step, later)
    {
      assert StepAdvances(step, step);
    }
  }

  lemma AdvancesTwice(a: LocalPlan, b: LocalPlan, c: LocalPlan)
    requires Advances(a, b) && Advances(b, c)
    ensures Advances(a, c)
  {
    forall step | step in a.steps
      ensures exists later :: later in c.steps && StepAdvances(step, later)
    {
      var middle :| middle in b.steps && StepAdvances(step, middle);
      var later :| later in c.steps && StepAdvances(middle, later);
      assert StepAdvances(step, later);
    }
  }

  /** Version one with creation, then one more for each revision; step ids stay unique. */
  lemma {:induction false} VersionCountsRevisions(events: seq<PlanEvent>)
    requires Reduce(events).Reduced?
    ensures PlanOk(Reduce(events).plan)
    ensures Reduce(events).plan.version == if events == [] then 0 else 1 + Revisions(events)
  {
    hide PlanOk, Applied;
    EmptyPlanOk();
    if events != [] {
      var last := |events| - 1;
      VersionCountsRevisions(events[..last]);
      AppliedKeeps(Reduce(events[..last]).plan, events[last]);
      OnlyCreationFollowsNothing(Reduce(events[..last]).plan, events[last]);
      if last == 0 {
        assert events[..0] == [];
      }
    }
  }

  lemma EmptyPlanOk()
    ensures PlanOk(EMPTY_PLAN)
  {}

  lemma OnlyCreationFollowsNothing(plan: LocalPlan, e: PlanEvent)
    requires Applied(plan, e).Reduced?
    ensures plan.version == 0 <==> e.kind.PlanCreated?
  {}

  /**
    Over every accepted history: no step disappears, evidence is only added to, and a step that was
    cancelled or superseded is so ever after.
   */
  lemma {:induction false} HistoryAdvances(events: seq<PlanEvent>, n: nat)
    requires n <= |events| && Reduce(events).Reduced?
    ensures Reduce(events[..n]).Reduced? && Advances(Reduce(events[..n]).plan, Reduce(events).plan)
    decreases |events|
  {
    hide Advances, Applied;
    if n == |events| {
      assert events[..n] == events;
      AdvancesFromItself(Reduce(events).plan);
    } else {
      var last := |events| - 1;
      HistoryAdvances(events[..last], n);
      assert events[..last][..n] == events[..n];
      VersionCountsRevisions(events[..last]);
      AppliedKeeps(Reduce(events[..last]).plan, events[last]);
      AdvancesTwice(Reduce(events[..n]).plan, Reduce(events[..last]).plan, Reduce(events).plan);
    }
  }

  /** No accepted event starts or completes a step that has been given up. */
  lemma InactiveStepIsNotRevived(plan: LocalPlan, e: PlanEvent, i: nat)
    requires PlanOk(plan) && i < |plan.steps| && (plan.steps[i].status == StepCancelled || plan.steps[i].status == StepSuperseded)
    requires e.stepId == Some(plan.steps[i].stepId) && (e.kind.StepStarted? || e.kind.StepDone?)
    ensures Applied(plan, e).Refused?
  {
    IndexOfDistinct(plan.steps, i);
  }

  // ---- the reducer as it runs ----

  /** Rebinds the plan event by event and stops at the first refused one. */
  method ReducePlan(events: seq<PlanEvent>) returns (outcome: Outcome)
    ensures outcome == Reduce(events)
  {
    hide Applied;
    var plan := EMPTY_PLAN;
    for i := 0 to |events|
      invariant Reduce(events[..i]) == Reduced(plan)
      invariant PlanOk(plan)
    {
      assert events[..i + 1][..i] == events[..i];
      var next := ApplyEvent(plan, events[i]);
      if next.Refused? {
        RefusalStays(events, i + 1);
        return next;
      }
      AppliedKeeps(plan, events[i]);
      plan := next.plan;
    }
    assert events[..|events|] == events;
    return Reduced(plan);
  }

  lemma {:induction false} RefusalStays(events: seq<PlanEvent>, n: nat)
    requires n <= |events| && Reduce(events[..n]).Refused?
    ensures Reduce(events) == Reduce(events[..n])
    decreases |events| - n
  {
    if n == |events| {
      assert events[..n] == events;
    } else {
      assert events[..n + 1][..n] == events[..n];
      RefusalStays(events, n + 1);
    }
  }

  method ApplyEvent(plan: LocalPlan, e: PlanEvent) returns (outcome: Outcome)
    requires PlanOk(plan)
    ensures outcome == Applied(plan, e)
  {
    hide Revised, StepApplied;
    if !ValidPayload(e) {
      return Refused(InvalidPayload);
    }
    if e.kind.PlanCreated? {
      return if plan.version != 0 then Refused(CreatedTwice) else Reduced(LocalPlan(1, FreshAll(e.steps)));
    }
    if plan.version == 0 {
      return Refused(NotCreated);
    }
    if e.kind.PlanRevised? {
      var revised := Revise(plan, e.steps);
      return Reduced(revised);
    }
    outcome := ApplyStepEvent(plan, e);
  }

  /** Pops each requested step out of the table of previous ones; what is left over is retired. */
  method Revise(plan: LocalPlan, requested: seq<PlanStep>) returns (revised: LocalPlan)
    requires PlanOk(plan) && !Repeated(requested)
    ensures revised == Revised(plan, requested)
  {
    hide IndexOf, NoRepeats, Ids, Repeated, StepFor, DistinctSteps, RetiredAll;
    NoIds();
    var previous := TableOf(plan.steps);
    var steps := [];
    for i := 0 to |requested|
      invariant steps == RequestedAll(plan.steps, requested)[..i]
      invariant previous.Keys == Ids(plan.steps) - Ids(requested[..i])
      invariant forall id | id in previous :: previous[id] == StepFor(plan.steps, id)
    {
      var id := requested[i].stepId;
      NextIdIsNew(requested, i);
      if id in previous {
        steps := steps + [previous[id].(description := requested[i].description)];
      } else {
        steps := steps + [Fresh(requested[i])];
      }
      previous := previous - {id};
    }
    assert requested[..|requested|] == requested;
    var retired := RetireLeftover(plan.steps, previous, Ids(requested));
    return LocalPlan(plan.version + 1, steps + retired);
  }

  lemma NoIds()
    ensures Ids([]) == {}
  {}

  lemma NextIdIsNew(requested: seq<PlanStep>, i: nat)
    requires !Repeated(requested) && i < |requested|
    ensures Ids(requested[..i + 1]) == Ids(requested[..i]) + {requested[i].stepId}
    ensures requested[i].stepId !in Ids(requested[..i])
  {
    assert requested[..i + 1] == requested[..i] + [requested[i]];
  }

  method TableOf(steps: seq<PlanStep>) returns (table: map<StepId, PlanStep>)
    requires DistinctSteps(steps)
    ensures table.Keys == Ids(steps)
    ensures forall id | id in table :: table[id] == StepFor(steps, id)
  {
    hide IndexOf;
    table := map[];
    for i := 0 to |steps|
      invariant table.Keys == Ids(steps[..i])
      invariant forall id | id in table :: table[id] in steps[..i] && table[id].stepId == id
    {
      assert steps[..i + 1] == steps[..i] + [steps[i]];
      table := table[steps[i].stepId := steps[i]];
    }
    assert steps[..|steps|] == steps;
    forall id | id in table
      ensures table[id] == StepFor(steps, id)
    {
      StepForFinds(steps, table[id]);
    }
  }

  method RetireLeftover(steps: seq<PlanStep>, previous: map<StepId, PlanStep>, requested: set<StepId>) returns (retired: seq<PlanStep>)
    requires DistinctSteps(steps) && previous.Keys == Ids(steps) - requested
    requires forall id | id in previous :: previous[id] == StepFor(steps, id)
    ensures retired == RetiredAll(steps, requested)
  {
    hide IndexOf;
    retired := [];
    for i := 0 to |steps|
      invariant retired == RetiredAll(steps[..i], requested)
    {
      assert steps[..i + 1][..i] == steps[..i];
      assert steps[i] in steps;
      StepForFinds(steps, steps[i]);
      if steps[i].stepId in previous {
        retired := retired + [Retired(previous[steps[i].stepId])];
      }
    }
    assert steps[..|steps|] == steps;
  }

  method ApplyStepEvent(plan: LocalPlan, e: PlanEvent) returns (outcome: Outcome)
    requires PlanOk(plan) && e.stepId.Some?
    ensures outcome == StepApplied(plan, e)
  {
    hide IndexOf, Moved, NoRepeats;
    for i := 0 to |plan.steps|
      invariant forall j | 0 <= j < i :: plan.steps[j].stepId != e.stepId.value
    {
      if plan.steps[i].stepId == e.stepId.value {
        IndexOfDistinct(plan.steps, i);
        match Moved(plan.steps[i], e)
        case StepRefused(error) => return Refused(error);
        case StepMoved(step) => return Reduced(plan.(steps := plan.steps[i := step]));
      }
    }
    return Refused(UnknownStep(e.stepId.value));
  }
}
