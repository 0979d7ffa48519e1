/** What each plan event does to the steps of a local plan, step by step. */
module PlanLaws {
  import opened Contracts
  import opened LocalPlans

  /** A payload names steps exactly to create or revise, otherwise one step; evidence belongs to completions. */
  lemma PayloadIsValidIff(e: PlanEvent)
    ensures
      var wholePlan := e.kind == PlanCreated || e.kind == PlanRevised;
      ValidPayload(e) <==>
        && (wholePlan ==> e.steps != [] && e.stepId == None)
        && (wholePlan ==> forall i, j | 0 <= i < j < |e.steps| :: e.steps[i].stepId != e.steps[j].stepId)
        && (!wholePlan ==> e.stepId != None)
        && (e.kind != StepDone ==> e.evidence == [])
  {}

  /** A plan is created once and before anything else; no later event can be taken without it. */
  lemma PlanIsCreatedOnce(plan: LocalPlan, e: PlanEvent)
    ensures !ValidPayload(e) ==> Applied(plan, e) == Refused(InvalidPayload)
    ensures ValidPayload(e) && e.kind == PlanCreated && plan.version != 0 ==> Applied(plan, e) == Refused(CreatedTwice)
    ensures ValidPayload(e) && e.kind != PlanCreated && plan.version == 0 ==> Applied(plan, e) == Refused(NotCreated)
    ensures ValidPayload(e) && e.kind == PlanCreated && plan.version == 0 ==>
      && Applied(plan, e).Reduced? && Applied(plan, e).plan.version == 1 && |Applied(plan, e).plan.steps| == |e.steps|
      && forall i | 0 <= i < |e.steps| ::
           Applied(plan, e).plan.steps[i] == PlanStep(e.steps[i].stepId, e.steps[i].description, StepPending, [])
  {}

  // ---- revisions ----

  predicate IsNamed(requested: seq<PlanStep>, id: StepId) {
    exists step | step in requested :: step.stepId == id
  }

  /** How many of the steps the revision does not name. */
  function LeftOver(steps: seq<PlanStep>, requested: seq<PlanStep>): nat {
    if steps == [] then 0
    else LeftOver(steps[..|steps| - 1], requested) + (if IsNamed(requested, steps[|steps| - 1].stepId) then 0 else 1)
  }

  /** A step given up: cancelled if it was, otherwise superseded; what it was and its evidence stay. */
  function GivenUp(step: PlanStep): PlanStep {
    PlanStep(step.stepId, step.description, if step.status == StepCancelled then StepCancelled else StepSuperseded, step.evidence)
  }

  /** The step stands among the given-up ones behind those left over before it. */
  predicate StandsInOrder(steps: seq<PlanStep>, requested: seq<PlanStep>, retired: seq<PlanStep>, i: nat)
    requires i < |steps|
  {
    LeftOver(steps[..i], requested) < |retired| && retired[LeftOver(steps[..i], requested)] == GivenUp(steps[i])
  }

  lemma {:induction false} LeftOversKeepTheirOrder(steps: seq<PlanStep>, requested: seq<PlanStep>)
    ensures |RetiredAll(steps, Ids(requested))| == LeftOver(steps, requested)
    ensures forall i | 0 <= i < |steps| && !IsNamed(requested, steps[i].stepId) ::
      StandsInOrder(steps, requested, RetiredAll(steps, Ids(requested)), i)
  {
    hide IsNamed, GivenUp, Ids, Retired;
    if steps != [] {
      var last := |steps| - 1;
      var front := steps[..last];
      LeftOversKeepTheirOrder(front, requested);
      IdsAreNames(requested, steps[last].stepId);
      RetiredMeansGivenUp(steps[last]);
      forall i | 0 <= i < last && !IsNamed(requested, steps[i].stepId)
        ensures StandsInOrder(steps, requested, RetiredAll(steps, Ids(requested)), i)
      {
        assert front[..i] == steps[..i] && front[i] == steps[i];
        assert StandsInOrder(front, requested, RetiredAll(front, Ids(requested)), i);
      }
    }
  }

  lemma RetiredMeansGivenUp(step: PlanStep)
    ensures Retired(step) == GivenUp(step)
  {}

  /**
    A revision lists the requested steps first, in its order: known ones under their new description with
    their status and evidence, new ones fresh. Behind them come the steps it does not name, in their old
    order, given up.
   */
  lemma RevisionLists(plan: LocalPlan, requested: seq<PlanStep>)
    requires PlanOk(plan)
    ensures
      var after := Revised(plan, requested);
      && after.version == plan.version + 1
      && |after.steps| == |requested| + LeftOver(plan.steps, requested)
      && (forall i | 0 <= i < |requested| && !IsNamed(plan.steps, requested[i].stepId) ::
            after.steps[i] == PlanStep(requested[i].stepId, requested[i].description, StepPending, []))
      && (forall i, j | 0 <= i < |requested| && 0 <= j < |plan.steps| && plan.steps[j].stepId == requested[i].stepId ::
            after.steps[i] == PlanStep(requested[i].stepId, requested[i].description, plan.steps[j].status, plan.steps[j].evidence))
      && forall j | 0 <= j < |plan.steps| && !IsNamed(requested, plan.steps[j].stepId) ::
           StandsInOrder(plan.steps, requested, after.steps[|requested|..], j)
  {
    hide NoRepeats, DistinctSteps, RetiredAll, StepFor, Ids, LeftOver;
    LeftOversKeepTheirOrder(plan.steps, requested);
    forall i | 0 <= i < |requested|
      ensures requested[i].stepId in Ids(plan.steps) <==> IsNamed(plan.steps, requested[i].stepId)
    {
      IdsAreNames(plan.steps, requested[i].stepId);
    }
    forall i, j | 0 <= i < |requested| && 0 <= j < |plan.steps| && plan.steps[j].stepId == requested[i].stepId
      ensures requested[i].stepId in Ids(plan.steps) && StepFor(plan.steps, requested[i].stepId) == plan.steps[j]
    {
      StepForFinds(plan.steps, plan.steps[j]);
    }
  }

  lemma IdsAreNames(steps: seq<PlanStep>, id: StepId)
    ensures id in Ids(steps) <==> IsNamed(steps, id)
  {}

  // ---- step events ----

  /** The state a step event leads to, or none where it is refused. */
  function Leads(kind: EventKind, status: StepStatus): Option<StepStatus> {
    match kind
    case StepStarted => if status == StepPending || status == StepRunning then Some(StepRunning) else None
    case StepDone => if status == StepCancelled || status == StepSuperseded then None else Some(StepCompleted)
    case StepDropped => Some(StepCancelled)
    case StepReplaced => Some(StepSuperseded)
    case _ => None
  }

  /** A step event moves exactly its step, to the state its kind leads to; only a completion adds evidence. */
  lemma StepEventMoves(plan: LocalPlan, e: PlanEvent, i: nat)
    requires PlanOk(plan) && plan.version > 0 && ValidPayload(e) && e.kind != PlanCreated && e.kind != PlanRevised
    requires i < |plan.steps| && e.stepId == Some(plan.steps[i].stepId)
    ensures
      var step, lead := plan.steps[i], Leads(e.kind, plan.steps[i].status);
      if lead == None then Applied(plan, e) == Refused(if e.kind == StepStarted then CannotStart(step.stepId) else CannotComplete(step.stepId))
      else
        && Applied(plan, e).Reduced? && Applied(plan, e).plan.version == plan.version
        && |Applied(plan, e).plan.steps| == |plan.steps|
        && (forall j | 0 <= j < |plan.steps| && j != i :: Applied(plan, e).plan.steps[j] == plan.steps[j])
        && Applied(plan, e).plan.steps[i] == PlanStep(step.stepId, step.description, lead.value,
             if e.kind == StepDone then Dedup(step.evidence + e.evidence) else step.evidence)
  {
    hide IndexOf, Dedup, NoRepeats, DistinctSteps;
    IndexOfDistinct(plan.steps, i);
  }

  lemma UnknownStepIsRefused(plan: LocalPlan, e: PlanEvent)
    requires plan.version > 0 && ValidPayload(e) && e.kind != PlanCreated && e.kind != PlanRevised
    requires !IsNamed(plan.steps, e.stepId.value)
    ensures Applied(plan, e) == Refused(UnknownStep(e.stepId.value))
  {
    IdsAreNames(plan.steps, e.stepId.value);
  }

  /** The merged evidence holds each reference once, at the place where it first came up. */
  lemma {:induction false} EvidenceIsFirstOccurrences(refs: seq<Reference>)
    ensures forall r :: r in Dedup(refs) <==> r in refs
    ensures forall k | 0 <= k < |Dedup(refs)| :: IsFirstOccurrence(refs, Dedup(refs), k)
  {
    if refs != [] {
      var last := |refs| - 1;
      var front := refs[..last];
      EvidenceIsFirstOccurrences(front);
      forall k | 0 <= k < |Dedup(refs)|
        ensures IsFirstOccurrence(refs, Dedup(refs), k)
      {
        if k < |Dedup(front)| {
          assert IsFirstOccurrence(front, Dedup(front), k);
          var p :| 0 <= p < |front| && front[p] == Dedup(front)[k] && Dedup(front)[k] !in front[..p]
            && forall r :: r in Dedup(front)[..k] <==> r in front[..p];
          assert refs[..p] == front[..p] && Dedup(refs)[..k] == Dedup(front)[..k];
        } else {
          assert Dedup(refs)[..k] == Dedup(front) && refs[..last] == front;
        }
      }
    }
  }

  ghost predicate IsFirstOccurrence(refs: seq<Reference>, merged: seq<Reference>, k: nat)
    requires k < |merged|
  {
    exists p | 0 <= p < |refs| ::
      refs[p] == merged[k] && merged[k] !in refs[..p] && forall r :: r in merged[..k] <==> r in refs[..p]
  }

  // ---- histories ----

  /** A history is refused with the first event that cannot be taken, whatever comes after it. */
  lemma {:induction false} FirstRefusalDecides(events: seq<PlanEvent>)
    ensures Reduce(events).Refused? <==> exists n | 0 <= n < |events| :: IsRefusedAt(events, n)
    ensures forall n | 0 <= n < |events| && IsRefusedAt(events, n) :: Reduce(events) == Applied(Reduce(events[..n]).plan, events[n])
  {
    hide Applied;
    if events != [] {
      var last := |events| - 1;
      FirstRefusalDecides(events[..last]);
      forall n | 0 <= n < last
        ensures IsRefusedAt(events, n) <==> IsRefusedAt(events[..last], n)
        ensures events[..last][..n] == events[..n]
      {
        assert events[..last][..n] == events[..n];
      }
      assert IsRefusedAt(events, last) <==> Reduce(events[..last]).Reduced? && Applied(Reduce(events[..last]).plan, events[last]).Refused?;
      if Reduce(events[..last]).Refused? {
        var n :| 0 <= n < last && IsRefusedAt(events[..last], n);
        assert IsRefusedAt(events, n);
      }
    }
  }

  predicate IsRefusedAt(events: seq<PlanEvent>, n: nat)
    requires n < |events|
  {
    Reduce(events[..n]).Reduced? && Applied(Reduce(events[..n]).plan, events[n]).Refused?
  }
}
