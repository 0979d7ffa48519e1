/** Runs whose plans all come from the supervisor policy, however stale the context it read. */
module PolicyRuns {
  import opened Contracts
  import opened Events
  import opened Projection
  import opened TeamGraph
  import opened Orchestration
  import opened PolicyFacts
  import opened Admission
  import opened TeamRuns
  import opened TeamTheorems
  import opened Agreement

  /** The policy built the patch for this run, from some context: perhaps an old one. */
  ghost predicate FromPolicy(contract: TeamContract, run: RunId, patch: PlanPatch) {
    exists context: SupervisorContext :: context.run == run && Proposal(contract, context) == Built(patch)
  }

  ghost predicate PolicyEnabled(log: Log, step: TeamStep) {
    && Enabled(log, step)
    && (step.AcceptPlan? ==> FromPolicy(PersistedContract(log, step.run).value, step.run, step.patch))
  }

  // ---- ids stay honest ----

  predicate HonestEvent(e: Event) {
    e.fact.AssignmentCreated? && e.fact.assignment.OfAttempt? ==>
      && e.runId == e.fact.assignment.run
      && e.fact.stage == Some(e.fact.assignment.stage)
      && e.fact.attempt == e.fact.assignment.attempt
  }

  lemma {:induction false} EventsKeepHonesty(log: Log, events: seq<Event>)
    requires HonestIds(Fold(log)) && forall e | e in events :: HonestEvent(e)
    ensures HonestIds(Fold(log + events))
  {
    hide ProjectRun, ProjectAgent, ProjectLease;
    if events == [] {
      assert log + events == log;
    } else {
      var last := |events| - 1;
      assert forall e | e in events[..last] :: e in events;
      EventsKeepHonesty(log, events[..last]);
      assert log + events == (log + events[..last]) + [events[last]];
      FoldAppend(log + events[..last], events[last]);
      assert HonestEvent(events[last]);
    }
  }

  // ---- creations ----

  predicate Creates(e: Event, run: RunId) {
    e.runId == run && e.fact.AssignmentCreated? && e.fact.stage.Some?
  }

  /** The stage assignments a run has created, in order. */
  function CreatedIds(log: Log, run: RunId): seq<AssignmentId> {
    if log == [] then []
    else
      var earlier := CreatedIds(log[..|log| - 1], run);
      if Creates(log[|log| - 1], run) then earlier + [log[|log| - 1].fact.assignment] else earlier
  }

  lemma {:induction false} CreatedIdsOfSum(log: Log, events: seq<Event>, run: RunId)
    ensures CreatedIds(log + events, run) == CreatedIds(log, run) + CreatedIds(events, run)
  {
    if events == [] {
      assert log + events == log;
    } else {
      var last := |events| - 1;
      CreatedIdsOfSum(log, events[..last], run);
      assert (log + events)[..|log| + last] == log + events[..last];
    }
  }

  lemma {:induction false} NothingCreated(events: seq<Event>, run: RunId)
    requires forall e | e in events :: !Creates(e, run)
    ensures CreatedIds(events, run) == []
  {
    if events != [] {
      assert forall e | e in events[..|events| - 1] :: e in events;
      NothingCreated(events[..|events| - 1], run);
    }
  }

  function IdsOf(proposals: seq<AssignmentProposal>): (ids: seq<AssignmentId>)
    ensures |ids| == |proposals| && forall i | 0 <= i < |ids| :: ids[i] == proposals[i].assignmentId
  {
    seq(|proposals|, i requires 0 <= i < |proposals| => proposals[i].assignmentId)
  }

  lemma {:induction false} AssignmentEventsCreate(key: Text, run: RunId, task: TaskId, at: int, proposals: seq<AssignmentProposal>, other: RunId)
    ensures CreatedIds(AllAssignmentEvents(key, run, task, at, proposals), other) == if other == run then IdsOf(proposals) else []
  {
    hide AssignmentEvents;
    if proposals != [] {
      hide CreatedIds;
      var last := |proposals| - 1;
      AssignmentEventsCreate(key, run, task, at, proposals[..last], other);
      CreatedIdsOfSum(AllAssignmentEvents(key, run, task, at, proposals[..last]),
        AssignmentEvents(key, run, task, at, proposals[last]), other);
      OneAssignmentCreates(key, run, task, at, proposals[last], other);
      assert IdsOf(proposals) == IdsOf(proposals[..last]) + [proposals[last].assignmentId];
    }
  }

  lemma OneAssignmentCreates(key: Text, run: RunId, task: TaskId, at: int, a: AssignmentProposal, other: RunId)
    ensures CreatedIds(AssignmentEvents(key, run, task, at, a), other) == if other == run then [a.assignmentId] else []
  {
    var events := AssignmentEvents(key, run, task, at, a);
    CreatedIdsOfSum([events[0]], [events[1], events[2]], other);
    NothingCreated([events[1], events[2]], other);
    assert events == [events[0]] + [events[1], events[2]];
    assert [events[0]][..0] == [];
  }

  lemma PlanCreates(key: Text, run: RunId, task: TaskId, at: int, patch: PlanPatch, other: RunId)
    ensures CreatedIds(PlanEvents(key, run, task, at, patch), other) == if other == run then IdsOf(patch.assignments) else []
  {
    var header := PlanHeader(key, run, task, at, patch);
    var middle := AllAssignmentEvents(key, run, task, at, patch.assignments);
    var footer := PlanFooter(key, run, task, at, patch);
    NothingCreated(header, other);
    NothingCreated(footer, other);
    AssignmentEventsCreate(key, run, task, at, patch.assignments, other);
    CreatedIdsOfSum(header, middle, other);
    CreatedIdsOfSum(header + middle, footer, other);
  }

  // ---- created ids keep their rows ----

  lemma RowsStay(log: Log, e: Event)
    ensures Fold(log).assignments.Keys <= Fold(log + [e]).assignments.Keys
    ensures e.fact.AssignmentCreated? ==> e.fact.assignment in Fold(log + [e]).assignments
  {
    hide ProjectRun, ProjectAgent, ProjectLease;
    FoldAppend(log, e);
  }

  lemma {:induction false} CreatedIdsHaveRows(log: Log, run: RunId)
    ensures forall id | id in CreatedIds(log, run) :: id in Fold(log).assignments
  {
    hide Fold;
    if log != [] {
      var last := |log| - 1;
      CreatedIdsHaveRows(log[..last], run);
      RowsStay(log[..last], log[last]);
      assert log == log[..last] + [log[last]];
    }
  }

  // ---- the invariant ----

  predicate InBox(contract: TeamContract, run: RunId, id: AssignmentId) {
    && id.OfAttempt? && id.run == run
    && id.stage in StageIds(contract.stages)
    && 1 <= id.attempt <= contract.maxStageAttempts
  }

  ghost predicate NoRepeats<T>(s: seq<T>) {
    forall i, j | 0 <= i < j < |s| :: s[i] != s[j]
  }

  ghost predicate RunWithinBounds(log: Log, run: RunId) {
    && NoRepeats(CreatedIds(log, run))
    && forall id | id in CreatedIds(log, run) ::
         PersistedContract(log, run).Some? && InBox(PersistedContract(log, run).value, run, id)
  }

  ghost predicate PolicyState(log: Log) {
    TeamState(log) && HonestIds(Fold(log)) && forall run :: RunWithinBounds(log, run)
  }

  lemma PolicyProposalInBox(contract: TeamContract, run: RunId, patch: PlanPatch, a: AssignmentProposal)
    requires DistinctStageIds(contract.stages) && FromPolicy(contract, run, patch) && a in patch.assignments
    ensures InBox(contract, run, a.assignmentId)
    ensures a.assignmentId == OfAttempt(run, a.stageId, a.attempt)
  {
    hide Draft, SelectionFor, DistinctStageIds, Supported;
    var context: SupervisorContext :| context.run == run && Proposal(contract, context) == Built(patch);
    DraftKind(contract, context);
    SelectedFacts(contract, context, a);
  }

  lemma FreshKeepsNoRepeats(known: seq<AssignmentId>, added: seq<AssignmentId>)
    requires NoRepeats(known) && NoRepeats(added) && forall id | id in added :: id !in known
    ensures NoRepeats(known + added)
  {
    var all := known + added;
    forall i, j | 0 <= i < j < |all|
      ensures all[i] != all[j]
    {
      if i < |known| <= j {
        assert all[j] in added && all[i] in known;
      }
    }
  }

  lemma ProposalsHaveFreshIds(log: Log, run: RunId, task: TaskId, patch: PlanPatch)
    requires PersistedContract(log, run).Some?
    requires Admissible(log, Fold(log), run, PersistedContract(log, run), patch)
    ensures NoRepeats(IdsOf(patch.assignments))
    ensures forall id | id in IdsOf(patch.assignments) :: id !in Fold(log).assignments
  {
    hide PatchValidates, DistinctViews, MatchesPlan, DistinctProposals, LoadsOk, ViewsOk, CapacityOk, Fold, PersistedContract;
    forall i | 0 <= i < |patch.assignments|
      ensures patch.assignments[i].assignmentId !in Fold(log).assignments
    {
      assert patch.assignments[i] in patch.assignments;
    }
  }

  lemma PlanKeepsBounds(log: Log, key: Text, run: RunId, task: TaskId, at: int, patch: PlanPatch, other: RunId)
    requires PolicyState(log) && PolicyEnabled(log, AcceptPlan(key, run, task, at, patch))
    ensures RunWithinBounds(log + PlanEvents(key, run, task, at, patch), other)
  {
    hide TeamInvariant, Fold, PlanEvents, Admissible, FromPolicy, AcceptedContract, PersistedContract, CreatedIds, HonestIds, InBox, NoRepeats, ContractsValidated;
    var events := PlanEvents(key, run, task, at, patch);
    PlanHasNoRun(key, run, task, at, patch);
    EventsKeepContracts(log, events);
    CreatedIdsOfSum(log, events, other);
    PlanCreates(key, run, task, at, patch, other);
    assert RunWithinBounds(log, other);
    if other == run {
      var contract := PersistedContract(log, run).value;
      ValidatedContractIsDistinct(log, run);
      CreatedIdsHaveRows(log, run);
      ProposalsHaveFreshIds(log, run, task, patch);
      FreshKeepsNoRepeats(CreatedIds(log, run), IdsOf(patch.assignments));
      forall id | id in IdsOf(patch.assignments)
        ensures InBox(contract, run, id)
      {
        var i :| 0 <= i < |patch.assignments| && patch.assignments[i].assignmentId == id;
        PolicyProposalInBox(contract, run, patch, patch.assignments[i]);
      }
    } else {
      assert CreatedIds(log, other) + [] == CreatedIds(log, other);
    }
  }

  lemma ValidatedContractIsDistinct(log: Log, run: RunId)
    requires TeamState(log) && PersistedContract(log, run).Some?
    ensures DistinctStageIds(PersistedContract(log, run).value.stages)
  {
    hide TeamInvariant, PersistedContract;
  }

  lemma PlanIsHonest(key: Text, run: RunId, task: TaskId, at: int, patch: PlanPatch)
    requires forall a | a in patch.assignments :: a.assignmentId == OfAttempt(run, a.stageId, a.attempt)
    ensures forall e | e in PlanEvents(key, run, task, at, patch) :: HonestEvent(e)
  {
    AssignmentEventsAreHonest(key, run, task, at, patch.assignments);
  }

  lemma {:induction false} AssignmentEventsAreHonest(key: Text, run: RunId, task: TaskId, at: int, proposals: seq<AssignmentProposal>)
    requires forall a | a in proposals :: a.assignmentId == OfAttempt(run, a.stageId, a.attempt)
    ensures forall e | e in AllAssignmentEvents(key, run, task, at, proposals) :: HonestEvent(e)
  {
    if proposals != [] {
      assert proposals[|proposals| - 1] in proposals;
      assert forall a | a in proposals[..|proposals| - 1] :: a in proposals;
      AssignmentEventsAreHonest(key, run, task, at, proposals[..|proposals| - 1]);
    }
  }

  lemma PlanKeepsPolicyState(log: Log, key: Text, run: RunId, task: TaskId, at: int, patch: PlanPatch)
    requires PolicyState(log) && PolicyEnabled(log, AcceptPlan(key, run, task, at, patch))
    ensures PolicyState(log + PlanEvents(key, run, task, at, patch))
  {
    hide TeamState, Fold, PlanEvents, Admissible, FromPolicy, PersistedContract, HonestIds, RunWithinBounds, HonestEvent;
    var step := AcceptPlan(key, run, task, at, patch);
    StepKeepsTeamState(log, step);
    ValidatedContractIsDistinct(log, run);
    forall a | a in patch.assignments
      ensures a.assignmentId == OfAttempt(run, a.stageId, a.attempt)
    {
      PolicyProposalInBox(PersistedContract(log, run).value, run, patch, a);
    }
    PlanIsHonest(key, run, task, at, patch);
    EventsKeepHonesty(log, PlanEvents(key, run, task, at, patch));
    forall other
      ensures RunWithinBounds(log + PlanEvents(key, run, task, at, patch), other)
    {
      PlanKeepsBounds(log, key, run, task, at, patch, other);
    }
  }

  /** Events that create no stage assignment and keep every contract keep the bounds. */
  lemma QuietKeepsBounds(log: Log, events: seq<Event>, run: RunId)
    requires RunWithinBounds(log, run) && forall e | e in events :: !Creates(e, run)
    requires PersistedContract(log, run).Some? ==> PersistedContract(log + events, run) == PersistedContract(log, run)
    ensures RunWithinBounds(log + events, run)
  {
    hide PersistedContract, InBox, NoRepeats, CreatedIds;
    CreatedIdsOfSum(log, events, run);
    NothingCreated(events, run);
    assert CreatedIds(log, run) + [] == CreatedIds(log, run);
  }

  lemma ResultKeepsPolicyState(log: Log, key: Text, run: RunId, task: TaskId, at: int, actor: AgentId, id: AssignmentId,
                               kind: Text, now: int)
    requires PolicyState(log) && Enabled(log, AcceptResult(key, run, task, at, actor, id, kind, now))
    ensures PolicyState(log + ResultEvents(Fold(log), key, run, task, id, kind, at))
  {
    hide TeamState, Fold, PersistedContract, HonestIds, RunWithinBounds, CreatedIds;
    var events := ResultEvents(Fold(log), key, run, task, id, kind, at);
    StepKeepsTeamState(log, AcceptResult(key, run, task, at, actor, id, kind, now));
    EventsKeepHonesty(log, events);
    EventsKeepContracts(log, events);
    forall other
      ensures RunWithinBounds(log + events, other)
    {
      QuietKeepsBounds(log, events, other);
    }
  }

  lemma RuntimeEventKeepsPolicyState(log: Log, e: Event)
    requires PolicyState(log) && RuntimeMayAppend(log, e)
    ensures PolicyState(log + [e])
  {
    hide TeamState, Fold, HonestIds, RunWithinBounds, CreatedIds, CreatedEvent;
    StepKeepsTeamState(log, RuntimeEvent(e));
    EventsKeepHonesty(log, [e]);
    forall other
      ensures RunWithinBounds(log + [e], other)
    {
      ContractSurvives(log, e, other);
      QuietKeepsBounds(log, [e], other);
    }
  }

  lemma StepKeepsPolicyState(log: Log, step: TeamStep)
    requires PolicyState(log) && PolicyEnabled(log, step)
    ensures PolicyState(After(log, step))
  {
    hide PolicyState, PlanEvents, ResultEvents, Fold, RuntimeMayAppend, LeasedResultOk, Admissible, FromPolicy;
    match step
    case AcceptPlan(key, run, task, at, patch) => PlanKeepsPolicyState(log, key, run, task, at, patch);
    case AcceptResult(key, run, task, at, actor, id, kind, now) =>
      ResultKeepsPolicyState(log, key, run, task, at, actor, id, kind, now);
    case RuntimeEvent(e) => RuntimeEventKeepsPolicyState(log, e);
  }

  // ---- runs ----

  ghost predicate PolicyRun(log: Log, steps: seq<TeamStep>, reached: Log)
    decreases |steps|
  {
    if steps == [] then reached == log
    else PolicyEnabled(log, steps[0]) && PolicyRun(After(log, steps[0]), steps[1..], reached)
  }

  lemma {:induction false} PolicyRunsAreSafe(log: Log, steps: seq<TeamStep>, reached: Log)
    requires PolicyState(log) && PolicyRun(log, steps, reached)
    ensures PolicyState(reached)
    decreases |steps|
  {
    hide PolicyState, PolicyEnabled;
    if steps != [] {
      assert Enabled(log, steps[0]) by { EnabledByPolicy(log, steps[0]); }
      StepKeepsPolicyState(log, steps[0]);
      PolicyRunsAreSafe(After(log, steps[0]), steps[1..], reached);
    }
  }

  lemma EnabledByPolicy(log: Log, step: TeamStep)
    requires PolicyEnabled(log, step)
    ensures Enabled(log, step)
  {}

  lemma EmptyPolicyState()
    ensures PolicyState([])
  {
    EmptyTeamState();
  }

  // ---- how many assignments ----

  function Layer(stages: set<StageId>, attempt: nat): set<(StageId, nat)> {
    set stage | stage in stages :: (stage, attempt)
  }

  /** Every stage with every attempt from one to the limit. */
  function Box(stages: set<StageId>, attempts: nat): set<(StageId, nat)> {
    if attempts == 0 then {} else Box(stages, attempts - 1) + Layer(stages, attempts)
  }

  lemma {:induction false} BoxHolds(stages: set<StageId>, attempts: nat, stage: StageId, attempt: nat)
    ensures (stage, attempt) in Box(stages, attempts) <==> stage in stages && 1 <= attempt <= attempts
  {
    if attempts > 0 {
      BoxHolds(stages, attempts - 1, stage, attempt);
    }
  }

  lemma {:induction false} LayerSize(stages: set<StageId>, attempt: nat)
    ensures |Layer(stages, attempt)| == |stages|
    decreases |stages|
  {
    if stages == {} {
      assert Layer(stages, attempt) == {};
    } else {
      var stage :| stage in stages;
      LayerSize(stages - {stage}, attempt);
      assert Layer(stages, attempt) == Layer(stages - {stage}, attempt) + {(stage, attempt)};
    }
  }

  lemma OneMore(size: nat, n: nat)
    requires n > 0
    ensures size * (n - 1) + size == size * n
  {}

  lemma LayersAreDisjoint(stages: set<StageId>, attempts: nat)
    requires attempts > 0
    ensures Box(stages, attempts - 1) !! Layer(stages, attempts)
  {
    forall slot | slot in Box(stages, attempts - 1)
      ensures slot !in Layer(stages, attempts)
    {
      BoxHolds(stages, attempts - 1, slot.0, slot.1);
    }
  }

  lemma {:induction false} BoxSize(stages: set<StageId>, attempts: nat)
    ensures |Box(stages, attempts)| == |stages| * attempts
  {
    if attempts > 0 {
      hide Layer;
      BoxSize(stages, attempts - 1);
      LayerSize(stages, attempts);
      LayersAreDisjoint(stages, attempts);
      OneMore(|stages|, attempts);
    }
  }

  lemma {:induction false} ListFitsInBox(run: RunId, ids: seq<AssignmentId>, box: set<(StageId, nat)>)
    requires NoRepeats(ids)
    requires forall id | id in ids :: id.OfAttempt? && id.run == run && (id.stage, id.attempt) in box
    ensures |ids| <= |box|
  {
    if ids != [] {
      var last := |ids| - 1;
      var slot := (ids[last].stage, ids[last].attempt);
      assert ids[last] in ids;
      forall id | id in ids[..last]
        ensures id.OfAttempt? && id.run == run && (id.stage, id.attempt) in box - {slot}
      {
        var i :| 0 <= i < last && ids[i] == id;
        assert ids[i] != ids[last];
      }
      ListFitsInBox(run, ids[..last], box - {slot});
    }
  }

  lemma {:induction false} StageIdsAreFew(stages: seq<TeamStageSpec>)
    ensures |StageIds(stages)| <= |stages|
  {
    if stages == [] {
      assert StageIds(stages) == {};
    } else {
      StageIdsAreFew(stages[1..]);
      assert StageIds(stages) == StageIds(stages[1..]) + {stages[0].stageId};
    }
  }

  lemma ProductIsMonotone(a: nat, b: nat, n: nat)
    requires a <= b
    ensures a * n <= b * n
  {}

  /** A run creates at most one assignment for each stage and allowed attempt. */
  lemma RunCreatesBoundedAssignments(steps: seq<TeamStep>, log: Log, run: RunId)
    requires PolicyRun([], steps, log) && PersistedContract(log, run).Some?
    ensures var contract := PersistedContract(log, run).value;
      |CreatedIds(log, run)| <= |contract.stages| * contract.maxStageAttempts
  {
    hide PolicyRun, CreatedIds, TeamState, HonestIds, PersistedContract, NoRepeats, Fold, Box;
    EmptyPolicyState();
    PolicyRunsAreSafe([], steps, log);
    var contract := PersistedContract(log, run).value;
    assert RunWithinBounds(log, run);
    var box := Box(StageIds(contract.stages), contract.maxStageAttempts);
    forall id | id in CreatedIds(log, run)
      ensures id.OfAttempt? && id.run == run && (id.stage, id.attempt) in box
    {
      SlotInBox(contract, run, id);
    }
    ListFitsInBox(run, CreatedIds(log, run), box);
    BoxSize(StageIds(contract.stages), contract.maxStageAttempts);
    StageIdsAreFew(contract.stages);
    ProductIsMonotone(|StageIds(contract.stages)|, |contract.stages|, contract.maxStageAttempts);
  }

  lemma SlotInBox(contract: TeamContract, run: RunId, id: AssignmentId)
    requires InBox(contract, run, id)
    ensures (id.stage, id.attempt) in Box(StageIds(contract.stages), contract.maxStageAttempts)
  {
    BoxHolds(StageIds(contract.stages), contract.maxStageAttempts, id.stage, id.attempt);
  }

  /** In every state such a run reaches, the policy's valid proposals are admitted by the kernel. */
  lemma ReachedSupervisorAndKernelAgree(steps: seq<TeamStep>, log: Log, run: RunId, contract: TeamContract, context: SupervisorContext)
    requires PolicyRun([], steps, log) && PersistedContract(log, run) == Some(contract)
    requires IsContextOf(context, log, Fold(log), run) && Proposal(contract, context).Built?
    ensures Admissible(log, Fold(log), run, Some(contract), Proposal(contract, context).patch)
  {
    hide PolicyRun, Fold, TeamState, HonestIds, IsContextOf, PersistedContract, Draft, Admissible, RunWithinBounds;
    EmptyPolicyState();
    PolicyRunsAreSafe([], steps, log);
    SupervisorAndKernelAgree(log, run, contract, context);
  }
}
