/** The validator as it runs: checks in order, with the loads planned so far kept in a table. */
module AdmissionCheck {
  import opened Contracts
  import opened Events
  import opened Projection
  import opened TeamGraph
  import opened Orchestration
  import opened PolicyFacts
  import opened Admission

  datatype Rejection =
    | InvalidSchema
    | RevisionMustAdvance(expected: nat)
    | PlanContractMismatch
    | DuplicateStageInPatch
    | StageSetMismatch
    | StageContractMismatch(stage: StageId)
    | DuplicateAssignmentId
    | DuplicateAssignmentStage(stage: StageId)
    | CompletionCreatesAssignments
    | CompletionMissesResults
    | ParallelismExceeded
    | StageNotInPlan(stage: StageId)
    | StageAlreadyCompleted(stage: StageId)
    | StageAlreadyActive(stage: StageId)
    | DependenciesUnsatisfied(stage: StageId)
    | AttemptMustAdvance(expected: nat)
    | AssignmentIdExists
    | PlanViewMismatch(stage: StageId)
    | AssignmentContractMismatch(stage: StageId)
    | UnknownAgent(agent: AgentId)
    | AgentUnavailable(agent: AgentId)
    | CapabilitiesMissing(agent: AgentId)
    | ConcurrencyExceeded(agent: AgentId)
    | StageStateMismatch(stage: StageId)

  /** The order in which the reasons are looked for. */
  function Order(r: Rejection): nat {
    match r
    case InvalidSchema => 0
    case RevisionMustAdvance(_) => 1
    case PlanContractMismatch => 2
    case DuplicateStageInPatch => 3
    case StageSetMismatch => 4
    case StageContractMismatch(_) => 5
    case DuplicateAssignmentId => 6
    case DuplicateAssignmentStage(_) => 7
    case CompletionCreatesAssignments => 8
    case CompletionMissesResults => 9
    case ParallelismExceeded => 10
    case StageNotInPlan(_) => 11
    case StageAlreadyCompleted(_) => 12
    case StageAlreadyActive(_) => 13
    case DependenciesUnsatisfied(_) => 14
    case AttemptMustAdvance(_) => 15
    case AssignmentIdExists => 16
    case PlanViewMismatch(_) => 17
    case AssignmentContractMismatch(_) => 18
    case UnknownAgent(_) => 19
    case AgentUnavailable(_) => 20
    case CapabilitiesMissing(_) => 21
    case ConcurrencyExceeded(_) => 22
    case StageStateMismatch(_) => 23
  }

  // ---- what each reason says ----

  /** The reason is true of the patch's own shape. */
  ghost predicate ShapeFault(log: Log, run: RunId, contract: Option<TeamContract>, patch: PlanPatch, r: Rejection) {
    match r
    case InvalidSchema => !PatchValidates(patch)
    case RevisionMustAdvance(expected) => expected == LatestRevision(log, run) + 1 && patch.revision != expected
    case PlanContractMismatch =>
      contract.Some? && (patch.contractId != contract.value.contractId || patch.contractVersion != contract.value.version)
    case DuplicateStageInPatch => !DistinctViews(patch.stages)
    case StageSetMismatch => contract.Some? && ViewIds(patch.stages) != StageIds(contract.value.stages)
    case StageContractMismatch(stage) => contract.Some? && DependenciesDiffer(contract.value, patch.stages, stage)
    case DuplicateAssignmentId => !DistinctAssignments(patch.assignments)
    case DuplicateAssignmentStage(stage) => IsProposedTwice(patch.assignments, stage)
    case CompletionCreatesAssignments => patch.completionReady && patch.assignments != []
    case _ => false
  }

  ghost predicate DependenciesDiffer(contract: TeamContract, views: seq<StagePlanView>, stage: StageId) {
    exists v | v in views :: v.stageId == stage && stage in StageIds(contract.stages)
      && v.dependsOn != StageOf(contract.stages, stage).dependsOn
  }

  ghost predicate IsProposedTwice(proposals: seq<AssignmentProposal>, stage: StageId) {
    exists i, j :: 0 <= i < j < |proposals| && proposals[i].stageId == stage && proposals[j].stageId == stage
  }

  ghost predicate CapacityFault(p: Projections, run: RunId, contract: TeamContract, patch: PlanPatch, r: Rejection) {
    match r
    case CompletionMissesResults => patch.completionReady && !(StageIds(contract.stages) <= CompletedStages(p, run))
    case ParallelismExceeded => |ActiveLeases(p, run)| + |patch.assignments| > contract.maxParallelAssignments
    case _ => false
  }

  /** The reason is true of the proposed stage. */
  ghost predicate StageFault(p: Projections, run: RunId, contract: TeamContract, views: seq<StagePlanView>, a: AssignmentProposal, r: Rejection)
    requires a.stageId in StageIds(contract.stages) && a.stageId in ViewIds(views)
  {
    match r
    case StageAlreadyCompleted(stage) => stage == a.stageId && stage in CompletedStages(p, run)
    case StageAlreadyActive(stage) => stage == a.stageId && stage in ActiveStages(p, run)
    case DependenciesUnsatisfied(stage) =>
      stage == a.stageId && !(Elements(StageOf(contract.stages, stage).dependsOn) <= CompletedStages(p, run))
    case AttemptMustAdvance(expected) => expected == LatestAttempt(p, run, a.stageId) + 1 && a.attempt != expected
    case AssignmentIdExists => a.assignmentId in p.assignments
    case PlanViewMismatch(stage) =>
      stage == a.stageId
      && (!ViewFor(views, stage).state.ActiveStage? || ViewFor(views, stage).agentId != Some(a.agentId))
    case AssignmentContractMismatch(stage) =>
      stage == a.stageId && !CopiesContract(contract, StageOf(contract.stages, stage), a)
    case _ => false
  }

  /** The reason is true of the proposed agent. */
  ghost predicate AgentFault(p: Projections, a: AssignmentProposal, r: Rejection) {
    match r
    case UnknownAgent(agent) => agent == a.agentId && agent !in p.agents
    case AgentUnavailable(agent) =>
      agent == a.agentId && agent in p.agents && (p.agents[agent].status.Degraded? || p.agents[agent].status.Offline?)
    case CapabilitiesMissing(agent) =>
      agent == a.agentId && agent in p.agents && !(a.requiredCapabilities <= p.agents[agent].capabilities)
    case _ => false
  }

  ghost predicate ProposalFault(p: Projections, run: RunId, contract: Option<TeamContract>, views: seq<StagePlanView>,
                                a: AssignmentProposal, r: Rejection)
  {
    || (r == StageNotInPlan(a.stageId) && a.stageId !in ViewIds(views))
    || (contract.Some? && a.stageId in StageIds(contract.value.stages) && a.stageId in ViewIds(views)
        && StageFault(p, run, contract.value, views, a, r))
    || AgentFault(p, a, r)
  }

  ghost predicate LoadFault(p: Projections, proposals: seq<AssignmentProposal>, r: Rejection) {
    && r.ConcurrencyExceeded? && r.agent in p.agents
    && |AgentLeases(p, r.agent)| + CountAgent(proposals, r.agent) > p.agents[r.agent].maxConcurrency
  }

  ghost predicate ViewFault(p: Projections, run: RunId, contract: TeamContract, patch: PlanPatch, r: Rejection) {
    r.StageStateMismatch? && exists stage | stage in contract.stages ::
      stage.stageId == r.stage && r.stage in ViewIds(patch.stages)
      && !ViewIsHonest(p, run, stage, ProposedStages(patch.assignments), ViewFor(patch.stages, r.stage).state)
  }

  /** The reason given for a refused patch is true of it. */
  ghost predicate Explains(log: Log, p: Projections, run: RunId, contract: Option<TeamContract>, patch: PlanPatch, r: Rejection) {
    || ShapeFault(log, run, contract, patch, r)
    || (contract.Some? && CapacityFault(p, run, contract.value, patch, r))
    || (exists a | a in patch.assignments :: ProposalFault(p, run, contract, patch.stages, a, r))
    || LoadFault(p, patch.assignments, r)
    || (contract.Some? && ViewFault(p, run, contract.value, patch, r))
  }

  // ---- the checks ----

  method NextAttempt(p: Projections, run: RunId, stage: StageId) returns (expected: nat)
    ensures expected == LatestAttempt(p, run, stage) + 1
  {
    var latest := 0;
    var todo := AttemptsOf(p, run, stage);
    ghost var seen: set<nat> := {};
    while todo != {}
      invariant seen + todo == AttemptsOf(p, run, stage)
      invariant forall v | v in seen :: v <= latest
      invariant latest in seen || latest == 0
      decreases todo
    {
      var v :| v in todo;
      if v > latest {
        latest := v;
      }
      seen := seen + {v};
      todo := todo - {v};
    }
    assert seen == AttemptsOf(p, run, stage);
    return latest + 1;
  }

  method RepeatedView(views: seq<StagePlanView>) returns (repeated: bool)
    ensures repeated <==> !DistinctViews(views)
  {
    var seen: set<StageId> := {};
    for i := 0 to |views|
      invariant forall id :: id in seen <==> exists j :: 0 <= j < i && views[j].stageId == id
      invariant forall j, k | 0 <= j < k < i :: views[j].stageId != views[k].stageId
    {
      if views[i].stageId in seen {
        return true;
      }
      seen := seen + {views[i].stageId};
    }
    return false;
  }

  method RepeatedAssignment(proposals: seq<AssignmentProposal>) returns (repeated: bool)
    ensures repeated <==> !DistinctAssignments(proposals)
  {
    var seen: set<AssignmentId> := {};
    for i := 0 to |proposals|
      invariant forall id :: id in seen <==> exists j :: 0 <= j < i && proposals[j].assignmentId == id
      invariant forall j, k | 0 <= j < k < i :: proposals[j].assignmentId != proposals[k].assignmentId
    {
      if proposals[i].assignmentId in seen {
        return true;
      }
      seen := seen + {proposals[i].assignmentId};
    }
    return false;
  }

  method RepeatedStage(proposals: seq<AssignmentProposal>) returns (repeated: Option<StageId>)
    ensures repeated.None? <==> DistinctProposals(proposals)
    ensures repeated.Some? ==> IsProposedTwice(proposals, repeated.value)
    ensures repeated.Some? ==> exists i | 0 <= i < |proposals| :: proposals[i].stageId == repeated.value && DistinctProposals(proposals[..i])
    ensures repeated.None? ==> forall stage :: !IsProposedTwice(proposals, stage)
  {
    var seen: set<StageId> := {};
    for i := 0 to |proposals|
      invariant forall id :: id in seen <==> exists j :: 0 <= j < i && proposals[j].stageId == id
      invariant forall j, k | 0 <= j < k < i :: proposals[j].stageId != proposals[k].stageId
    {
      if proposals[i].stageId in seen {
        assert DistinctProposals(proposals[..i]);
        return Some(proposals[i].stageId);
      }
      seen := seen + {proposals[i].stageId};
    }
    return None;
  }

  method CheckPlan(contract: TeamContract, views: seq<StagePlanView>) returns (rejection: Option<Rejection>)
    ensures rejection.None? <==> MatchesPlan(contract, views)
    ensures rejection.Some? ==>
      (rejection.value == StageSetMismatch && ViewIds(views) != StageIds(contract.stages))
      || (rejection.value.StageContractMismatch? && DependenciesDiffer(contract, views, rejection.value.stage))
    ensures rejection.Some? && rejection.value.StageContractMismatch? ==> ViewIds(views) == StageIds(contract.stages)
    ensures rejection.None? ==> ViewIds(views) == StageIds(contract.stages) && forall stage :: !DependenciesDiffer(contract, views, stage)
  {
    if ViewIds(views) != StageIds(contract.stages) {
      return Some(StageSetMismatch);
    }
    for i := 0 to |views|
      invariant forall j | 0 <= j < i && views[j].stageId in StageIds(contract.stages) ::
        views[j].dependsOn == StageOf(contract.stages, views[j].stageId).dependsOn
    {
      assert views[i] in views && views[i].stageId in ViewIds(views);
      if views[i].dependsOn != StageOf(contract.stages, views[i].stageId).dependsOn {
        return Some(StageContractMismatch(views[i].stageId));
      }
    }
    return None;
  }

  method CheckShape(log: Log, run: RunId, contract: Option<TeamContract>, patch: PlanPatch) returns (rejection: Option<Rejection>)
    ensures rejection.None? <==> ShapeOk(log, run, contract, patch)
    ensures rejection.Some? ==> ShapeFault(log, run, contract, patch, rejection.value)
    ensures rejection.Some? ==> forall q | ShapeFault(log, run, contract, patch, q) :: Order(rejection.value) <= Order(q)
  {
    hide DependenciesDiffer, IsProposedTwice, PatchValidates, DistinctViews, MatchesPlan, DistinctAssignments, DistinctProposals, LatestRevision;
    if !PatchValidates(patch) {
      return Some(InvalidSchema);
    }
    var expected := LatestRevision(log, run) + 1;
    if patch.revision != expected {
      return Some(RevisionMustAdvance(expected));
    }
    if contract.Some? && (patch.contractId != contract.value.contractId || patch.contractVersion != contract.value.version) {
      return Some(PlanContractMismatch);
    }
    var repeatedView := RepeatedView(patch.stages);
    if repeatedView {
      return Some(DuplicateStageInPatch);
    }
    if contract.Some? {
      rejection := CheckPlan(contract.value, patch.stages);
      if rejection.Some? {
        return;
      }
    }
    var repeatedId := RepeatedAssignment(patch.assignments);
    if repeatedId {
      return Some(DuplicateAssignmentId);
    }
    var repeatedStage := RepeatedStage(patch.assignments);
    if repeatedStage.Some? {
      return Some(DuplicateAssignmentStage(repeatedStage.value));
    }
    if patch.completionReady && patch.assignments != [] {
      return Some(CompletionCreatesAssignments);
    }
    return None;
  }

  method CheckStage(p: Projections, run: RunId, contract: TeamContract, views: seq<StagePlanView>, a: AssignmentProposal)
    returns (rejection: Option<Rejection>)
    requires ViewIds(views) == StageIds(contract.stages) && a.stageId in ViewIds(views)
    ensures rejection.None? <==> StageIsOpen(p, run, contract, views, a)
    ensures rejection.Some? ==> StageFault(p, run, contract, views, a, rejection.value)
    ensures rejection.Some? ==> forall q | StageFault(p, run, contract, views, a, q) :: Order(rejection.value) <= Order(q)
  {
    var stage := StageOf(contract.stages, a.stageId);
    var completed := CompletedStages(p, run);
    if a.stageId in completed {
      return Some(StageAlreadyCompleted(a.stageId));
    }
    if a.stageId in ActiveStages(p, run) {
      return Some(StageAlreadyActive(a.stageId));
    }
    if !(Elements(stage.dependsOn) <= completed) {
      return Some(DependenciesUnsatisfied(a.stageId));
    }
    var expected := NextAttempt(p, run, a.stageId);
    if a.attempt != expected {
      return Some(AttemptMustAdvance(expected));
    }
    if a.assignmentId in p.assignments {
      return Some(AssignmentIdExists);
    }
    var view := ViewFor(views, a.stageId);
    if !view.state.ActiveStage? || view.agentId != Some(a.agentId) {
      return Some(PlanViewMismatch(a.stageId));
    }
    if !CopiesContract(contract, stage, a) {
      return Some(AssignmentContractMismatch(a.stageId));
    }
    return None;
  }

  method CheckAgent(p: Projections, a: AssignmentProposal) returns (rejection: Option<Rejection>)
    ensures rejection.None? <==> AgentIsFit(p, a)
    ensures rejection.Some? ==> AgentFault(p, a, rejection.value)
    ensures rejection.Some? ==> forall q | AgentFault(p, a, q) :: Order(rejection.value) <= Order(q)
  {
    if a.agentId !in p.agents {
      return Some(UnknownAgent(a.agentId));
    }
    var agent := p.agents[a.agentId];
    if agent.status.Degraded? || agent.status.Offline? {
      return Some(AgentUnavailable(a.agentId));
    }
    if !(a.requiredCapabilities <= agent.capabilities) {
      return Some(CapabilitiesMissing(a.agentId));
    }
    return None;
  }

  lemma LoadsAppend(p: Projections, front: seq<AssignmentProposal>, a: AssignmentProposal)
    requires a.agentId in p.agents && LoadsOk(p, front)
    ensures LoadsOk(p, front + [a]) <==>
      |AgentLeases(p, a.agentId)| + CountAgent(front, a.agentId) + 1 <= p.agents[a.agentId].maxConcurrency
  {
    forall agent
      ensures CountAgent(front + [a], agent) == CountAgent(front, agent) + (if a.agentId == agent then 1 else 0)
    {
      CountAgentAppend(front, a, agent);
    }
    assert a.agentId in p.agents && CountAgent(front + [a], a.agentId) > 0;
  }

  lemma {:induction false} LoadsPrefix(p: Projections, proposals: seq<AssignmentProposal>, i: nat)
    requires i <= |proposals| && !LoadsOk(p, proposals[..i])
    ensures !LoadsOk(p, proposals)
    decreases |proposals| - i
  {
    if i == |proposals| {
      assert proposals[..i] == proposals;
    } else {
      assert proposals[..i + 1] == proposals[..i] + [proposals[i]];
      forall agent
        ensures CountAgent(proposals[..i + 1], agent) >= CountAgent(proposals[..i], agent)
      {
        CountAgentAppend(proposals[..i], proposals[i], agent);
      }
      LoadsPrefix(p, proposals, i + 1);
    }
  }

  /** One iteration of the validator's main loop over the proposed assignments. */
  method CheckProposal(p: Projections, run: RunId, contract: Option<TeamContract>, views: seq<StagePlanView>, a: AssignmentProposal)
    returns (rejection: Option<Rejection>)
    requires contract.Some? ==> ViewIds(views) == StageIds(contract.value.stages)
    ensures rejection.None? <==> ProposalOk(p, run, contract, views, a)
    ensures rejection.Some? ==> ProposalFault(p, run, contract, views, a, rejection.value)
    ensures rejection.Some? ==> forall q | ProposalFault(p, run, contract, views, a, q) :: Order(rejection.value) <= Order(q)
  {
    hide StageIsOpen, AgentIsFit, StageFault, AgentFault, Order;
    FaultsInOrder(p, run, contract, views, a);
    if a.stageId !in ViewIds(views) {
      return Some(StageNotInPlan(a.stageId));
    }
    if contract.Some? {
      rejection := CheckStage(p, run, contract.value, views, a);
      if rejection.Some? {
        return;
      }
    }
    rejection := CheckAgent(p, a);
  }

  /**
    The proposals before this one are sound and fit together; this one has the fault, no other of its faults
    is looked for earlier, and its agent is overloaded only if it has no fault of its own.
   */
  ghost predicate IsFirstFault(p: Projections, run: RunId, contract: Option<TeamContract>, views: seq<StagePlanView>,
                               proposals: seq<AssignmentProposal>, i: nat, r: Rejection)
    requires i < |proposals|
  {
    && (forall j | 0 <= j < i :: ProposalOk(p, run, contract, views, proposals[j]))
    && LoadsOk(p, proposals[..i])
    && if ProposalOk(p, run, contract, views, proposals[i])
       then r == ConcurrencyExceeded(proposals[i].agentId) && !LoadsOk(p, proposals[..i + 1])
       else ProposalFault(p, run, contract, views, proposals[i], r)
            && forall q | ProposalFault(p, run, contract, views, proposals[i], q) :: Order(r) <= Order(q)
  }

  lemma FaultsInOrder(p: Projections, run: RunId, contract: Option<TeamContract>, views: seq<StagePlanView>, a: AssignmentProposal)
    ensures forall q | AgentFault(p, a, q) :: 19 <= Order(q)
    ensures Order(StageNotInPlan(a.stageId)) == 11
    ensures contract.Some? && a.stageId in StageIds(contract.value.stages) && a.stageId in ViewIds(views) ==>
      && (forall q | StageFault(p, run, contract.value, views, a, q) :: 12 <= Order(q) <= 18)
      && (StageIsOpen(p, run, contract.value, views, a) ==> forall q :: !StageFault(p, run, contract.value, views, a, q))
  {
    hide LatestAttempt, CompletedStages, ActiveStages, CopiesContract;
  }

  lemma SoundAgentIsKnown(p: Projections, run: RunId, contract: Option<TeamContract>, views: seq<StagePlanView>, a: AssignmentProposal)
    requires ProposalOk(p, run, contract, views, a)
    ensures a.agentId in p.agents
  {
    hide StageIsOpen;
  }

  lemma ShapeShowsPlan(log: Log, run: RunId, contract: TeamContract, patch: PlanPatch)
    requires ShapeOk(log, run, Some(contract), patch)
    ensures ViewIds(patch.stages) == StageIds(contract.stages)
  {}

  method CheckProposals(p: Projections, run: RunId, contract: Option<TeamContract>, views: seq<StagePlanView>, proposals: seq<AssignmentProposal>)
    returns (rejection: Option<Rejection>)
    requires contract.Some? ==> ViewIds(views) == StageIds(contract.value.stages)
    ensures rejection.None? <==>
      (forall a | a in proposals :: ProposalOk(p, run, contract, views, a)) && LoadsOk(p, proposals)
    ensures rejection.Some? ==>
      (exists a | a in proposals :: ProposalFault(p, run, contract, views, a, rejection.value))
      || LoadFault(p, proposals, rejection.value)
    ensures rejection.Some? ==> exists i | 0 <= i < |proposals| :: IsFirstFault(p, run, contract, views, proposals, i, rejection.value)
  {
    hide LoadsOk, StageIsOpen, ProposalFault, Order, ProposalOk;
    var planned: map<AgentId, nat> := map[];
    EmptyLoads(p);
    for i := 0 to |proposals|
      invariant forall j | 0 <= j < i :: ProposalOk(p, run, contract, views, proposals[j])
      invariant LoadsOk(p, proposals[..i])
      invariant forall agent :: At(planned, agent) == CountAgent(proposals[..i], agent)
    {
      var a := proposals[i];
      assert a in proposals;
      rejection := CheckProposal(p, run, contract, views, a);
      if rejection.Some? {
        assert IsFirstFault(p, run, contract, views, proposals, i, rejection.value);
        return;
      }
      assert proposals[..i + 1] == proposals[..i] + [a];
      SoundAgentIsKnown(p, run, contract, views, a);
      LoadsAppend(p, proposals[..i], a);
      CountAll(proposals[..i], a);
      var next := At(planned, a.agentId) + 1;
      if |AgentLeases(p, a.agentId)| + next > p.agents[a.agentId].maxConcurrency {
        LoadsPrefix(p, proposals, i + 1);
        CountGrows(proposals, i + 1, a.agentId);
        assert IsFirstFault(p, run, contract, views, proposals, i, ConcurrencyExceeded(a.agentId));
        return Some(ConcurrencyExceeded(a.agentId));
      }
      planned := planned[a.agentId := next];
    }
    assert proposals[..|proposals|] == proposals;
    return None;
  }

  lemma {:induction false} CountGrows(proposals: seq<AssignmentProposal>, i: nat, agent: AgentId)
    requires i <= |proposals|
    ensures CountAgent(proposals[..i], agent) <= CountAgent(proposals, agent)
    decreases |proposals| - i
  {
    if i == |proposals| {
      assert proposals[..i] == proposals;
    } else {
      assert proposals[..i + 1][..i] == proposals[..i];
      CountGrows(proposals, i + 1, agent);
    }
  }

  lemma EmptyLoads(p: Projections)
    ensures LoadsOk(p, [])
  {}

  lemma CountAll(front: seq<AssignmentProposal>, a: AssignmentProposal)
    ensures forall agent :: CountAgent(front + [a], agent) == CountAgent(front, agent) + (if a.agentId == agent then 1 else 0)
  {
    forall agent
      ensures CountAgent(front + [a], agent) == CountAgent(front, agent) + (if a.agentId == agent then 1 else 0)
    {
      CountAgentAppend(front, a, agent);
    }
  }

  /** The check the kernel makes on one stage view, in the order it makes it. */
  method CheckView(p: Projections, run: RunId, stage: TeamStageSpec, proposed: set<StageId>, state: StageState) returns (honest: bool)
    ensures honest <==> ViewIsHonest(p, run, stage, proposed, state)
  {
    var completed := CompletedStages(p, run);
    if stage.stageId in completed {
      return state.CompletedStage?;
    }
    if stage.stageId in ActiveStages(p, run) + proposed {
      return state.ActiveStage?;
    } else if !(Elements(stage.dependsOn) <= completed) {
      return state.PendingStage?;
    }
    return state.ReadyStage? || state.BlockedStage?;
  }

  method CheckViews(p: Projections, run: RunId, contract: TeamContract, patch: PlanPatch) returns (rejection: Option<Rejection>)
    requires ViewIds(patch.stages) == StageIds(contract.stages)
    ensures rejection.None? <==> ViewsOk(p, run, Some(contract), patch)
    ensures rejection.Some? ==> ViewFault(p, run, contract, patch, rejection.value)
    ensures rejection.Some? ==> exists i | 0 <= i < |contract.stages| ::
      rejection.value == StageStateMismatch(contract.stages[i].stageId)
      && forall j | 0 <= j < i && contract.stages[j].stageId in ViewIds(patch.stages) ::
           ViewIsHonest(p, run, contract.stages[j], ProposedStages(patch.assignments), ViewFor(patch.stages, contract.stages[j].stageId).state)
  {
    hide ViewIsHonest;
    var proposed := ProposedStages(patch.assignments);
    var stages := contract.stages;
    for i := 0 to |stages|
      invariant forall j | 0 <= j < i && stages[j].stageId in ViewIds(patch.stages) ::
        ViewIsHonest(p, run, stages[j], proposed, ViewFor(patch.stages, stages[j].stageId).state)
    {
      assert stages[i] in stages && stages[i].stageId in StageIds(stages);
      var honest := CheckView(p, run, stages[i], proposed, ViewFor(patch.stages, stages[i].stageId).state);
      if !honest {
        return Some(StageStateMismatch(stages[i].stageId));
      }
    }
    return None;
  }

  /** The reason belongs to the first group of checks that fails: shape, capacity, proposals, views; and is the first of its group. */
  ghost predicate IsFirstReason(log: Log, p: Projections, run: RunId, contract: Option<TeamContract>, patch: PlanPatch, r: Rejection) {
    if !ShapeOk(log, run, contract, patch) then
      ShapeFault(log, run, contract, patch, r) && forall q | ShapeFault(log, run, contract, patch, q) :: Order(r) <= Order(q)
    else if !CapacityOk(p, run, contract, patch) then
      contract.Some? && CapacityFault(p, run, contract.value, patch, r)
      && forall q | CapacityFault(p, run, contract.value, patch, q) :: Order(r) <= Order(q)
    else if !((forall a | a in patch.assignments :: ProposalOk(p, run, contract, patch.stages, a)) && LoadsOk(p, patch.assignments)) then
      exists i | 0 <= i < |patch.assignments| :: IsFirstFault(p, run, contract, patch.stages, patch.assignments, i, r)
    else
      contract.Some? && ViewFault(p, run, contract.value, patch, r)
  }

  /** No reason is returned exactly for admissible patches, and a reason that is returned is true. */
  method ValidatePlanPatch(log: Log, p: Projections, run: RunId, patch: PlanPatch) returns (rejection: Option<Rejection>)
    ensures rejection.None? <==> Admissible(log, p, run, PersistedContract(log, run), patch)
    ensures rejection.Some? ==> Explains(log, p, run, PersistedContract(log, run), patch, rejection.value)
    ensures rejection.Some? ==> IsFirstReason(log, p, run, PersistedContract(log, run), patch, rejection.value)
  {
    hide ShapeFault, ProposalFault, LoadFault, ViewFault, PatchValidates, DistinctViews, DistinctAssignments, DistinctProposals, LatestRevision, ProposalOk, LoadsOk, ViewsOk,
      ShapeOk, IsFirstFault;
    var contract := PersistedContract(log, run);
    rejection := CheckShape(log, run, contract, patch);
    if rejection.Some? {
      return;
    }
    if contract.Some? {
      ShapeShowsPlan(log, run, contract.value, patch);
      if patch.completionReady && !(StageIds(contract.value.stages) <= CompletedStages(p, run)) {
        return Some(CompletionMissesResults);
      }
      if |ActiveLeases(p, run)| + |patch.assignments| > contract.value.maxParallelAssignments {
        return Some(ParallelismExceeded);
      }
    }
    rejection := CheckProposals(p, run, contract, patch.stages, patch.assignments);
    if rejection.Some? {
      return;
    }
    if contract.Some? {
      rejection := CheckViews(p, run, contract.value, patch);
    } else {
      NoContractNoViews(p, run, patch);
    }
  }

  lemma NoContractNoViews(p: Projections, run: RunId, patch: PlanPatch)
    ensures ViewsOk(p, run, None, patch)
  {}
}
