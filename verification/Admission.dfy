/** The kernel's independent validation of a plan patch against durable state. */
module Admission {
  import opened Contracts
  import opened Events
  import opened Projection
  import opened TeamGraph
  import opened Orchestration
  import opened PolicyFacts

  // ---- what the kernel reads ----

  function ActiveLeases(p: Projections, run: RunId): set<AssignmentId> {
    set id | id in p.leases && p.leases[id].status.ActiveLease? && p.leases[id].run == run
  }

  function AgentLeases(p: Projections, agent: AgentId): set<AssignmentId> {
    set id | id in p.leases && p.leases[id].status.ActiveLease? && p.leases[id].agent == agent
  }

  function ActiveStages(p: Projections, run: RunId): set<StageId> {
    set id | id in ActiveLeases(p, run) && p.leases[id].stage.Some? :: p.leases[id].stage.value
  }

  predicate RowCompletes(row: AssignmentView, run: RunId) {
    row.run == run && row.stage.Some? && SucceededAssignment(row.status)
  }

  function CompletedStages(p: Projections, run: RunId): set<StageId> {
    set id | id in p.assignments && RowCompletes(p.assignments[id], run) :: p.assignments[id].stage.value
  }

  function AttemptsOf(p: Projections, run: RunId, stage: StageId): set<nat> {
    set id | id in p.assignments && p.assignments[id].run == run && p.assignments[id].stage == Some(stage)
      :: p.assignments[id].attempt
  }

  /** `max(values, default=0)` */
  ghost function MaxOf(values: set<nat>): (m: nat)
    ensures forall v | v in values :: v <= m
    ensures values != {} ==> m in values
    ensures values == {} ==> m == 0
  {
    if values == {} then 0
    else
      var v :| v in values;
      var rest := MaxOf(values - {v});
      assert values == (values - {v}) + {v};
      if v > rest then v else rest
  }

  ghost function LatestAttempt(p: Projections, run: RunId, stage: StageId): nat {
    MaxOf(AttemptsOf(p, run, stage))
  }

  function LatestRevision(log: Log, run: RunId): nat {
    if log == [] then 0
    else
      var rest := LatestRevision(log[..|log| - 1], run);
      var e := log[|log| - 1];
      if e.runId == run && e.fact.PlanPatched? && e.fact.revision > rest then e.fact.revision else rest
  }

  /** The first `run.created` event of a run. */
  function CreatedEvent(log: Log, run: RunId): Option<Event> {
    if log == [] then None
    else
      var earlier := CreatedEvent(log[..|log| - 1], run);
      var e := log[|log| - 1];
      if earlier.Some? then earlier
      else if e.runId == run && e.fact.RunCreated? then Some(e)
      else None
  }

  function PersistedContract(log: Log, run: RunId): Option<TeamContract> {
    var created := CreatedEvent(log, run);
    if created.Some? && created.value.fact.RunCreated? then created.value.fact.contract else None
  }

  // ---- what makes a patch admissible ----

  function ViewIds(views: seq<StagePlanView>): set<StageId> {
    set v | v in views :: v.stageId
  }

  ghost predicate DistinctViews(views: seq<StagePlanView>) {
    forall i, j | 0 <= i < j < |views| :: views[i].stageId != views[j].stageId
  }

  function ViewFor(views: seq<StagePlanView>, id: StageId): (view: StagePlanView)
    requires id in ViewIds(views)
    ensures view in views && view.stageId == id
  {
    if views[0].stageId == id then views[0] else ViewFor(views[1..], id)
  }

  ghost predicate DistinctAssignments(proposals: seq<AssignmentProposal>) {
    forall i, j | 0 <= i < j < |proposals| :: proposals[i].assignmentId != proposals[j].assignmentId
  }

  ghost predicate MatchesPlan(contract: TeamContract, views: seq<StagePlanView>) {
    && ViewIds(views) == StageIds(contract.stages)
    && forall v | v in views && v.stageId in StageIds(contract.stages) ::
         v.dependsOn == StageOf(contract.stages, v.stageId).dependsOn
  }

  ghost predicate ShapeOk(log: Log, run: RunId, contract: Option<TeamContract>, patch: PlanPatch) {
    && PatchValidates(patch)
    && patch.revision == LatestRevision(log, run) + 1
    && (contract.Some? ==>
          patch.contractId == contract.value.contractId && patch.contractVersion == contract.value.version)
    && DistinctViews(patch.stages)
    && (contract.Some? ==> MatchesPlan(contract.value, patch.stages))
    && DistinctAssignments(patch.assignments)
    && DistinctProposals(patch.assignments)
    && !(patch.completionReady && patch.assignments != [])
  }

  ghost predicate CapacityOk(p: Projections, run: RunId, contract: Option<TeamContract>, patch: PlanPatch) {
    contract.Some? ==>
      && (patch.completionReady ==> StageIds(contract.value.stages) <= CompletedStages(p, run))
      && |ActiveLeases(p, run)| + |patch.assignments| <= contract.value.maxParallelAssignments
  }

  predicate CopiesContract(contract: TeamContract, stage: TeamStageSpec, a: AssignmentProposal) {
    && a.goal == stage.goal
    && a.requiredCapabilities == stage.requiredCapabilities
    && a.exitCriteria == stage.exitCriteria
    && a.resultKind == stage.resultKind
    && a.contractVersion == contract.version
    && a.leaseSeconds == contract.leaseSeconds
    && a.contract == stage.assignmentContract
  }

  /** The stage-level conditions on one proposed assignment. */
  ghost predicate StageIsOpen(p: Projections, run: RunId, contract: TeamContract, views: seq<StagePlanView>, a: AssignmentProposal) {
    && a.stageId in StageIds(contract.stages)
    && a.stageId in ViewIds(views)
    && a.stageId !in CompletedStages(p, run)
    && a.stageId !in ActiveStages(p, run)
    && Elements(StageOf(contract.stages, a.stageId).dependsOn) <= CompletedStages(p, run)
    && a.attempt == LatestAttempt(p, run, a.stageId) + 1
    && a.assignmentId !in p.assignments
    && ViewFor(views, a.stageId).state.ActiveStage?
    && ViewFor(views, a.stageId).agentId == Some(a.agentId)
    && CopiesContract(contract, StageOf(contract.stages, a.stageId), a)
  }

  predicate AgentIsFit(p: Projections, a: AssignmentProposal) {
    && a.agentId in p.agents
    && !p.agents[a.agentId].status.Degraded? && !p.agents[a.agentId].status.Offline?
    && a.requiredCapabilities <= p.agents[a.agentId].capabilities
  }

  ghost predicate ProposalOk(p: Projections, run: RunId, contract: Option<TeamContract>, views: seq<StagePlanView>, a: AssignmentProposal) {
    && a.stageId in ViewIds(views)
    && (contract.Some? ==> StageIsOpen(p, run, contract.value, views, a))
    && AgentIsFit(p, a)
  }

  /** Existing and newly planned work together stay within each agent's concurrency. */
  ghost predicate LoadsOk(p: Projections, proposals: seq<AssignmentProposal>) {
    forall agent | agent in p.agents && CountAgent(proposals, agent) > 0 ::
      |AgentLeases(p, agent)| + CountAgent(proposals, agent) <= p.agents[agent].maxConcurrency
  }

  function ProposedStages(proposals: seq<AssignmentProposal>): set<StageId> {
    set a | a in proposals :: a.stageId
  }

  /** The state a stage must show, from durable completions, leases and the patch's own assignments. */
  ghost predicate ViewIsHonest(p: Projections, run: RunId, stage: TeamStageSpec, proposed: set<StageId>, state: StageState) {
    if stage.stageId in CompletedStages(p, run) then state.CompletedStage?
    else if stage.stageId in ActiveStages(p, run) + proposed then state.ActiveStage?
    else if !(Elements(stage.dependsOn) <= CompletedStages(p, run)) then state.PendingStage?
    else state.ReadyStage? || state.BlockedStage?
  }

  ghost predicate ViewsOk(p: Projections, run: RunId, contract: Option<TeamContract>, patch: PlanPatch) {
    contract.Some? ==>
      forall stage | stage in contract.value.stages && stage.stageId in ViewIds(patch.stages) ::
        ViewIsHonest(p, run, stage, ProposedStages(patch.assignments), ViewFor(patch.stages, stage.stageId).state)
  }

  ghost predicate Admissible(log: Log, p: Projections, run: RunId, contract: Option<TeamContract>, patch: PlanPatch) {
    && ShapeOk(log, run, contract, patch)
    && CapacityOk(p, run, contract, patch)
    && (forall a | a in patch.assignments :: ProposalOk(p, run, contract, patch.stages, a))
    && LoadsOk(p, patch.assignments)
    && ViewsOk(p, run, contract, patch)
  }
}
