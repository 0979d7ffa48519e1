/** Which plan patches the kernel accepts, told on the log, the rows and the contract alone. */
module AdmissionLaws {
  import opened Contracts
  import opened Events
  import opened Projection
  import opened TeamGraph
  import opened Orchestration
  import opened PolicyFacts
  import opened Admission

  // ---- what the rows say ----

  /** Some assignment of the run did the stage. */
  ghost predicate IsDone(p: Projections, run: RunId, stage: StageId) {
    exists id :: id in p.assignments && p.assignments[id].run == run && p.assignments[id].stage == Some(stage)
      && p.assignments[id].status in {Succeeded, Completed}
  }

  /** Some active lease of the run is on the stage. */
  ghost predicate IsHeld(p: Projections, run: RunId, stage: StageId) {
    exists id :: id in p.leases && p.leases[id].run == run && p.leases[id].stage == Some(stage) && p.leases[id].status == ActiveLease
  }

  /** One more than the largest recorded attempt of the stage. */
  ghost predicate IsNextAttempt(p: Projections, run: RunId, stage: StageId, attempt: nat) {
    && attempt >= 1
    && (forall id | id in p.assignments && p.assignments[id].run == run && p.assignments[id].stage == Some(stage) ::
          p.assignments[id].attempt < attempt)
    && (attempt == 1 || exists id | id in p.assignments ::
          p.assignments[id].run == run && p.assignments[id].stage == Some(stage) && p.assignments[id].attempt == attempt - 1)
  }

  /** One more than the largest revision the log has of the run. */
  ghost predicate IsNextRevision(log: Log, run: RunId, revision: nat) {
    && revision >= 1
    && (forall e | e in log && e.runId == run && e.fact.PlanPatched? :: e.fact.revision < revision)
    && (revision == 1 || exists e :: e in log && e.runId == run && e.fact == PlanPatched(revision - 1))
  }

  /** What the first `run.created` of the run carries. */
  ghost predicate IsContractOf(log: Log, run: RunId, contract: Option<TeamContract>) {
    if exists i | 0 <= i < |log| :: IsBirth(log, i, run)
    then exists i | 0 <= i < |log| :: IsBirth(log, i, run) && log[i].fact.contract == contract
    else contract == None
  }

  ghost predicate IsBirth(log: Log, i: nat, run: RunId)
    requires i < |log|
  {
    && log[i].runId == run && log[i].fact.RunCreated?
    && forall j | 0 <= j < i :: !(log[j].runId == run && log[j].fact.RunCreated?)
  }

  lemma RowsTell(p: Projections, run: RunId, stage: StageId)
    ensures stage in CompletedStages(p, run) <==> IsDone(p, run, stage)
    ensures stage in ActiveStages(p, run) <==> IsHeld(p, run, stage)
  {}

  lemma LeasesAre(p: Projections, run: RunId, agent: AgentId)
    ensures ActiveLeases(p, run) == set id | id in p.leases && p.leases[id].run == run && p.leases[id].status == ActiveLease
    ensures AgentLeases(p, agent) == set id | id in p.leases && p.leases[id].agent == agent && p.leases[id].status == ActiveLease
  {}

  lemma NextAttemptIs(p: Projections, run: RunId, stage: StageId, attempt: nat)
    ensures IsNextAttempt(p, run, stage, attempt) <==> attempt == LatestAttempt(p, run, stage) + 1
  {
    var values := AttemptsOf(p, run, stage);
    assert forall id | id in p.assignments && p.assignments[id].run == run && p.assignments[id].stage == Some(stage) ::
      p.assignments[id].attempt in values;
  }

  lemma {:induction false} NextRevisionIs(log: Log, run: RunId, revision: nat)
    ensures IsNextRevision(log, run, revision) <==> revision == LatestRevision(log, run) + 1
  {
    LatestIsLargest(log, run);
    if LatestRevision(log, run) > 0 {
      var e :| e in log && e.runId == run && e.fact == PlanPatched(LatestRevision(log, run));
    }
  }

  lemma {:induction false} LatestIsLargest(log: Log, run: RunId)
    ensures forall e | e in log && e.runId == run && e.fact.PlanPatched? :: e.fact.revision <= LatestRevision(log, run)
    ensures LatestRevision(log, run) == 0 || exists e :: e in log && e.runId == run && e.fact == PlanPatched(LatestRevision(log, run))
  {
    if log != [] {
      var front, last := log[..|log| - 1], log[|log| - 1];
      LatestIsLargest(front, run);
      assert log == front + [last];
      if LatestRevision(log, run) == LatestRevision(front, run) {
        if LatestRevision(front, run) > 0 {
          var e :| e in front && e.runId == run && e.fact == PlanPatched(LatestRevision(front, run));
          assert e in log;
        }
      } else {
        assert last in log && last.fact == PlanPatched(LatestRevision(log, run));
      }
    }
  }

  lemma {:induction false} ContractIsOfBirth(log: Log, run: RunId)
    ensures IsContractOf(log, run, PersistedContract(log, run))
    ensures CreatedEvent(log, run).Some? <==> exists i | 0 <= i < |log| :: IsBirth(log, i, run)
    ensures CreatedEvent(log, run).Some? ==> exists i | 0 <= i < |log| :: IsBirth(log, i, run) && Some(log[i]) == CreatedEvent(log, run)
  {
    if log != [] {
      var front, last := log[..|log| - 1], |log| - 1;
      ContractIsOfBirth(front, run);
      assert forall i | 0 <= i < last :: IsBirth(front, i, run) <==> IsBirth(log, i, run);
      if CreatedEvent(front, run).Some? {
        var i :| 0 <= i < last && IsBirth(front, i, run) && Some(front[i]) == CreatedEvent(front, run);
        assert IsBirth(log, i, run) && log[i] == front[i];
      } else if log[last].runId == run && log[last].fact.RunCreated? {
        NoneBornBefore(front, run);
        assert IsBirth(log, last, run);
      } else {
        assert forall i | 0 <= i < |log| :: !IsBirth(log, i, run);
      }
    }
  }

  lemma {:induction false} NoneBornBefore(log: Log, run: RunId)
    requires CreatedEvent(log, run).None?
    ensures forall e | e in log :: !(e.runId == run && e.fact.RunCreated?)
  {
    if log != [] {
      NoneBornBefore(log[..|log| - 1], run);
      assert log == log[..|log| - 1] + [log[|log| - 1]];
    }
  }

  // ---- what a patch must be ----

  /** The header continues the plan, the views show each stage of the contract once, nothing is proposed twice. */
  ghost predicate HeaderFits(log: Log, run: RunId, contract: Option<TeamContract>, patch: PlanPatch) {
    && (patch.blockedReason == None || patch.waitingReason == None)
    && (patch.blockedReason != None || patch.waitingReason != None ==> patch.assignments == [] && !patch.completionReady)
    && (patch.waitingReason == None ==> patch.waitingStageIds == [])
    && (patch.completionReady ==> patch.assignments == [])
    && IsNextRevision(log, run, patch.revision)
    && (forall i, j | 0 <= i < j < |patch.stages| :: patch.stages[i].stageId != patch.stages[j].stageId)
    && (forall i, j | 0 <= i < j < |patch.assignments| ::
          patch.assignments[i].assignmentId != patch.assignments[j].assignmentId && patch.assignments[i].stageId != patch.assignments[j].stageId)
    && (contract.Some? ==>
          && patch.contractId == contract.value.contractId && patch.contractVersion == contract.value.version
          && ShowsPlan(contract.value, patch.stages))
  }

  lemma HeaderMeans(log: Log, run: RunId, contract: Option<TeamContract>, patch: PlanPatch)
    requires contract.Some? ==> DistinctStageIds(contract.value.stages)
    ensures ShapeOk(log, run, contract, patch) <==> HeaderFits(log, run, contract, patch)
  {
    hide IsNextRevision, LatestRevision, MatchesPlan;
    NextRevisionIs(log, run, patch.revision);
    if contract.Some? {
      PlanIsShown(contract.value, patch.stages);
    }
  }

  ghost predicate ShowsPlan(contract: TeamContract, views: seq<StagePlanView>) {
    (forall stage | stage in contract.stages :: IsShown(views, stage)) && (forall v | v in views :: ShowsStage(contract, v))
  }

  ghost predicate IsShown(views: seq<StagePlanView>, stage: TeamStageSpec) {
    exists v | v in views :: v.stageId == stage.stageId
  }

  ghost predicate ShowsStage(contract: TeamContract, v: StagePlanView) {
    exists stage | stage in contract.stages :: stage.stageId == v.stageId && v.dependsOn == stage.dependsOn
  }

  lemma PlanIsShown(contract: TeamContract, views: seq<StagePlanView>)
    requires DistinctStageIds(contract.stages)
    ensures MatchesPlan(contract, views) <==> ShowsPlan(contract, views)
  {
    hide DistinctStageIds, IsShown;
    if MatchesPlan(contract, views) {
      forall stage | stage in contract.stages
        ensures IsShown(views, stage)
      {
        assert stage.stageId in ViewIds(views);
        ViewedIsShown(views, stage);
      }
      forall v | v in views
        ensures ShowsStage(contract, v)
      {
        assert v.stageId in ViewIds(views);
        var stage := StageOf(contract.stages, v.stageId);
        assert stage in contract.stages && stage.stageId == v.stageId && v.dependsOn == stage.dependsOn;
      }
    }
    if ShowsPlan(contract, views) {
      forall v | v in views && v.stageId in StageIds(contract.stages)
        ensures v.dependsOn == StageOf(contract.stages, v.stageId).dependsOn
      {
        var stage :| stage in contract.stages && stage.stageId == v.stageId && v.dependsOn == stage.dependsOn;
        StageOfIsUnique(contract.stages, stage);
      }
      assert ViewIds(views) == StageIds(contract.stages) by { SameIds(contract, views); }
    }
  }

  lemma ViewedIsShown(views: seq<StagePlanView>, stage: TeamStageSpec)
    requires stage.stageId in ViewIds(views)
    ensures IsShown(views, stage)
  {}

  lemma SameIds(contract: TeamContract, views: seq<StagePlanView>)
    requires ShowsPlan(contract, views)
    ensures ViewIds(views) == StageIds(contract.stages)
  {
    hide IsShown, ShowsStage;
    forall v | v in views
      ensures v.stageId in StageIds(contract.stages)
    {
      ShownIsPlanned(contract, v);
    }
    forall stage | stage in contract.stages
      ensures stage.stageId in ViewIds(views)
    {
      PlannedIsShown(views, stage);
    }
  }

  lemma ShownIsPlanned(contract: TeamContract, v: StagePlanView)
    requires ShowsStage(contract, v)
    ensures v.stageId in StageIds(contract.stages)
  {}

  lemma PlannedIsShown(views: seq<StagePlanView>, stage: TeamStageSpec)
    requires IsShown(views, stage)
    ensures stage.stageId in ViewIds(views)
  {}

  function RunLeases(p: Projections, run: RunId): set<AssignmentId> {
    set id | id in p.leases && p.leases[id].run == run && p.leases[id].status == ActiveLease
  }

  function LeasesOf(p: Projections, agent: AgentId): set<AssignmentId> {
    set id | id in p.leases && p.leases[id].agent == agent && p.leases[id].status == ActiveLease
  }

  /** Completion needs every stage done; leases and new assignments together stay within the parallel limit. */
  ghost predicate RoomIsLeft(p: Projections, run: RunId, contract: TeamContract, patch: PlanPatch) {
    && (patch.completionReady ==> forall stage | stage in contract.stages :: IsDone(p, run, stage.stageId))
    && |RunLeases(p, run)| + |patch.assignments| <= contract.maxParallelAssignments
  }

  lemma RoomMeans(p: Projections, run: RunId, contract: TeamContract, patch: PlanPatch)
    ensures CapacityOk(p, run, Some(contract), patch) <==> RoomIsLeft(p, run, contract, patch)
  {
    hide IsDone, CompletedStages;
    LeasesAre(p, run, 0);
    forall id
      ensures id in CompletedStages(p, run) <==> IsDone(p, run, id)
    {
      RowsTell(p, run, id);
    }
  }

  /** The stage is not done and not held, what it depends on is done, the attempt is the next one, and the text is the stage's. */
  ghost predicate ProposalFits(p: Projections, run: RunId, contract: TeamContract, stage: TeamStageSpec, view: StagePlanView, a: AssignmentProposal) {
    && !IsDone(p, run, a.stageId) && !IsHeld(p, run, a.stageId)
    && (forall d | d in stage.dependsOn :: IsDone(p, run, d))
    && IsNextAttempt(p, run, a.stageId, a.attempt)
    && a.assignmentId !in p.assignments
    && view.state == ActiveStage && view.agentId == Some(a.agentId)
    && a.goal == stage.goal && a.requiredCapabilities == stage.requiredCapabilities && a.exitCriteria == stage.exitCriteria
    && a.resultKind == stage.resultKind && a.contract == stage.assignmentContract
    && a.contractVersion == contract.version && a.leaseSeconds == contract.leaseSeconds
  }

  lemma OpenStageMeans(p: Projections, run: RunId, contract: TeamContract, views: seq<StagePlanView>, a: AssignmentProposal,
                       stage: TeamStageSpec, view: StagePlanView)
    requires DistinctStageIds(contract.stages) && DistinctViews(views)
    requires stage in contract.stages && stage.stageId == a.stageId && view in views && view.stageId == a.stageId
    ensures StageIsOpen(p, run, contract, views, a) <==> ProposalFits(p, run, contract, stage, view, a)
  {
    hide IsDone, IsHeld, IsNextAttempt, LatestAttempt, CompletedStages, ActiveStages, DistinctStageIds, DistinctViews;
    StageOfIsUnique(contract.stages, stage);
    ViewForIsUnique(views, view);
    RowsTell(p, run, a.stageId);
    NextAttemptIs(p, run, a.stageId, a.attempt);
    assert stage.stageId in StageIds(contract.stages) && view.stageId in ViewIds(views);
    forall d
      ensures d in CompletedStages(p, run) <==> IsDone(p, run, d)
    {
      RowsTell(p, run, d);
    }
    assert forall d :: d in Elements(stage.dependsOn) <==> d in stage.dependsOn;
  }

  lemma ViewForIsUnique(views: seq<StagePlanView>, view: StagePlanView)
    requires DistinctViews(views) && view in views
    ensures ViewFor(views, view.stageId) == view
  {
    var found := ViewFor(views, view.stageId);
    var i :| 0 <= i < |views| && views[i] == view;
    var j :| 0 <= j < |views| && views[j] == found;
    if i < j {
      assert views[i].stageId == views[j].stageId;
    } else if j < i {
      assert views[j].stageId == views[i].stageId;
    }
  }

  /** The agent is registered, neither degraded nor offline, and has every required capability. */
  predicate CanDo(p: Projections, a: AssignmentProposal) {
    && a.agentId in p.agents && p.agents[a.agentId].status in {Idle, Busy, Waiting}
    && forall c | c in a.requiredCapabilities :: c in p.agents[a.agentId].capabilities
  }

  lemma FitMeansCanDo(p: Projections, a: AssignmentProposal)
    ensures AgentIsFit(p, a) <==> CanDo(p, a)
  {}

  /** No agent gets more than it takes at once, counting what it holds in any run. */
  ghost predicate NobodyIsOverloaded(p: Projections, proposals: seq<AssignmentProposal>) {
    forall a | a in proposals && a.agentId in p.agents ::
      |LeasesOf(p, a.agentId)| + |set i | 0 <= i < |proposals| && proposals[i].agentId == a.agentId| <= p.agents[a.agentId].maxConcurrency
  }

  lemma {:induction false} CountIsNumber(proposals: seq<AssignmentProposal>, agent: AgentId)
    ensures CountAgent(proposals, agent) == |set i | 0 <= i < |proposals| && proposals[i].agentId == agent|
    ensures CountAgent(proposals, agent) > 0 <==> exists a :: a in proposals && a.agentId == agent
  {
    var all := set i | 0 <= i < |proposals| && proposals[i].agentId == agent;
    if proposals == [] {
      assert all == {};
    } else {
      var last := |proposals| - 1;
      var front := proposals[..last];
      CountIsNumber(front, agent);
      var some := set i | 0 <= i < |front| && front[i].agentId == agent;
      assert all == some + (if proposals[last].agentId == agent then {last} else {});
      assert proposals == front + [proposals[last]];
    }
  }

  lemma LoadsMean(p: Projections, proposals: seq<AssignmentProposal>)
    ensures LoadsOk(p, proposals) <==> NobodyIsOverloaded(p, proposals)
  {
    hide CountAgent;
    forall agent
      ensures CountAgent(proposals, agent) == |set i | 0 <= i < |proposals| && proposals[i].agentId == agent|
      ensures CountAgent(proposals, agent) > 0 <==> exists a :: a in proposals && a.agentId == agent
      ensures AgentLeases(p, agent) == LeasesOf(p, agent)
    {
      CountIsNumber(proposals, agent);
      LeasesAre(p, 0, agent);
    }
  }

  /** A stage is shown done, active, pending or else ready or blocked, as the rows and the patch itself have it. */
  ghost predicate ViewIsTrue(p: Projections, run: RunId, patch: PlanPatch, stage: TeamStageSpec, state: StageState) {
    if IsDone(p, run, stage.stageId) then state == CompletedStage
    else if IsHeld(p, run, stage.stageId) || exists a :: a in patch.assignments && a.stageId == stage.stageId then state == ActiveStage
    else if exists d :: d in stage.dependsOn && !IsDone(p, run, d) then state == PendingStage
    else state == ReadyStage || state == BlockedStage
  }

  lemma HonestMeansTrue(p: Projections, run: RunId, patch: PlanPatch, stage: TeamStageSpec, state: StageState)
    ensures ViewIsHonest(p, run, stage, ProposedStages(patch.assignments), state) <==> ViewIsTrue(p, run, patch, stage, state)
  {
    hide IsDone, IsHeld, CompletedStages, ActiveStages;
    forall id
      ensures id in CompletedStages(p, run) <==> IsDone(p, run, id)
      ensures id in ActiveStages(p, run) <==> IsHeld(p, run, id)
    {
      RowsTell(p, run, id);
    }
    assert forall d :: d in Elements(stage.dependsOn) <==> d in stage.dependsOn;
  }

  /** Everything the kernel asks of a patch for a run with a contract. */
  ghost predicate IsSound(log: Log, p: Projections, run: RunId, contract: TeamContract, patch: PlanPatch) {
    && HeaderFits(log, run, Some(contract), patch)
    && RoomIsLeft(p, run, contract, patch)
    && (forall a | a in patch.assignments :: CanDo(p, a) && exists stage, view ::
          stage in contract.stages && stage.stageId == a.stageId && view in patch.stages && view.stageId == a.stageId
          && ProposalFits(p, run, contract, stage, view, a))
    && NobodyIsOverloaded(p, patch.assignments)
    && (forall stage, view | stage in contract.stages && view in patch.stages && view.stageId == stage.stageId ::
          ViewIsTrue(p, run, patch, stage, view.state))
  }

  /** The kernel's validation accepts exactly the sound patches. */
  lemma AdmissibleMeansSound(log: Log, p: Projections, run: RunId, contract: TeamContract, patch: PlanPatch)
    requires DistinctStageIds(contract.stages)
    ensures Admissible(log, p, run, Some(contract), patch) <==> IsSound(log, p, run, contract, patch)
  {
    hide ShapeOk, CapacityOk, RoomIsLeft, ProposalOk, AgentIsFit, CanDo, LoadsOk, NobodyIsOverloaded, ViewsOk, HeaderFits, ProposalFits,
      ViewIsTrue, DistinctStageIds;
    HeaderMeans(log, run, Some(contract), patch);
    RoomMeans(p, run, contract, patch);
    LoadsMean(p, patch.assignments);
    if HeaderFits(log, run, Some(contract), patch) {
      HeaderIsDistinct(log, run, contract, patch);
      forall a | a in patch.assignments
        ensures ProposalOk(p, run, Some(contract), patch.stages, a) <==> CanDo(p, a) && FitsSomewhere(p, run, contract, patch, a)
      {
        ProposalMeans(p, run, contract, patch, a);
      }
      ViewsMean(p, run, contract, patch);
    }
  }

  ghost predicate FitsSomewhere(p: Projections, run: RunId, contract: TeamContract, patch: PlanPatch, a: AssignmentProposal) {
    exists stage, view ::
      stage in contract.stages && stage.stageId == a.stageId && view in patch.stages && view.stageId == a.stageId
      && ProposalFits(p, run, contract, stage, view, a)
  }

  lemma HeaderIsDistinct(log: Log, run: RunId, contract: TeamContract, patch: PlanPatch)
    requires HeaderFits(log, run, Some(contract), patch)
    ensures DistinctViews(patch.stages) && ShowsPlan(contract, patch.stages)
  {
    hide IsNextRevision;
  }

  lemma ProposalMeans(p: Projections, run: RunId, contract: TeamContract, patch: PlanPatch, a: AssignmentProposal)
    requires DistinctStageIds(contract.stages) && DistinctViews(patch.stages)
    ensures ProposalOk(p, run, Some(contract), patch.stages, a) <==> CanDo(p, a) && FitsSomewhere(p, run, contract, patch, a)
  {
    hide StageIsOpen, AgentIsFit, CanDo, ProposalFits, DistinctStageIds, DistinctViews;
    FitMeansCanDo(p, a);
    if ProposalOk(p, run, Some(contract), patch.stages, a) {
      OpenStageIsPlanned(p, run, contract, patch.stages, a);
      var stage, view := StageOf(contract.stages, a.stageId), ViewFor(patch.stages, a.stageId);
      OpenStageMeans(p, run, contract, patch.stages, a, stage, view);
      assert ProposalFits(p, run, contract, stage, view, a);
    }
    if FitsSomewhere(p, run, contract, patch, a) {
      var stage, view :| stage in contract.stages && stage.stageId == a.stageId && view in patch.stages && view.stageId == a.stageId
        && ProposalFits(p, run, contract, stage, view, a);
      OpenStageMeans(p, run, contract, patch.stages, a, stage, view);
      assert view.stageId in ViewIds(patch.stages);
    }
  }

  lemma OpenStageIsPlanned(p: Projections, run: RunId, contract: TeamContract, views: seq<StagePlanView>, a: AssignmentProposal)
    requires StageIsOpen(p, run, contract, views, a)
    ensures a.stageId in StageIds(contract.stages) && a.stageId in ViewIds(views)
  {}

  lemma ViewsMean(p: Projections, run: RunId, contract: TeamContract, patch: PlanPatch)
    requires DistinctViews(patch.stages)
    ensures ViewsOk(p, run, Some(contract), patch) <==>
      forall stage, view | stage in contract.stages && view in patch.stages && view.stageId == stage.stageId ::
        ViewIsTrue(p, run, patch, stage, view.state)
  {
    hide ViewIsHonest, ViewIsTrue, DistinctViews;
    forall stage, view | stage in contract.stages && view in patch.stages && view.stageId == stage.stageId
      ensures stage.stageId in ViewIds(patch.stages) && ViewFor(patch.stages, stage.stageId) == view
      ensures ViewIsHonest(p, run, stage, ProposedStages(patch.assignments), view.state) <==> ViewIsTrue(p, run, patch, stage, view.state)
    {
      assert view.stageId in ViewIds(patch.stages);
      ViewForIsUnique(patch.stages, view);
      HonestMeansTrue(p, run, patch, stage, view.state);
    }
    forall stage | stage in contract.stages && stage.stageId in ViewIds(patch.stages)
      ensures ViewFor(patch.stages, stage.stageId) in patch.stages && ViewFor(patch.stages, stage.stageId).stageId == stage.stageId
    {}
  }

  /** Without a contract the header, the agents and their loads are all that is asked for. */
  lemma AdmissibleWithoutContract(log: Log, p: Projections, run: RunId, patch: PlanPatch)
    ensures Admissible(log, p, run, None, patch) <==>
      && HeaderFits(log, run, None, patch)
      && (forall a | a in patch.assignments :: CanDo(p, a) && exists v :: v in patch.stages && v.stageId == a.stageId)
      && NobodyIsOverloaded(p, patch.assignments)
  {
    hide ShapeOk, AgentIsFit, CanDo, LoadsOk, NobodyIsOverloaded, HeaderFits;
    HeaderMeans(log, run, None, patch);
    LoadsMean(p, patch.assignments);
    forall a | a in patch.assignments
      ensures AgentIsFit(p, a) <==> CanDo(p, a)
    {
      FitMeansCanDo(p, a);
    }
  }
}
