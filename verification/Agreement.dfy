/** The supervisor's policy and the kernel's validator, written separately, agree on reachable states. */
module Agreement {
  import opened Contracts
  import opened Events
  import opened Projection
  import opened TeamGraph
  import opened Orchestration
  import opened PolicyFacts
  import opened Admission
  import opened TeamRuns
  import opened TeamTheorems

  /**
    The context is what the runtime puts together from three reads, one after the other: the run's own
    rows, then the rows of all runs, then the log.
   */
  ghost predicate IsContextBetween(context: SupervisorContext, runView: Projections, globalView: Projections, log: Log, run: RunId) {
    && context.run == run
    && context.revision == LatestRevision(log, run)
    && CardsDescribe(context.cards, globalView)
    && context.statuses == (map agent | agent in globalView.agents :: globalView.agents[agent].status)
    && context.completed == CompletedStages(runView, run)
    && context.active == ActiveStages(runView, run)
    && context.activeAgents.Keys == ActiveStages(runView, run)
    && (forall stage :: At(context.attempts, stage) == LatestAttempt(runView, run, stage))
    && (forall agent :: At(context.loads, agent) == |AgentLeases(globalView, agent)|)
  }

  /** All three reads saw this very state. */
  ghost predicate IsContextOf(context: SupervisorContext, log: Log, p: Projections, run: RunId) {
    IsContextBetween(context, p, p, log, run)
  }

  ghost predicate CardsDescribe(cards: seq<AgentCard>, p: Projections) {
    && OneCardEach(cards)
    && (forall card | card in cards ::
          && card.agentId in p.agents
          && card.capabilities == p.agents[card.agentId].capabilities
          && card.maxConcurrency == p.agents[card.agentId].maxConcurrency)
    && (set card | card in cards :: card.agentId) == p.agents.Keys
  }

  /** Ids of the policy's form name the run, stage and attempt they were made for. */
  ghost predicate HonestIds(p: Projections) {
    forall id | id in p.assignments && id.OfAttempt? ::
      && p.assignments[id].run == id.run
      && p.assignments[id].stage == Some(id.stage)
      && p.assignments[id].attempt == id.attempt
  }

  // ---- shape ----

  lemma {:induction false} ViewForFinds(views: seq<StagePlanView>, i: nat)
    requires DistinctViews(views) && i < |views|
    ensures views[i].stageId in ViewIds(views) && ViewFor(views, views[i].stageId) == views[i]
  {
    assert views[i] in views;
    if i > 0 {
      assert views[0].stageId != views[i].stageId;
      ViewForFinds(views[1..], i - 1);
    }
  }

  lemma ViewsFollowStages(contract: TeamContract, patch: PlanPatch, i: nat, completed: set<StageId>, active: set<StageId>,
      ready: set<StageId>, chosen: map<StageId, AgentId>, blocked: set<StageId>, agents: map<StageId, AgentId>)
    requires DistinctStageIds(contract.stages) && i < |contract.stages|
    requires patch.stages == StageViews(contract.stages, completed, active, ready, chosen, blocked, agents)
    ensures contract.stages[i].stageId in ViewIds(patch.stages)
    ensures ViewFor(patch.stages, contract.stages[i].stageId)
      == ViewOf(contract.stages[i], completed, active, ready, chosen, blocked, agents)
  {
    hide StageViews;
    ViewForFinds(patch.stages, i);
  }

  lemma ViewsKeepDependencies(contract: TeamContract, views: seq<StagePlanView>)
    requires DistinctStageIds(contract.stages) && |views| == |contract.stages|
    requires forall i | 0 <= i < |views| ::
      views[i].stageId == contract.stages[i].stageId && views[i].dependsOn == contract.stages[i].dependsOn
    ensures DistinctViews(views) && MatchesPlan(contract, views)
  {
    forall i | 0 <= i < |views|
      ensures StageOf(contract.stages, contract.stages[i].stageId) == contract.stages[i]
      ensures views[i].stageId in ViewIds(views)
    {
      StageOfIsUnique(contract.stages, contract.stages[i]);
      assert views[i] in views;
    }
  }

  lemma ViewsMatchPlan(contract: TeamContract, views: seq<StagePlanView>, completed: set<StageId>, active: set<StageId>,
      ready: set<StageId>, chosen: map<StageId, AgentId>, blocked: set<StageId>, agents: map<StageId, AgentId>)
    requires DistinctStageIds(contract.stages)
    requires views == StageViews(contract.stages, completed, active, ready, chosen, blocked, agents)
    ensures DistinctViews(views) && MatchesPlan(contract, views)
  {
    hide DistinctViews, MatchesPlan, DistinctStageIds, StageViews;
    ViewsKeepDependencies(contract, views);
  }

  lemma ReadyFacts(contract: TeamContract, context: SupervisorContext)
    requires DistinctStageIds(contract.stages)
    ensures DistinctStageIds(ReadyStages(contract, context))
    ensures forall s :: s in ReadyStages(contract, context) <==>
      s in contract.stages && IsReadyCandidate(Restricted(contract, context), s)
      && !IsExhausted(contract, Restricted(contract, context), s)
  {
    OrderedKeepsDistinct(contract.stages);
    ReadyKeepsDistinct(contract, Restricted(contract, context), Ordered(contract.stages));
  }

  /** Every selected proposal comes from a ready contract stage. */
  lemma SelectedFacts(contract: TeamContract, context: SupervisorContext, a: AssignmentProposal)
    requires DistinctStageIds(contract.stages) && a in SelectionFor(contract, context).selected
    ensures a.stageId in StageIds(contract.stages)
    ensures IsReadyCandidate(Restricted(contract, context), StageOf(contract.stages, a.stageId))
    ensures !IsExhausted(contract, Restricted(contract, context), StageOf(contract.stages, a.stageId))
    ensures a == ProposalFor(contract, Restricted(contract, context), StageOf(contract.stages, a.stageId), a.agentId)
    ensures Supported(Restricted(contract, context), a)
  {
    hide Ready, Ordered, SelectAll, Supported, IsReadyCandidate, DistinctStageIds;
    var ready := ReadyStages(contract, context);
    var local := Restricted(contract, context);
    ReadyFacts(contract, context);
    SelectionOrigin(contract, local, RemainingCapacity(contract, local.active), ready);
    var stage := StageOf(ready, a.stageId);
    assert stage in ready;
    StageOfIsUnique(contract.stages, stage);
  }

  lemma SelectionShape(contract: TeamContract, context: SupervisorContext)
    requires DistinctStageIds(contract.stages)
    ensures DistinctAssignments(SelectionFor(contract, context).selected)
    ensures DistinctProposals(SelectionFor(contract, context).selected)
  {
    hide Ready, Ordered, SelectAll, IsReadyCandidate, DistinctStageIds, Supported;
    var local := Restricted(contract, context);
    ReadyFacts(contract, context);
    SelectionOrigin(contract, local, RemainingCapacity(contract, local.active), ReadyStages(contract, context));
    var selected := SelectionFor(contract, context).selected;
    forall i, j | 0 <= i < j < |selected|
      ensures selected[i].assignmentId != selected[j].assignmentId
    {
      assert selected[i] in selected && selected[j] in selected;
      assert selected[i].stageId != selected[j].stageId;
    }
  }

  lemma DraftViewsMatchPlan(contract: TeamContract, context: SupervisorContext)
    requires DistinctStageIds(contract.stages)
    ensures DistinctViews(Draft(contract, context).stages) && MatchesPlan(contract, Draft(contract, context).stages)
  {
    hide ReadyStages, SelectionFor, StageViews, DistinctStageIds, MatchesPlan, DistinctViews, Exhausted, BlockedReason,
      WaitingReason, ChosenAgents;
    var local := Restricted(contract, context);
    ViewsMatchPlan(contract, StageViews(contract.stages, local.completed, local.active, {}, map[], {}, map[]),
      local.completed, local.active, {}, map[], {}, map[]);
    var sel := SelectionFor(contract, context);
    var exhausted := Exhausted(contract, local);
    var blocked := exhausted + (if BlockedReason(exhausted, sel, local.active).Some? then Elements(sel.unavailable) else {});
    ViewsMatchPlan(contract,
      StageViews(contract.stages, local.completed, local.active, StageIds(ReadyStages(contract, context)),
        ChosenAgents(sel.selected), blocked, context.activeAgents),
      local.completed, local.active, StageIds(ReadyStages(contract, context)), ChosenAgents(sel.selected), blocked,
      context.activeAgents);
  }

  lemma DraftHeader(contract: TeamContract, context: SupervisorContext)
    ensures var patch := Draft(contract, context);
      && patch.revision == context.revision + 1
      && patch.contractId == contract.contractId
      && patch.contractVersion == contract.version
  {
    hide ReadyStages, SelectionFor, StageViews, Exhausted, BlockedReason, WaitingReason, ChosenAgents;
  }

  lemma DraftShape(log: Log, p: Projections, run: RunId, contract: TeamContract, context: SupervisorContext)
    requires DistinctStageIds(contract.stages) && IsContextOf(context, log, p, run)
    requires PatchValidates(Draft(contract, context))
    ensures ShapeOk(log, run, Some(contract), Draft(contract, context))
  {
    hide Draft, SelectionFor, DistinctStageIds, PatchValidates, LatestRevision, MatchesPlan, DistinctViews,
      DistinctAssignments, DistinctProposals, CardsDescribe, CompletedStages, ActiveStages, LatestAttempt, AgentLeases;
    SelectionShape(contract, context);
    NothingIsDistinct();
    DraftViewsMatchPlan(contract, context);
    DraftHeader(contract, context);
    DraftKind(contract, context);
  }

  lemma NothingIsDistinct()
    ensures DistinctAssignments([]) && DistinctProposals([])
  {}

  // ---- capacity ----

  /** With one active lease a stage, counting stages counts leases. */
  lemma {:induction false} LeasesAreStages(p: Projections, ids: set<AssignmentId>, stages: set<StageId>)
    requires forall id | id in ids :: id in p.leases && p.leases[id].stage.Some?
    requires forall a, b | a in ids && b in ids && a != b :: p.leases[a].stage != p.leases[b].stage
    requires stages == set id | id in ids :: p.leases[id].stage.value
    ensures |ids| == |stages|
    decreases |ids|
  {
    if ids == {} {
      assert stages == {};
    } else {
      var id :| id in ids;
      var stage := p.leases[id].stage.value;
      assert stages - {stage} == set x | x in ids - {id} :: p.leases[x].stage.value by {
        forall s | s in stages - {stage}
          ensures s in set x | x in ids - {id} :: p.leases[x].stage.value
        {
          var x :| x in ids && p.leases[x].stage.value == s;
          assert x in ids - {id};
        }
      }
      LeasesAreStages(p, ids - {id}, stages - {stage});
    }
  }

  lemma ActiveStagesCountLeases(log: Log, p: Projections, run: RunId, contract: TeamContract)
    requires LinksHold(log, p) && StagesExclusive(p) && PersistedContract(log, run) == Some(contract)
    ensures |ActiveLeases(p, run)| == |ActiveStages(p, run)|
    ensures ActiveStages(p, run) <= StageIds(contract.stages)
  {
    hide AcceptedContract, PersistedContract;
    forall id | id in ActiveLeases(p, run)
      ensures Occupies(p, id)
    {}
    assert ActiveStages(p, run) == set id | id in ActiveLeases(p, run) :: p.leases[id].stage.value;
    LeasesAreStages(p, ActiveLeases(p, run), ActiveStages(p, run));
  }

  lemma DraftCapacity(log: Log, p: Projections, run: RunId, contract: TeamContract, context: SupervisorContext)
    requires TeamInvariant(log, p) && PersistedContract(log, run) == Some(contract) && IsContextOf(context, log, p, run)
    ensures CapacityOk(p, run, Some(contract), Draft(contract, context))
  {
    hide StagesExclusive, DependenciesMet, Ready, Ordered, StageViews, LinksHold, CardsDescribe, ActiveLeases, ActiveStages,
      CompletedStages, Exhausted, PersistedContract, LatestAttempt, AgentLeases, SelectAll;
    var local := Restricted(contract, context);
    ActiveStagesCountLeases(log, p, run, contract);
    assert local.active == ActiveStages(p, run);
    CardsAreDistinct(context, log, p, run);
    SelectionLoads(contract, local, RemainingCapacity(contract, local.active), ReadyStages(contract, context));
  }

  lemma CardsAreDistinct(context: SupervisorContext, log: Log, p: Projections, run: RunId)
    requires IsContextOf(context, log, p, run)
    ensures DistinctCards(context.cards)
  {}

  // ---- proposals ----

  lemma NextIdIsFresh(p: Projections, run: RunId, stage: StageId, attempt: nat)
    requires HonestIds(p) && attempt == LatestAttempt(p, run, stage) + 1
    ensures OfAttempt(run, stage, attempt) !in p.assignments
  {
    forall id | id in p.assignments && id.OfAttempt? && id.run == run && id.stage == stage
      ensures id.attempt <= LatestAttempt(p, run, stage)
    {
      assert p.assignments[id].attempt in AttemptsOf(p, run, stage);
    }
  }

  lemma {:induction false} ChosenContains(selected: seq<AssignmentProposal>, i: nat)
    requires DistinctProposals(selected) && i < |selected|
    ensures selected[i].stageId in ChosenAgents(selected)
    ensures ChosenAgents(selected)[selected[i].stageId] == selected[i].agentId
  {
    var last := |selected| - 1;
    if i < last {
      ChosenContains(selected[..last], i);
      assert selected[i].stageId != selected[last].stageId;
    }
  }

  lemma {:induction false} ChosenAreProposed(selected: seq<AssignmentProposal>)
    ensures ChosenAgents(selected).Keys == ProposedStages(selected)
  {
    if selected != [] {
      var last := |selected| - 1;
      ChosenAreProposed(selected[..last]);
      assert selected == selected[..last] + [selected[last]];
    }
  }

  /** On the stages of the contract, the policy's local view is the durable one. */
  lemma LocalIsDurable(log: Log, p: Projections, run: RunId, contract: TeamContract, context: SupervisorContext, stage: StageId)
    requires IsContextOf(context, log, p, run) && stage in StageIds(contract.stages)
    ensures stage in Restricted(contract, context).completed <==> stage in CompletedStages(p, run)
    ensures stage in Restricted(contract, context).active <==> stage in ActiveStages(p, run)
    ensures At(Restricted(contract, context).attempts, stage) == LatestAttempt(p, run, stage)
    ensures Restricted(contract, context).run == run
    ensures Restricted(contract, context).completed == CompletedStages(p, run) * StageIds(contract.stages)
  {
    hide CompletedStages, ActiveStages, LatestAttempt, CardsDescribe, AgentLeases, LatestRevision, StageIds;
  }

  lemma DependenciesAreStages(contract: TeamContract, stage: TeamStageSpec)
    requires KnownDependencies(contract.stages) && stage in contract.stages
    ensures Elements(stage.dependsOn) <= StageIds(contract.stages)
  {}

  /** The stage-level half of admission for one drafted proposal. */
  lemma DraftStageIsOpen(log: Log, p: Projections, run: RunId, contract: TeamContract, context: SupervisorContext, a: AssignmentProposal)
    requires DistinctStageIds(contract.stages) && KnownDependencies(contract.stages)
    requires IsContextOf(context, log, p, run) && HonestIds(p)
    requires a in SelectionFor(contract, context).selected && Draft(contract, context).assignments == SelectionFor(contract, context).selected
    requires !Draft(contract, context).completionReady
    ensures StageIsOpen(p, run, contract, Draft(contract, context).stages, a)
  {
    hide Draft, IsContextOf, Restricted, SelectionFor, Supported, HonestIds, DistinctStageIds, KnownDependencies, CompletedStages,
      ActiveStages, LatestAttempt, ViewIds, ViewFor, StageIds;
    SelectedFacts(contract, context, a);
    var stage := StageOf(contract.stages, a.stageId);
    LocalIsDurable(log, p, run, contract, context, a.stageId);
    DependenciesAreStages(contract, stage);
    NextIdIsFresh(p, run, a.stageId, a.attempt);
    DraftViewOfProposal(contract, context, a);
  }

  lemma DraftViewOfProposal(contract: TeamContract, context: SupervisorContext, a: AssignmentProposal)
    requires DistinctStageIds(contract.stages)
    requires a in SelectionFor(contract, context).selected && !Draft(contract, context).completionReady
    ensures a.stageId in ViewIds(Draft(contract, context).stages)
    ensures ViewFor(Draft(contract, context).stages, a.stageId).state.ActiveStage?
    ensures ViewFor(Draft(contract, context).stages, a.stageId).agentId == Some(a.agentId)
  {
    hide Ready, Ordered, SelectAll, StageViews, Exhausted, Supported, DistinctStageIds;
    var sel := SelectionFor(contract, context);
    SelectedFacts(contract, context, a);
    SelectionShape(contract, context);
    var n :| 0 <= n < |sel.selected| && sel.selected[n] == a;
    ChosenContains(sel.selected, n);
    var i :| 0 <= i < |contract.stages| && contract.stages[i] == StageOf(contract.stages, a.stageId);
    DraftView(contract, context, i);
  }

  /** The view the draft carries for the i-th stage while work remains. */
  lemma DraftView(contract: TeamContract, context: SupervisorContext, i: nat)
    requires DistinctStageIds(contract.stages) && i < |contract.stages| && !Draft(contract, context).completionReady
    ensures
      var local := Restricted(contract, context);
      var sel := SelectionFor(contract, context);
      var exhausted := Exhausted(contract, local);
      var blocked := exhausted + (if BlockedReason(exhausted, sel, local.active).Some? then Elements(sel.unavailable) else {});
      && contract.stages[i].stageId in ViewIds(Draft(contract, context).stages)
      && ViewFor(Draft(contract, context).stages, contract.stages[i].stageId)
        == ViewOf(contract.stages[i], local.completed, local.active, StageIds(ReadyStages(contract, context)),
             ChosenAgents(sel.selected), blocked, context.activeAgents)
  {
    hide Ready, Ordered, SelectAll, StageViews, Exhausted, DistinctStageIds, ViewOf, ViewFor;
    var local := Restricted(contract, context);
    var sel := SelectionFor(contract, context);
    var exhausted := Exhausted(contract, local);
    var blocked := exhausted + (if BlockedReason(exhausted, sel, local.active).Some? then Elements(sel.unavailable) else {});
    ViewsFollowStages(contract, Draft(contract, context), i, local.completed, local.active,
      StageIds(ReadyStages(contract, context)), ChosenAgents(sel.selected), blocked, context.activeAgents);
  }

  lemma DraftAgentIsFit(log: Log, p: Projections, run: RunId, contract: TeamContract, context: SupervisorContext, a: AssignmentProposal)
    requires DistinctStageIds(contract.stages) && IsContextOf(context, log, p, run)
    requires a in SelectionFor(contract, context).selected
    ensures AgentIsFit(p, a)
  {
    hide Ready, Ordered, SelectAll, DistinctStageIds, CompletedStages, ActiveStages, LatestAttempt, AgentLeases, LatestRevision;
    SelectedFacts(contract, context, a);
  }

  lemma DraftLoads(log: Log, p: Projections, run: RunId, contract: TeamContract, context: SupervisorContext)
    requires IsContextOf(context, log, p, run)
    ensures LoadsOk(p, Draft(contract, context).assignments)
  {
    hide Ready, Ordered, SelectAll, StageViews, Exhausted, CompletedStages, ActiveStages, LatestAttempt, AgentLeases, LatestRevision;
    var local := Restricted(contract, context);
    SelectionLoads(contract, local, RemainingCapacity(contract, local.active), ReadyStages(contract, context));
    var sel := SelectionFor(contract, context);
    forall agent | agent in p.agents && CountAgent(sel.selected, agent) > 0
      ensures |AgentLeases(p, agent)| + CountAgent(sel.selected, agent) <= p.agents[agent].maxConcurrency
    {
      assert agent in set card | card in context.cards :: card.agentId;
      var card :| card in context.cards && card.agentId == agent;
      assert At(local.loads, agent) == |AgentLeases(p, agent)|;
    }
  }

  // ---- views ----

  lemma OpenStageIsListed(contract: TeamContract, context: SupervisorContext, stage: TeamStageSpec)
    requires DistinctStageIds(contract.stages) && KnownDependencies(contract.stages) && stage in contract.stages
    requires stage.stageId !in Restricted(contract, context).completed && stage.stageId !in Restricted(contract, context).active
    ensures Elements(stage.dependsOn) <= Restricted(contract, context).completed <==>
      stage.stageId in StageIds(ReadyStages(contract, context)) + Exhausted(contract, Restricted(contract, context))
    ensures forall id :: id in SelectionFor(contract, context).unavailable ==> id in StageIds(ReadyStages(contract, context))
  {
    hide Ready, Ordered, SelectAll;
    var local := Restricted(contract, context);
    ReadyFacts(contract, context);
    UnavailableAreReady(contract, local, RemainingCapacity(contract, local.active), ReadyStages(contract, context));
    if Elements(stage.dependsOn) <= local.completed {
      assert IsReadyCandidate(local, stage);
    } else {
      forall s | s in contract.stages && s.stageId == stage.stageId
        ensures s == stage
      {
        StageOfIsUnique(contract.stages, s);
        StageOfIsUnique(contract.stages, stage);
      }
    }
  }

  lemma {:induction false} UnavailableAreReady(contract: TeamContract, context: SupervisorContext, capacity: nat, ready: seq<TeamStageSpec>)
    ensures forall id :: id in SelectAll(contract, context, capacity, ready).unavailable ==> id in StageIds(ready)
  {
    if ready != [] {
      var last := |ready| - 1;
      UnavailableAreReady(contract, context, capacity, ready[..last]);
      assert ready[last] in ready;
    }
  }

  /** A view built from a local picture that agrees with durable state on this stage is honest. */
  lemma ViewOfIsHonest(p: Projections, run: RunId, stage: TeamStageSpec, completed: set<StageId>, active: set<StageId>,
      ready: set<StageId>, chosen: map<StageId, AgentId>, blocked: set<StageId>, agents: map<StageId, AgentId>)
    requires stage.stageId in completed <==> stage.stageId in CompletedStages(p, run)
    requires stage.stageId in active <==> stage.stageId in ActiveStages(p, run)
    requires stage.stageId !in completed + active + chosen.Keys ==>
      (Elements(stage.dependsOn) <= CompletedStages(p, run) <==> stage.stageId in ready + blocked)
    ensures ViewIsHonest(p, run, stage, chosen.Keys, ViewOf(stage, completed, active, ready, chosen, blocked, agents).state)
  {
    hide CompletedStages, ActiveStages;
  }

  lemma DraftViewIsHonest(log: Log, p: Projections, run: RunId, contract: TeamContract, context: SupervisorContext, i: nat)
    requires DistinctStageIds(contract.stages) && KnownDependencies(contract.stages) && i < |contract.stages|
    requires IsContextOf(context, log, p, run) && !Draft(contract, context).completionReady
    ensures contract.stages[i].stageId in ViewIds(Draft(contract, context).stages)
    ensures ViewIsHonest(p, run, contract.stages[i], ProposedStages(Draft(contract, context).assignments),
      ViewFor(Draft(contract, context).stages, contract.stages[i].stageId).state)
  {
    hide IsContextOf, Draft, SelectionFor, Restricted, Exhausted, ReadyStages, DistinctStageIds, KnownDependencies, CompletedStages,
      ActiveStages, ViewFor, ViewIds, ViewOf, ViewIsHonest, BlockedReason, ChosenAgents;
    var stage := contract.stages[i];
    var local := Restricted(contract, context);
    var sel := SelectionFor(contract, context);
    var exhausted := Exhausted(contract, local);
    var blocked := exhausted + (if BlockedReason(exhausted, sel, local.active).Some? then Elements(sel.unavailable) else {});
    DraftView(contract, context, i);
    DraftSelects(contract, context);
    ChosenAreProposed(sel.selected);
    LocalIsDurable(log, p, run, contract, context, stage.stageId);
    DependenciesAreStages(contract, stage);
    if stage.stageId !in local.completed && stage.stageId !in local.active {
      OpenStageIsListed(contract, context, stage);
    }
    ViewOfIsHonest(p, run, stage, local.completed, local.active, StageIds(ReadyStages(contract, context)),
      ChosenAgents(sel.selected), blocked, context.activeAgents);
  }

  lemma DraftSelects(contract: TeamContract, context: SupervisorContext)
    requires !Draft(contract, context).completionReady
    ensures Draft(contract, context).assignments == SelectionFor(contract, context).selected
  {}

  lemma CompletionViewIsHonest(log: Log, p: Projections, run: RunId, contract: TeamContract, context: SupervisorContext, i: nat)
    requires DistinctStageIds(contract.stages) && i < |contract.stages|
    requires IsContextOf(context, log, p, run) && Draft(contract, context).completionReady
    ensures contract.stages[i].stageId in ViewIds(Draft(contract, context).stages)
    ensures ViewIsHonest(p, run, contract.stages[i], ProposedStages(Draft(contract, context).assignments),
      ViewFor(Draft(contract, context).stages, contract.stages[i].stageId).state)
  {
    hide Ready, Ordered, SelectAll, StageViews, Exhausted, DistinctStageIds, CompletedStages, ActiveStages, LatestAttempt,
      AgentLeases, LatestRevision, CardsDescribe, ViewFor;
    var local := Restricted(contract, context);
    assert contract.stages[i].stageId in StageIds(contract.stages);
    ViewsFollowStages(contract, Draft(contract, context), i, local.completed, local.active, {}, map[], {}, map[]);
  }

  lemma DraftViewsOk(log: Log, p: Projections, run: RunId, contract: TeamContract, context: SupervisorContext)
    requires DistinctStageIds(contract.stages) && KnownDependencies(contract.stages)
    requires IsContextOf(context, log, p, run)
    ensures ViewsOk(p, run, Some(contract), Draft(contract, context))
  {
    hide Draft, IsContextOf, ViewIsHonest, DistinctStageIds, KnownDependencies;
    var patch := Draft(contract, context);
    forall stage | stage in contract.stages && stage.stageId in ViewIds(patch.stages)
      ensures ViewIsHonest(p, run, stage, ProposedStages(patch.assignments), ViewFor(patch.stages, stage.stageId).state)
    {
      var i :| 0 <= i < |contract.stages| && contract.stages[i] == stage;
      if patch.completionReady {
        CompletionViewIsHonest(log, p, run, contract, context, i);
      } else {
        DraftViewIsHonest(log, p, run, contract, context, i);
      }
    }
  }

  lemma DraftKind(contract: TeamContract, context: SupervisorContext)
    ensures var patch := Draft(contract, context);
      patch.assignments == [] || (!patch.completionReady && patch.assignments == SelectionFor(contract, context).selected)
  {}

  /**
    Whenever the policy, reading a reachable state, builds a patch that passes the patch's own
    validator, the kernel's validator accepts that patch against the same state.
   */
  lemma SupervisorAndKernelAgree(log: Log, run: RunId, contract: TeamContract, context: SupervisorContext)
    requires TeamState(log) && PersistedContract(log, run) == Some(contract) && HonestIds(Fold(log))
    requires IsContextOf(context, log, Fold(log), run)
    requires Proposal(contract, context).Built?
    ensures Admissible(log, Fold(log), run, Some(contract), Proposal(contract, context).patch)
  {
    hide Draft, IsContextOf, ShapeOk, CapacityOk, LoadsOk, ViewsOk, StageIsOpen, AgentIsFit, HonestIds, TeamInvariant, Fold,
      PersistedContract, PatchValidates, DistinctStageIds, KnownDependencies, StageAgrees, Acyclic;
    var p := Fold(log);
    var patch := Draft(contract, context);
    DraftShape(log, p, run, contract, context);
    DraftCapacity(log, p, run, contract, context);
    DraftLoads(log, p, run, contract, context);
    DraftViewsOk(log, p, run, contract, context);
    DraftKind(contract, context);
    forall a | a in patch.assignments
      ensures ProposalOk(p, run, Some(contract), patch.stages, a)
    {
      DraftStageIsOpen(log, p, run, contract, context, a);
      DraftAgentIsFit(log, p, run, contract, context, a);
      OpenStageHasView(p, run, contract, patch.stages, a);
    }
  }

  lemma OpenStageHasView(p: Projections, run: RunId, contract: TeamContract, views: seq<StagePlanView>, a: AssignmentProposal)
    requires StageIsOpen(p, run, contract, views, a)
    ensures a.stageId in ViewIds(views)
  {}
}
