/** What the supervisor policy guarantees about every patch it drafts. */
module PolicyFacts {
  import opened Contracts
  import opened Events
  import opened TeamGraph
  import opened Orchestration

  function CountAgent(proposals: seq<AssignmentProposal>, agent: AgentId): nat {
    if proposals == [] then 0
    else CountAgent(proposals[..|proposals| - 1], agent) + (if proposals[|proposals| - 1].agentId == agent then 1 else 0)
  }

  lemma CountAgentAppend(proposals: seq<AssignmentProposal>, last: AssignmentProposal, agent: AgentId)
    ensures CountAgent(proposals + [last], agent) == CountAgent(proposals, agent) + (if last.agentId == agent then 1 else 0)
  {
    assert (proposals + [last])[..|proposals|] == proposals;
  }

  ghost predicate DistinctCards(cards: seq<AgentCard>) {
    forall a, b | a in cards && b in cards && a.agentId == b.agentId :: a == b
  }

  predicate OneCardEach(cards: seq<AgentCard>) {
    forall i, j | 0 <= i < j < |cards| :: cards[i].agentId != cards[j].agentId
  }

  ghost predicate DistinctProposals(proposals: seq<AssignmentProposal>) {
    forall i, j | 0 <= i < j < |proposals| :: proposals[i].stageId != proposals[j].stageId
  }

  /** The agent of a proposal was on the roster, available, and capable of the stage. */
  ghost predicate Supported(context: SupervisorContext, p: AssignmentProposal) {
    exists card :: card in context.cards && card.agentId == p.agentId && p.requiredCapabilities <= card.capabilities
      && (StatusOf(context, card.agentId).Idle? || StatusOf(context, card.agentId).Busy?)
  }

  /** Proposals made from one stage each, copying the contract's text for it. */
  ghost predicate FromStages(contract: TeamContract, context: SupervisorContext, stages: seq<TeamStageSpec>,
                             proposals: seq<AssignmentProposal>)
  {
    forall p | p in proposals ::
      && p.stageId in StageIds(stages)
      && p == ProposalFor(contract, context, StageOf(stages, p.stageId), p.agentId)
      && Supported(context, p)
  }

  ghost predicate LoadsTrack(context: SupervisorContext, sel: Selection) {
    forall agent :: At(sel.loads, agent) == At(context.loads, agent) + CountAgent(sel.selected, agent)
  }

  ghost predicate WithinConcurrency(context: SupervisorContext, proposals: seq<AssignmentProposal>) {
    forall card | card in context.cards && CountAgent(proposals, card.agentId) > 0 ::
      At(context.loads, card.agentId) + CountAgent(proposals, card.agentId) <= card.maxConcurrency
  }

  lemma ConsiderKeepsLoads(contract: TeamContract, context: SupervisorContext, capacity: nat, sel: Selection, stage: TeamStageSpec)
    requires DistinctCards(context.cards)
    requires LoadsTrack(context, sel) && WithinConcurrency(context, sel.selected)
    ensures LoadsTrack(context, Consider(contract, context, capacity, sel, stage))
    ensures WithinConcurrency(context, Consider(contract, context, capacity, sel, stage).selected)
  {
    var next := Consider(contract, context, capacity, sel, stage);
    if |next.selected| > |sel.selected| {
      var card := SelectCard(stage, context, sel.loads).value;
      var added := ProposalFor(contract, context, stage, card.agentId);
      forall agent
        ensures CountAgent(next.selected, agent) == CountAgent(sel.selected, agent) + (if agent == card.agentId then 1 else 0)
      {
        CountAgentAppend(sel.selected, added, agent);
      }
      assert At(sel.loads, card.agentId) < card.maxConcurrency;
    }
  }

  lemma NoLoadsYet(context: SupervisorContext)
    ensures LoadsTrack(context, Selection([], [], [], context.loads)) && WithinConcurrency(context, [])
  {}

  lemma {:induction false} SelectionLoads(contract: TeamContract, context: SupervisorContext, capacity: nat, ready: seq<TeamStageSpec>)
    requires DistinctCards(context.cards)
    ensures var sel := SelectAll(contract, context, capacity, ready);
      LoadsTrack(context, sel) && WithinConcurrency(context, sel.selected) && |sel.selected| <= capacity
  {
    hide LoadsTrack, WithinConcurrency, DistinctCards;
    if ready == [] {
      NoLoadsYet(context);
    } else {
      var front := ready[..|ready| - 1];
      SelectionLoads(contract, context, capacity, front);
      ConsiderKeepsLoads(contract, context, capacity, SelectAll(contract, context, capacity, front), ready[|ready| - 1]);
    }
  }

  lemma StageOfPrefix(front: seq<TeamStageSpec>, last: TeamStageSpec, id: StageId)
    requires id in StageIds(front)
    ensures id in StageIds(front + [last]) && StageOf(front + [last], id) == StageOf(front, id)
  {
    var all := front + [last];
    var s :| s in front && s.stageId == id;
    assert s in all;
    if front[0].stageId != id {
      assert all[1..] == front[1..] + [last];
      assert s in front[1..];
      StageOfPrefix(front[1..], last, id);
    }
  }

  lemma StageOfLast(front: seq<TeamStageSpec>, last: TeamStageSpec)
    requires DistinctStageIds(front + [last])
    ensures last.stageId in StageIds(front + [last]) && StageOf(front + [last], last.stageId) == last
    ensures last.stageId !in StageIds(front)
  {
    assert last in front + [last];
    StageOfIsUnique(front + [last], last);
    DistinctWithLast(front, last);
  }

  lemma ConsiderKeepsOrigin(contract: TeamContract, context: SupervisorContext, capacity: nat, sel: Selection,
                            front: seq<TeamStageSpec>, last: TeamStageSpec)
    requires DistinctStageIds(front + [last])
    requires FromStages(contract, context, front, sel.selected) && DistinctProposals(sel.selected)
    ensures var next := Consider(contract, context, capacity, sel, last);
      FromStages(contract, context, front + [last], next.selected) && DistinctProposals(next.selected)
  {
    hide DistinctStageIds, Precedes;
    var next := Consider(contract, context, capacity, sel, last);
    StageOfLast(front, last);
    forall p | p in sel.selected
      ensures p.stageId in StageIds(front + [last]) && p.stageId != last.stageId
      ensures StageOf(front + [last], p.stageId) == StageOf(front, p.stageId)
    {
      StageOfPrefix(front, last, p.stageId);
    }
    if |next.selected| > |sel.selected| {
      var card := SelectCard(last, context, sel.loads).value;
      assert Supported(context, ProposalFor(contract, context, last, card.agentId));
    }
  }

  lemma {:induction false} SelectionOrigin(contract: TeamContract, context: SupervisorContext, capacity: nat, ready: seq<TeamStageSpec>)
    requires DistinctStageIds(ready)
    ensures var sel := SelectAll(contract, context, capacity, ready);
      FromStages(contract, context, ready, sel.selected) && DistinctProposals(sel.selected)
  {
    hide FromStages, DistinctProposals, DistinctStageIds;
    if ready == [] {
      NothingSelectedYet(contract, context);
    } else {
      var front, last := ready[..|ready| - 1], ready[|ready| - 1];
      assert ready == front + [last];
      DistinctWithLast(front, last);
      SelectionOrigin(contract, context, capacity, front);
      ConsiderKeepsOrigin(contract, context, capacity, SelectAll(contract, context, capacity, front), front, last);
    }
  }

  lemma NothingSelectedYet(contract: TeamContract, context: SupervisorContext)
    ensures FromStages(contract, context, [], []) && DistinctProposals([])
  {}

  lemma {:induction false} SelectionAnswers(contract: TeamContract, context: SupervisorContext, capacity: nat, ready: seq<TeamStageSpec>)
    requires capacity > 0 && ready != []
    ensures var sel := SelectAll(contract, context, capacity, ready);
      sel.selected != [] || sel.unavailable != [] || sel.capacityWaiting != []
  {}

  // ---- no silent deadlock ----

  /** Below some incomplete stage there is one whose dependencies are all complete. */
  lemma {:induction false} ReadyBelow(stages: seq<TeamStageSpec>, rank: map<StageId, nat>, completed: set<StageId>, id: StageId)
      returns (found: TeamStageSpec)
    requires DistinctStageIds(stages) && KnownDependencies(stages) && IsRank(DependenciesOf(stages), rank)
    requires id in StageIds(stages) && id !in completed
    ensures found in stages && found.stageId !in completed && Elements(found.dependsOn) <= completed
    decreases rank[id]
  {
    var stage := StageOf(stages, id);
    if Elements(stage.dependsOn) <= completed {
      found := stage;
    } else {
      var missing :| missing in Elements(stage.dependsOn) && missing !in completed;
      assert missing in DependenciesOf(stages)[id];
      assert Elements(stage.dependsOn) <= StageIds(stages);
      found := ReadyBelow(stages, rank, completed, missing);
    }
  }

  /**
    While work remains and nothing is running, an accepted contract always yields an assignment, a
    blocked reason or a waiting reason.
   */
  lemma NoSilentDeadlock(contract: TeamContract, context: SupervisorContext)
    requires AcceptedContract(contract) && contract.maxParallelAssignments >= 1
    requires !(StageIds(contract.stages) <= context.completed)
    requires context.active !! StageIds(contract.stages)
    ensures var draft := Draft(contract, context);
      draft.assignments != [] || draft.blockedReason.Some? || draft.waitingReason.Some?
  {
    hide StageViews, ChosenAgents, DistinctStageIds, KnownDependencies, StageAgrees, Draft, IsRank, IsReadyCandidate;
    var local := Restricted(contract, context);
    var rank :| IsRank(DependenciesOf(contract.stages), rank);
    var open := OpenStage(contract, context);
    var stage := ReadyBelow(contract.stages, rank, local.completed, open);
    StageIsCandidate(contract, context, stage);
    CandidateIsAnswered(contract, context, stage);
  }

  lemma OpenStage(contract: TeamContract, context: SupervisorContext) returns (open: StageId)
    requires !(StageIds(contract.stages) <= context.completed)
    ensures open in StageIds(contract.stages) && open !in Restricted(contract, context).completed
  {
    open :| open in StageIds(contract.stages) && open !in context.completed;
  }

  lemma CandidateIsAnswered(contract: TeamContract, context: SupervisorContext, stage: TeamStageSpec)
    requires stage in contract.stages && stage.stageId !in Restricted(contract, context).completed
    requires contract.maxParallelAssignments >= 1 && context.active !! StageIds(contract.stages)
    requires stage.stageId in Exhausted(contract, Restricted(contract, context)) || stage in ReadyStages(contract, context)
    ensures var draft := Draft(contract, context);
      draft.assignments != [] || draft.blockedReason.Some? || draft.waitingReason.Some?
  {
    hide StageViews, ChosenAgents, Exhausted, Ready, Ordered, SelectAll;
    var local := Restricted(contract, context);
    var ready := ReadyStages(contract, context);
    if Exhausted(contract, local) == {} {
      SelectionAnswers(contract, local, RemainingCapacity(contract, local.active), ready);
    }
  }

  lemma StageIsCandidate(contract: TeamContract, context: SupervisorContext, stage: TeamStageSpec)
    requires stage in contract.stages && context.active !! StageIds(contract.stages)
    requires stage.stageId !in Restricted(contract, context).completed
    requires Elements(stage.dependsOn) <= Restricted(contract, context).completed
    ensures stage.stageId in Exhausted(contract, Restricted(contract, context)) || stage in ReadyStages(contract, context)
  {
    assert IsReadyCandidate(Restricted(contract, context), stage);
  }

  /**
    The draft is turned down by the patch's own validator exactly when some stage is queued for a
    busy agent while no waiting reason is given: because other work was selected or is running,
    because an attempt budget is exhausted, or because another stage has no capable agent at all.
   */
  lemma ProposalRefusedIff(contract: TeamContract, context: SupervisorContext)
    ensures
      var local := Restricted(contract, context);
      var sel := SelectionFor(contract, context);
      Proposal(contract, context).RefusedByValidator? <==>
        && local.completed != StageIds(contract.stages)
        && sel.capacityWaiting != []
        && (sel.selected != [] || local.active != {} || Exhausted(contract, local) != {} || sel.unavailable != [])
  {
    hide StageViews, ChosenAgents, SelectAll, Exhausted, Ready, Ordered;
  }

  const FIRST_STAGE := TeamStageSpec(1, "evidence", "a", {}, [], [], None)
  const SECOND_STAGE := TeamStageSpec(2, "artifact", "b", {}, [], [], None)
  const TWO_STAGES := TeamContract("pair", 1, [FIRST_STAGE, SECOND_STAGE], 2, 3, 30)
  const ONE_AGENT := SupervisorContext(0, 0, [AgentCard(7, {}, 1)], map[7 := Idle], {}, {}, map[], map[], map[])

  lemma WitnessIsReady()
    ensures ReadyStages(TWO_STAGES, ONE_AGENT) == [FIRST_STAGE, SECOND_STAGE]
    ensures Restricted(TWO_STAGES, ONE_AGENT) == ONE_AGENT
  {
    var stages := [FIRST_STAGE, SECOND_STAGE];
    assert stages[1..] == [SECOND_STAGE] && stages[1..][1..] == [];
    assert Ordered(stages[1..]) == [SECOND_STAGE];
    assert Ordered(stages) == stages;
    assert IsReadyCandidate(ONE_AGENT, FIRST_STAGE) && IsReadyCandidate(ONE_AGENT, SECOND_STAGE);
    assert Ready(TWO_STAGES, ONE_AGENT, stages[1..]) == [SECOND_STAGE];
    assert Ready(TWO_STAGES, ONE_AGENT, stages) == [FIRST_STAGE] + [SECOND_STAGE];
    assert Restricted(TWO_STAGES, ONE_AGENT) == ONE_AGENT;
  }

  lemma WitnessIsAcyclic()
    ensures Acyclic(DependenciesOf(TWO_STAGES.stages))
  {
    assert TWO_STAGES.stages[0] == FIRST_STAGE && TWO_STAGES.stages[1] == SECOND_STAGE;
    assert IsRank(DependenciesOf(TWO_STAGES.stages), map[1 := 0, 2 := 0]);
  }

  lemma WitnessIsAccepted()
    ensures AcceptedContract(TWO_STAGES)
  {
    hide Acyclic;
    assert TWO_STAGES.stages[0] == FIRST_STAGE && TWO_STAGES.stages[1] == SECOND_STAGE;
    WitnessIsAcyclic();
  }

  lemma WitnessSelection()
    ensures var sel := SelectAll(TWO_STAGES, ONE_AGENT, 2, [FIRST_STAGE, SECOND_STAGE]);
      |sel.selected| == 1 && sel.capacityWaiting == [2]
  {
    var card := ONE_AGENT.cards[0];
    var none := Selection([], [], [], ONE_AGENT.loads);
    assert card in ONE_AGENT.cards && Eligible(FIRST_STAGE, ONE_AGENT, none.loads, card);
    var first := Consider(TWO_STAGES, ONE_AGENT, 2, none, FIRST_STAGE);
    assert SelectCard(FIRST_STAGE, ONE_AGENT, none.loads) == Some(card);
    assert At(first.loads, 7) == 1;
    assert HasTransientCard(SECOND_STAGE, ONE_AGENT);
    var second := Consider(TWO_STAGES, ONE_AGENT, 2, first, SECOND_STAGE);
    assert SelectCard(SECOND_STAGE, ONE_AGENT, first.loads) == None;
    var ready := [FIRST_STAGE, SECOND_STAGE];
    assert ready[..1] == [FIRST_STAGE] && [FIRST_STAGE][..0] == [];
    assert SelectAll(TWO_STAGES, ONE_AGENT, 2, [FIRST_STAGE]) == first;
    assert SelectAll(TWO_STAGES, ONE_AGENT, 2, ready) == second;
  }

  /**
    The refusal happens: two independent stages, room for two assignments and a single idle agent that
    takes one assignment at a time. The first stage is assigned, the second is queued, and the draft
    that says so is invalid.
   */
  lemma ProposalCanBeRefused()
    ensures AcceptedContract(TWO_STAGES)
    ensures Proposal(TWO_STAGES, ONE_AGENT).RefusedByValidator?
  {
    hide SelectAll, Ready, Ordered, Restricted, Proposal, IsRank, Acyclic, DistinctStageIds, KnownDependencies;
    assert TWO_STAGES.stages[0] == FIRST_STAGE;
    WitnessIsAccepted();
    WitnessIsReady();
    WitnessSelection();
    ProposalRefusedIff(TWO_STAGES, ONE_AGENT);
    assert FIRST_STAGE in TWO_STAGES.stages && FIRST_STAGE.stageId in StageIds(TWO_STAGES.stages);
    assert RemainingCapacity(TWO_STAGES, ONE_AGENT.active) == 2;
    assert SelectionFor(TWO_STAGES, ONE_AGENT) == SelectAll(TWO_STAGES, ONE_AGENT, 2, [FIRST_STAGE, SECOND_STAGE]);
  }
}
