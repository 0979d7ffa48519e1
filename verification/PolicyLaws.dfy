/**
  What a proposed patch says, told on the contract and the context alone: which stages it assigns, to whom,
  in which order, what it leaves over and why, and how it shows every stage.
 */
module PolicyLaws {
  import opened Contracts
  import opened Events
  import opened TeamGraph
  import opened Orchestration
  import opened PolicyFacts
  import opened PolicyRefusals
  import Agreement

  // ---- the choice of an agent ----

  function LoadOf(loads: map<AgentId, nat>, agent: AgentId): nat {
    if agent in loads then loads[agent] else 0
  }

  /** The agent is idle or busy, has a place left at this load, and every required capability. */
  predicate CanTake(context: SupervisorContext, required: set<Capability>, card: AgentCard, load: nat) {
    && card.agentId in context.statuses && context.statuses[card.agentId] in {Idle, Busy}
    && load < card.maxConcurrency
    && forall c | c in required :: c in card.capabilities
  }

  function Surplus(required: set<Capability>, card: AgentCard): nat {
    |set c | c in card.capabilities && c !in required|
  }

  /** No agent that can take the stage is less loaded; at the same load none has less to spare; at both the same none has a smaller id. */
  ghost predicate IsBestChoice(context: SupervisorContext, required: set<Capability>, loads: AgentId -> nat, card: AgentCard) {
    && card in context.cards && CanTake(context, required, card, loads(card.agentId))
    && forall other | other in context.cards && CanTake(context, required, other, loads(other.agentId)) ::
         && loads(card.agentId) <= loads(other.agentId)
         && (loads(card.agentId) == loads(other.agentId) ==> Surplus(required, card) <= Surplus(required, other))
         && (loads(card.agentId) == loads(other.agentId) && Surplus(required, card) == Surplus(required, other) ==>
               card.agentId <= other.agentId)
  }

  lemma EligibleMeansCanTake(stage: TeamStageSpec, context: SupervisorContext, loads: map<AgentId, nat>, card: AgentCard)
    ensures Eligible(stage, context, loads, card) <==> CanTake(context, stage.requiredCapabilities, card, LoadOf(loads, card.agentId))
  {}

  lemma SurplusIsDifference(stage: TeamStageSpec, card: AgentCard)
    ensures Surplus(stage.requiredCapabilities, card) == |card.capabilities - stage.requiredCapabilities|
  {
    assert card.capabilities - stage.requiredCapabilities == set c | c in card.capabilities && c !in stage.requiredCapabilities;
  }

  lemma ChosenIsBest(stage: TeamStageSpec, context: SupervisorContext, loads: map<AgentId, nat>)
    ensures
      var chosen := SelectCard(stage, context, loads);
      && (chosen.None? <==> forall card | card in context.cards ::
            !CanTake(context, stage.requiredCapabilities, card, LoadOf(loads, card.agentId)))
      && (chosen.Some? ==> IsBestChoice(context, stage.requiredCapabilities, agent => LoadOf(loads, agent), chosen.value))
  {
    hide Eligible, CanTake, Surplus;
    forall card | card in context.cards
      ensures Eligible(stage, context, loads, card) <==> CanTake(context, stage.requiredCapabilities, card, LoadOf(loads, card.agentId))
      ensures Surplus(stage.requiredCapabilities, card) == |card.capabilities - stage.requiredCapabilities|
    {
      EligibleMeansCanTake(stage, context, loads, card);
      SurplusIsDifference(stage, card);
    }
  }

  // ---- the assignments of a pass ----

  /** What an agent has to do after the first `n` assignments of the patch. */
  function Planned(context: SupervisorContext, proposals: seq<AssignmentProposal>, n: nat): AgentId -> nat
    requires n <= |proposals|
  {
    agent => LoadOf(context.loads, agent) + CountAgent(proposals[..n], agent)
  }

  ghost predicate AreBestChoices(context: SupervisorContext, proposals: seq<AssignmentProposal>) {
    forall i | 0 <= i < |proposals| :: WentToBest(context, proposals, i)
  }

  ghost predicate WentToBest(context: SupervisorContext, proposals: seq<AssignmentProposal>, i: nat)
    requires i < |proposals|
  {
    exists card: AgentCard ::
      card.agentId == proposals[i].agentId && IsBestChoice(context, proposals[i].requiredCapabilities, Planned(context, proposals, i), card)
  }

  lemma {:induction false} LoadsArePlanned(contract: TeamContract, context: SupervisorContext, capacity: nat, ready: seq<TeamStageSpec>)
    ensures var sel := SelectAll(contract, context, capacity, ready);
      forall agent :: LoadOf(sel.loads, agent) == LoadOf(context.loads, agent) + CountAgent(sel.selected, agent)
  {
    hide SelectCard, HasTransientCard;
    if ready != [] {
      var front, last := ready[..|ready| - 1], ready[|ready| - 1];
      LoadsArePlanned(contract, context, capacity, front);
      var sel := SelectAll(contract, context, capacity, front);
      var chosen := SelectCard(last, context, sel.loads);
      if |sel.selected| < capacity && chosen.Some? {
        forall agent
          ensures CountAgent(sel.selected + [ProposalFor(contract, context, last, chosen.value.agentId)], agent)
            == CountAgent(sel.selected, agent) + (if agent == chosen.value.agentId then 1 else 0)
        {
          CountAgentAppend(sel.selected, ProposalFor(contract, context, last, chosen.value.agentId), agent);
        }
      }
    }
  }

  lemma SameLoadsSameChoice(context: SupervisorContext, required: set<Capability>, one: AgentId -> nat, two: AgentId -> nat, card: AgentCard)
    requires IsBestChoice(context, required, one, card) && forall agent :: one(agent) == two(agent)
    ensures IsBestChoice(context, required, two, card)
  {}

  lemma BestChoicesGrow(context: SupervisorContext, proposals: seq<AssignmentProposal>, added: AssignmentProposal, card: AgentCard)
    requires AreBestChoices(context, proposals) && card.agentId == added.agentId
    requires IsBestChoice(context, added.requiredCapabilities, Planned(context, proposals, |proposals|), card)
    ensures AreBestChoices(context, proposals + [added])
  {
    hide IsBestChoice;
    var all := proposals + [added];
    forall i | 0 <= i < |all|
      ensures WentToBest(context, all, i)
    {
      assert all[..i] == proposals[..i];
      if i < |proposals| {
        assert WentToBest(context, proposals, i);
        var c: AgentCard :| c.agentId == proposals[i].agentId
          && IsBestChoice(context, proposals[i].requiredCapabilities, Planned(context, proposals, i), c);
        SameLoadsSameChoice(context, all[i].requiredCapabilities, Planned(context, proposals, i), Planned(context, all, i), c);
      } else {
        SameLoadsSameChoice(context, added.requiredCapabilities, Planned(context, proposals, i), Planned(context, all, i), card);
      }
    }
  }

  /** Every assignment goes to the best choice at the loads planned so far. */
  lemma {:induction false} SelectionIsBest(contract: TeamContract, context: SupervisorContext, capacity: nat, ready: seq<TeamStageSpec>)
    ensures AreBestChoices(context, SelectAll(contract, context, capacity, ready).selected)
  {
    hide AreBestChoices, IsBestChoice, SelectCard, HasTransientCard;
    if ready == [] {
      NothingIsBest(context);
    } else {
      var front, last := ready[..|ready| - 1], ready[|ready| - 1];
      SelectionIsBest(contract, context, capacity, front);
      var sel := SelectAll(contract, context, capacity, front);
      var chosen := SelectCard(last, context, sel.loads);
      if |sel.selected| < capacity && chosen.Some? {
        ChosenIsBest(last, context, sel.loads);
        LoadsArePlanned(contract, context, capacity, front);
        assert sel.selected[..|sel.selected|] == sel.selected;
        SameLoadsSameChoice(context, last.requiredCapabilities, agent => LoadOf(sel.loads, agent),
          Planned(context, sel.selected, |sel.selected|), chosen.value);
        BestChoicesGrow(context, sel.selected, ProposalFor(contract, context, last, chosen.value.agentId), chosen.value);
      }
    }
  }

  lemma NothingIsBest(context: SupervisorContext)
    ensures AreBestChoices(context, [])
  {}

  /**
    The stage was considered after exactly the assignments of smaller stages, and was left over because the
    capacity was used up or nobody could take it.
   */
  ghost predicate WasPassedOver(context: SupervisorContext, capacity: nat, proposals: seq<AssignmentProposal>, stage: TeamStageSpec) {
    exists k: nat :: k <= |proposals| && PassedOverAt(context, capacity, proposals, stage, k)
  }

  ghost predicate PassedOverAt(context: SupervisorContext, capacity: nat, proposals: seq<AssignmentProposal>, stage: TeamStageSpec, k: nat)
    requires k <= |proposals|
  {
    && (forall i | 0 <= i < k :: proposals[i].stageId < stage.stageId)
    && (forall i | k <= i < |proposals| :: stage.stageId < proposals[i].stageId)
    && (k == capacity
        || forall card | card in context.cards ::
             !CanTake(context, stage.requiredCapabilities, card, Planned(context, proposals, k)(card.agentId)))
  }

  lemma {:induction false} LeftOverWasPassedOver(contract: TeamContract, context: SupervisorContext, capacity: nat, ready: seq<TeamStageSpec>,
                                                 stage: TeamStageSpec)
    requires DistinctStageIds(ready) && InIdOrder(ready) && stage in ready
    requires forall p | p in SelectAll(contract, context, capacity, ready).selected :: p.stageId != stage.stageId
    ensures WasPassedOver(context, capacity, SelectAll(contract, context, capacity, ready).selected, stage)
  {
    hide SelectCard, HasTransientCard, CanTake, WasPassedOver, DistinctStageIds, InIdOrder, Consider, Extends;
    var front, last := ready[..|ready| - 1], ready[|ready| - 1];
    assert ready == front + [last];
    DistinctWithLast(front, last);
    var sel, next := SelectAll(contract, context, capacity, front), SelectAll(contract, context, capacity, ready);
    if stage in front {
      LastIsAdded(contract, context, capacity, sel, last);
      FrontIsOrdered(front, last);
      LeftOverWasPassedOver(contract, context, capacity, front, stage);
      EarlierIsSmaller(front, last, stage);
      PassedOverStays(context, capacity, sel.selected, next.selected, stage);
    } else {
      LastWasPassedOver(contract, context, capacity, front, last);
    }
  }

  lemma LastWasPassedOver(contract: TeamContract, context: SupervisorContext, capacity: nat, front: seq<TeamStageSpec>, last: TeamStageSpec)
    requires DistinctStageIds(front + [last]) && InIdOrder(front + [last])
    requires forall p | p in SelectAll(contract, context, capacity, front + [last]).selected :: p.stageId != last.stageId
    ensures WasPassedOver(context, capacity, SelectAll(contract, context, capacity, front + [last]).selected, last)
  {
    hide HasTransientCard, CanTake, DistinctStageIds, InIdOrder, SelectCard;
    assert (front + [last])[..|front|] == front;
    var sel, next := SelectAll(contract, context, capacity, front), SelectAll(contract, context, capacity, front + [last]);
    LastAnswered(contract, context, capacity, sel, last);
    FrontIsSmaller(contract, context, capacity, front, last);
    PassCounts(contract, context, capacity, front);
    ChosenIsBest(last, context, sel.loads);
    LoadsArePlanned(contract, context, capacity, front);
    assert sel.selected[..|sel.selected|] == sel.selected;
    assert PassedOverAt(context, capacity, next.selected, last, |sel.selected|);
  }

  lemma LastAnswered(contract: TeamContract, context: SupervisorContext, capacity: nat, sel: Selection, last: TeamStageSpec)
    requires forall p | p in Consider(contract, context, capacity, sel, last).selected :: p.stageId != last.stageId
    ensures Consider(contract, context, capacity, sel, last).selected == sel.selected
    ensures |sel.selected| >= capacity || SelectCard(last, context, sel.loads).None?
  {
    hide SelectCard, HasTransientCard;
    var next := Consider(contract, context, capacity, sel, last);
    assert forall i | |sel.selected| <= i < |next.selected| :: next.selected[i] in next.selected;
  }

  lemma LastIsAdded(contract: TeamContract, context: SupervisorContext, capacity: nat, sel: Selection, last: TeamStageSpec)
    ensures var next := Consider(contract, context, capacity, sel, last);
      sel.selected <= next.selected && forall i | |sel.selected| <= i < |next.selected| :: next.selected[i].stageId == last.stageId
  {}

  lemma FrontIsOrdered(front: seq<TeamStageSpec>, last: TeamStageSpec)
    requires DistinctStageIds(front + [last]) && InIdOrder(front + [last])
    ensures DistinctStageIds(front) && InIdOrder(front)
  {
    DistinctWithLast(front, last);
    forall i, j | 0 <= i < j < |front|
      ensures front[i].stageId <= front[j].stageId
    {
      assert (front + [last])[i].stageId <= (front + [last])[j].stageId;
    }
  }

  lemma EarlierIsSmaller(front: seq<TeamStageSpec>, last: TeamStageSpec, stage: TeamStageSpec)
    requires DistinctStageIds(front + [last]) && InIdOrder(front + [last]) && stage in front
    ensures stage.stageId < last.stageId
  {
    var i :| 0 <= i < |front| && front[i] == stage;
    var all := front + [last];
    assert all[i].stageId <= all[|front|].stageId && all[i].stageId != all[|front|].stageId;
  }

  lemma FrontIsSmaller(contract: TeamContract, context: SupervisorContext, capacity: nat, front: seq<TeamStageSpec>, last: TeamStageSpec)
    requires DistinctStageIds(front + [last]) && InIdOrder(front + [last])
    ensures forall p | p in SelectAll(contract, context, capacity, front).selected :: p.stageId < last.stageId
  {
    hide SelectAll;
    DistinctWithLast(front, last);
    SelectionOrigin(contract, context, capacity, front);
    forall p | p in SelectAll(contract, context, capacity, front).selected
      ensures p.stageId < last.stageId
    {
      var stage :| stage in front && stage.stageId == p.stageId;
      EarlierIsSmaller(front, last, stage);
    }
  }

  lemma PassedOverStays(context: SupervisorContext, capacity: nat, before: seq<AssignmentProposal>, after: seq<AssignmentProposal>, stage: TeamStageSpec)
    requires WasPassedOver(context, capacity, before, stage) && before <= after
    requires forall i | |before| <= i < |after| :: stage.stageId < after[i].stageId
    ensures WasPassedOver(context, capacity, after, stage)
  {
    hide CanTake;
    var k: nat :| k <= |before| && PassedOverAt(context, capacity, before, stage, k);
    assert before[..k] == after[..k];
    assert PassedOverAt(context, capacity, after, stage, k);
  }

  // ---- which stages are ready ----

  predicate IsOpenStage(contract: TeamContract, context: SupervisorContext, stage: TeamStageSpec) {
    && stage in contract.stages
    && stage.stageId !in context.completed && stage.stageId !in context.active
    && forall d | d in stage.dependsOn :: d in context.completed && exists other :: other in contract.stages && other.stageId == d
  }

  function AttemptsOf(context: SupervisorContext, stage: TeamStageSpec): nat {
    if stage.stageId in context.attempts then context.attempts[stage.stageId] else 0
  }

  /** The ready stages are the open ones with attempts left, the exhausted ones the open ones without. */
  lemma ReadyMeansOpen(contract: TeamContract, context: SupervisorContext, stage: TeamStageSpec)
    ensures stage in ReadyStages(contract, context) <==>
      IsOpenStage(contract, context, stage) && AttemptsOf(context, stage) < contract.maxStageAttempts
    ensures IsOpenStage(contract, context, stage) && AttemptsOf(context, stage) >= contract.maxStageAttempts ==>
      stage.stageId in Exhausted(contract, Restricted(contract, context))
    ensures forall id | id in Exhausted(contract, Restricted(contract, context)) ::
      exists s :: IsOpenStage(contract, context, s) && s.stageId == id && AttemptsOf(context, s) >= contract.maxStageAttempts
  {
    var local := Restricted(contract, context);
    forall s
      ensures s in contract.stages && IsReadyCandidate(local, s) <==> IsOpenStage(contract, context, s)
      ensures IsExhausted(contract, local, s) <==> AttemptsOf(context, s) >= contract.maxStageAttempts
    {
      CandidateMeansOpen(contract, context, s);
    }
  }

  lemma CandidateMeansOpen(contract: TeamContract, context: SupervisorContext, s: TeamStageSpec)
    ensures s in contract.stages && IsReadyCandidate(Restricted(contract, context), s) <==> IsOpenStage(contract, context, s)
    ensures IsExhausted(contract, Restricted(contract, context), s) <==> AttemptsOf(context, s) >= contract.maxStageAttempts
  {
    assert forall d :: d in Elements(s.dependsOn) <==> d in s.dependsOn;
  }

  /** Some agent with the capabilities is idle, busy or waiting. */
  predicate HasProspect(context: SupervisorContext, stage: TeamStageSpec) {
    exists card | card in context.cards ::
      (forall c | c in stage.requiredCapabilities :: c in card.capabilities)
      && card.agentId in context.statuses && context.statuses[card.agentId] in {Idle, Busy, Waiting}
  }

  lemma TransientMeansProspect(context: SupervisorContext, stage: TeamStageSpec)
    ensures HasTransientCard(stage, context) <==> HasProspect(context, stage)
  {}

  lemma {:induction false} ReadyKeepsOrder(contract: TeamContract, context: SupervisorContext, stages: seq<TeamStageSpec>)
    requires InIdOrder(stages)
    ensures InIdOrder(Ready(contract, context, stages))
  {
    if stages != [] {
      ReadyKeepsOrder(contract, context, stages[1..]);
      forall s | s in Ready(contract, context, stages[1..])
        ensures stages[0].stageId <= s.stageId
      {
        assert s in stages[1..];
      }
    }
  }

  // ---- the patch ----

  /** The whole text of an assignment is copied from its stage and the contract; only the agent is chosen. */
  predicate IsFor(contract: TeamContract, context: SupervisorContext, stage: TeamStageSpec, a: AssignmentProposal) {
    && a.stageId == stage.stageId && a.goal == stage.goal && a.requiredCapabilities == stage.requiredCapabilities
    && a.exitCriteria == stage.exitCriteria && a.resultKind == stage.resultKind && a.contract == stage.assignmentContract
    && a.contractVersion == contract.version && a.leaseSeconds == contract.leaseSeconds
    && a.attempt == AttemptsOf(context, stage) + 1
    && a.assignmentId == OfAttempt(context.run, stage.stageId, a.attempt)
  }

  function ActiveHere(contract: TeamContract, context: SupervisorContext): set<StageId> {
    set id | id in context.active && exists s :: s in contract.stages && s.stageId == id
  }

  /** The places left under the parallel limit. */
  function PlacesLeft(contract: TeamContract, context: SupervisorContext): nat {
    if |ActiveHere(contract, context)| < contract.maxParallelAssignments
    then contract.maxParallelAssignments - |ActiveHere(contract, context)| else 0
  }

  lemma CapacityIsPlacesLeft(contract: TeamContract, context: SupervisorContext)
    ensures RemainingCapacity(contract, Restricted(contract, context).active) == PlacesLeft(contract, context)
  {
    assert Restricted(contract, context).active == ActiveHere(contract, context);
  }

  /** What the assignments of an unfinished team's draft are. */
  lemma DraftAssigns(contract: TeamContract, context: SupervisorContext)
    requires DistinctStageIds(contract.stages) && !(StageIds(contract.stages) <= context.completed)
    ensures
      var chosen, places := Draft(contract, context).assignments, PlacesLeft(contract, context);
      && |chosen| <= places
      && AreBestChoices(context, chosen)
      && (forall a | a in chosen :: exists stage ::
            IsOpenStage(contract, context, stage) && AttemptsOf(context, stage) < contract.maxStageAttempts && IsFor(contract, context, stage, a))
      && (forall stage | IsOpenStage(contract, context, stage) && AttemptsOf(context, stage) < contract.maxStageAttempts
            && (forall a | a in chosen :: a.stageId != stage.stageId) ::
            WasPassedOver(context, places, chosen, stage))
  {
    hide SelectAll, AreBestChoices, WasPassedOver, IsOpenStage, IsFor, Ready, Ordered, RemainingCapacity, DistinctStageIds, Exhausted,
      StageViews, ChosenAgents, BlockedReason, WaitingReason, InIdOrder, PlacesLeft, AttemptsOf, StageIds;
    var local, ready := Restricted(contract, context), ReadyStages(contract, context);
    var capacity := RemainingCapacity(contract, local.active);
    assert Draft(contract, context).assignments == SelectAll(contract, local, capacity, ready).selected by {
      IncompleteDraft(contract, context);
    }
    CapacityIsPlacesLeft(contract, context);
    PassCounts(contract, local, capacity, ready);
    SelectionIsBest(contract, local, capacity, ready);
    RestrictedKeepsChoices(contract, context, SelectAll(contract, local, capacity, ready).selected);
    ReadyIsOrdered(contract, context);
    forall a | a in Draft(contract, context).assignments
      ensures exists stage ::
        IsOpenStage(contract, context, stage) && AttemptsOf(context, stage) < contract.maxStageAttempts && IsFor(contract, context, stage, a)
    {
      AssignmentIsFor(contract, context, a);
    }
    forall stage | IsOpenStage(contract, context, stage) && AttemptsOf(context, stage) < contract.maxStageAttempts
      && (forall a | a in Draft(contract, context).assignments :: a.stageId != stage.stageId)
      ensures WasPassedOver(context, PlacesLeft(contract, context), Draft(contract, context).assignments, stage)
    {
      ReadyMeansOpen(contract, context, stage);
      LeftOverWasPassedOver(contract, local, capacity, ready, stage);
      RestrictedKeepsPassing(contract, context, capacity, SelectAll(contract, local, capacity, ready).selected, stage);
    }
  }

  lemma IncompleteDraft(contract: TeamContract, context: SupervisorContext)
    requires !(StageIds(contract.stages) <= context.completed)
    ensures Draft(contract, context).assignments == SelectionFor(contract, context).selected
    ensures !Draft(contract, context).completionReady
  {
    hide SelectAll, StageViews, ChosenAgents, Exhausted, Ready, Ordered;
    var id :| id in StageIds(contract.stages) && id !in context.completed;
    assert id !in Restricted(contract, context).completed;
  }

  lemma ReadyIsOrdered(contract: TeamContract, context: SupervisorContext)
    requires DistinctStageIds(contract.stages)
    ensures DistinctStageIds(ReadyStages(contract, context)) && InIdOrder(ReadyStages(contract, context))
  {
    hide DistinctStageIds, InIdOrder;
    OrderedIsSorted(contract.stages);
    OrderedKeepsDistinct(contract.stages);
    ReadyKeepsDistinct(contract, Restricted(contract, context), Ordered(contract.stages));
    ReadyKeepsOrder(contract, Restricted(contract, context), Ordered(contract.stages));
  }

  lemma RestrictedKeepsChoices(contract: TeamContract, context: SupervisorContext, proposals: seq<AssignmentProposal>)
    requires AreBestChoices(Restricted(contract, context), proposals)
    ensures AreBestChoices(context, proposals)
  {
    var local := Restricted(contract, context);
    forall i | 0 <= i < |proposals|
      ensures WentToBest(context, proposals, i)
    {
      assert WentToBest(local, proposals, i);
      var card: AgentCard :| card.agentId == proposals[i].agentId
        && IsBestChoice(local, proposals[i].requiredCapabilities, Planned(local, proposals, i), card);
      SameLoadsSameChoice(local, proposals[i].requiredCapabilities, Planned(local, proposals, i), Planned(context, proposals, i), card);
      RestrictedKeepsBest(contract, context, proposals[i].requiredCapabilities, Planned(context, proposals, i), card);
    }
  }

  lemma RestrictedKeepsBest(contract: TeamContract, context: SupervisorContext, required: set<Capability>, loads: AgentId -> nat, card: AgentCard)
    requires IsBestChoice(Restricted(contract, context), required, loads, card)
    ensures IsBestChoice(context, required, loads, card)
  {
    assert forall other: AgentCard, load: nat ::
      CanTake(Restricted(contract, context), required, other, load) == CanTake(context, required, other, load);
  }

  lemma RestrictedKeepsPassing(contract: TeamContract, context: SupervisorContext, capacity: nat, proposals: seq<AssignmentProposal>, stage: TeamStageSpec)
    requires WasPassedOver(Restricted(contract, context), capacity, proposals, stage)
    ensures WasPassedOver(context, capacity, proposals, stage)
  {
    var local := Restricted(contract, context);
    var k: nat :| k <= |proposals| && PassedOverAt(local, capacity, proposals, stage, k);
    assert forall agent :: Planned(local, proposals, k)(agent) == Planned(context, proposals, k)(agent);
    assert forall card: AgentCard, load: nat ::
      CanTake(local, stage.requiredCapabilities, card, load) == CanTake(context, stage.requiredCapabilities, card, load);
    assert PassedOverAt(context, capacity, proposals, stage, k);
  }

  lemma AssignmentIsFor(contract: TeamContract, context: SupervisorContext, a: AssignmentProposal)
    requires DistinctStageIds(contract.stages) && a in SelectionFor(contract, context).selected
    ensures exists stage ::
      IsOpenStage(contract, context, stage) && AttemptsOf(context, stage) < contract.maxStageAttempts && IsFor(contract, context, stage, a)
  {
    hide SelectAll, IsOpenStage, Ready, Ordered, RemainingCapacity, DistinctStageIds, Supported, InIdOrder;
    var local, ready := Restricted(contract, context), ReadyStages(contract, context);
    ReadyIsOrdered(contract, context);
    SelectionOrigin(contract, local, RemainingCapacity(contract, local.active), ready);
    assert FromStages(contract, local, ready, SelectionFor(contract, context).selected);
    var stage := StageOf(ready, a.stageId);
    ReadyMeansOpen(contract, context, stage);
    assert IsFor(contract, context, stage, a);
  }

  /** The patch is complete exactly when every stage is, and then assigns nothing; its header follows the context and the contract. */
  lemma PatchHeader(contract: TeamContract, context: SupervisorContext)
    ensures
      var draft := Draft(contract, context);
      && (draft.completionReady <==> forall stage | stage in contract.stages :: stage.stageId in context.completed)
      && (draft.completionReady ==> draft.assignments == [] && draft.waitingStageIds == [])
      && draft.revision == context.revision + 1
      && draft.contractId == contract.contractId && draft.contractVersion == contract.version
  {
    hide SelectAll, StageViews, ChosenAgents, Exhausted, Ready, Ordered;
    if forall stage | stage in contract.stages :: stage.stageId in context.completed {
      assert Restricted(contract, context).completed == StageIds(contract.stages);
    } else {
      var stage :| stage in contract.stages && stage.stageId !in context.completed;
      assert stage.stageId in StageIds(contract.stages);
      IncompleteDraft(contract, context);
    }
  }

  /** What the patch's own validator asks for. */
  lemma ValidatorAsksFor(patch: PlanPatch)
    ensures PatchValidates(patch) <==>
      && (patch.blockedReason == None || patch.waitingReason == None)
      && (patch.blockedReason != None || patch.waitingReason != None ==> patch.assignments == [] && !patch.completionReady)
      && (patch.waitingReason == None ==> patch.waitingStageIds == [])
  {}

  /** What a proposal that is built assigns. */
  lemma ProposalAssigns(contract: TeamContract, context: SupervisorContext)
    requires DistinctStageIds(contract.stages) && Proposal(contract, context).Built?
    ensures
      var patch, places := Proposal(contract, context).patch, PlacesLeft(contract, context);
      if forall stage | stage in contract.stages :: stage.stageId in context.completed then patch.completionReady && patch.assignments == []
      else
        && !patch.completionReady && |patch.assignments| <= places
        && AreBestChoices(context, patch.assignments)
        && (forall a | a in patch.assignments :: exists stage ::
              IsOpenStage(contract, context, stage) && AttemptsOf(context, stage) < contract.maxStageAttempts && IsFor(contract, context, stage, a))
        && (forall stage | IsOpenStage(contract, context, stage) && AttemptsOf(context, stage) < contract.maxStageAttempts
              && (forall a | a in patch.assignments :: a.stageId != stage.stageId) ::
              WasPassedOver(context, places, patch.assignments, stage))
  {
    hide Draft, AreBestChoices, WasPassedOver, IsOpenStage, IsFor, DistinctStageIds, PlacesLeft, AttemptsOf, PatchValidates;
    PatchHeader(contract, context);
    if !(forall stage | stage in contract.stages :: stage.stageId in context.completed) {
      var stage :| stage in contract.stages && stage.stageId !in context.completed;
      assert stage.stageId in StageIds(contract.stages);
      DraftAssigns(contract, context);
    }
  }

  // ---- reasons ----

  predicate IsExhaustedStage(contract: TeamContract, context: SupervisorContext, stage: TeamStageSpec) {
    IsOpenStage(contract, context, stage) && AttemptsOf(context, stage) >= contract.maxStageAttempts
  }

  predicate IsReadyStage(contract: TeamContract, context: SupervisorContext, stage: TeamStageSpec) {
    IsOpenStage(contract, context, stage) && AttemptsOf(context, stage) < contract.maxStageAttempts
  }

  /**
    A reason is given only while nothing is assigned or running, and then the first that applies: attempts
    used up, no agent for some ready stage, or every ready stage waiting for an agent.
   */
  lemma DraftReasons(contract: TeamContract, context: SupervisorContext)
    requires !(StageIds(contract.stages) <= context.completed) && contract.maxParallelAssignments >= 1
    ensures
      var draft := Draft(contract, context);
      var busy := draft.assignments != [] || ActiveHere(contract, context) != {};
      var exhausted := exists stage :: IsExhaustedStage(contract, context, stage);
      var hopeless := exists stage :: IsReadyStage(contract, context, stage) && !HasProspect(context, stage);
      var queued := exists stage :: IsReadyStage(contract, context, stage) && HasProspect(context, stage);
      && (busy ==> draft.blockedReason == None && draft.waitingReason == None)
      && (!busy ==>
            && (draft.blockedReason.Some? && draft.blockedReason.value.AttemptsExhausted? <==> exhausted)
            && (draft.blockedReason.Some? && draft.blockedReason.value.NoCapableAgent? <==> !exhausted && hopeless)
            && (draft.blockedReason.Some? ==> !draft.blockedReason.value.CapacityUnavailable?)
            && (draft.waitingReason.Some? <==> !exhausted && !hopeless && queued)
            && (draft.waitingStageIds != [] <==> queued))
  {
    hide SelectAll, Exhausted, ReadyStages, StageViews, ChosenAgents, HasTransientCard, HasProspect, IsOpenStage, AttemptsOf, HasEligibleCard;
    var local, ready := Restricted(contract, context), ReadyStages(contract, context);
    CapacityIsPlacesLeft(contract, context);
    assert local.active == ActiveHere(contract, context);
    assert local.completed != StageIds(contract.stages) by { IncompleteDraft(contract, context); StillIncomplete(contract, context); }
    ReasonsOnReady(contract, context);
    if local.active == {} {
      FirstAssignment(contract, local, RemainingCapacity(contract, local.active), ready);
      RestrictedKeepsAgents(contract, context);
    }
  }

  lemma StillIncomplete(contract: TeamContract, context: SupervisorContext)
    requires !(StageIds(contract.stages) <= context.completed)
    ensures Restricted(contract, context).completed != StageIds(contract.stages)
  {
    var id :| id in StageIds(contract.stages) && id !in context.completed;
    assert id !in Restricted(contract, context).completed;
  }

  lemma ReasonsOnReady(contract: TeamContract, context: SupervisorContext)
    ensures Exhausted(contract, Restricted(contract, context)) != {} <==> exists stage :: IsExhaustedStage(contract, context, stage)
    ensures (exists stage | stage in ReadyStages(contract, context) :: !HasTransientCard(stage, context))
      <==> exists stage :: IsReadyStage(contract, context, stage) && !HasProspect(context, stage)
    ensures (exists stage | stage in ReadyStages(contract, context) :: HasTransientCard(stage, context))
      <==> exists stage :: IsReadyStage(contract, context, stage) && HasProspect(context, stage)
  {
    hide Exhausted, ReadyStages, HasTransientCard, HasProspect, IsOpenStage, AttemptsOf, Restricted;
    forall stage
      ensures stage in ReadyStages(contract, context) <==> IsReadyStage(contract, context, stage)
      ensures HasTransientCard(stage, context) <==> HasProspect(context, stage)
      ensures IsExhaustedStage(contract, context, stage) ==> stage.stageId in Exhausted(contract, Restricted(contract, context))
      ensures forall id | id in Exhausted(contract, Restricted(contract, context)) ::
        exists s :: IsExhaustedStage(contract, context, s) && s.stageId == id
    {
      ReadyMeansOpen(contract, context, stage);
      TransientMeansProspect(context, stage);
      ExhaustedAre(contract, context, stage);
    }
    var anyone := TeamStageSpec(0, "", "", {}, [], [], None);
    ReadyMeansOpen(contract, context, anyone);
    ExhaustedAre(contract, context, anyone);
  }

  lemma ExhaustedAre(contract: TeamContract, context: SupervisorContext, stage: TeamStageSpec)
    ensures IsExhaustedStage(contract, context, stage) ==> stage.stageId in Exhausted(contract, Restricted(contract, context))
    ensures forall id | id in Exhausted(contract, Restricted(contract, context)) ::
      exists s :: IsExhaustedStage(contract, context, s) && s.stageId == id
  {
    hide Exhausted, IsOpenStage, AttemptsOf, Restricted;
    ReadyMeansOpen(contract, context, stage);
    forall id | id in Exhausted(contract, Restricted(contract, context))
      ensures exists s :: IsExhaustedStage(contract, context, s) && s.stageId == id
    {
      var s :| IsOpenStage(contract, context, s) && s.stageId == id && AttemptsOf(context, s) >= contract.maxStageAttempts;
      assert IsExhaustedStage(contract, context, s);
    }
  }

  // ---- how the patch shows the stages ----

  predicate IsAssigned(proposals: seq<AssignmentProposal>, id: StageId) {
    exists a | a in proposals :: a.stageId == id
  }

  /** Completed before active before blocked before ready; the agent is the one assigned, else the one at work. */
  ghost predicate ShowsStage(contract: TeamContract, context: SupervisorContext, draft: PlanPatch, stage: TeamStageSpec, view: StagePlanView) {
    && view.stageId == stage.stageId && view.dependsOn == stage.dependsOn
    && view.state ==
         (if stage.stageId in context.completed then CompletedStage
          else if stage.stageId in context.active || IsAssigned(draft.assignments, stage.stageId) then ActiveStage
          else if IsExhaustedStage(contract, context, stage)
                  || (draft.blockedReason != None && IsReadyStage(contract, context, stage) && !HasProspect(context, stage)) then BlockedStage
          else if IsReadyStage(contract, context, stage) then ReadyStage
          else PendingStage)
    && (forall a | a in draft.assignments && a.stageId == stage.stageId :: view.agentId == Some(a.agentId))
    && (!IsAssigned(draft.assignments, stage.stageId) ==>
          view.agentId == if stage.stageId in context.activeAgents then Some(context.activeAgents[stage.stageId]) else None)
  }

  lemma DraftShowsStages(contract: TeamContract, context: SupervisorContext, i: nat)
    requires DistinctStageIds(contract.stages) && !(StageIds(contract.stages) <= context.completed)
    requires contract.maxParallelAssignments >= 1 && i < |contract.stages|
    ensures
      var draft := Draft(contract, context);
      |draft.stages| == |contract.stages| && ShowsStage(contract, context, draft, contract.stages[i], draft.stages[i])
  {
    hide SelectAll, Exhausted, ReadyStages, ChosenAgents, HasTransientCard, HasProspect, IsOpenStage, AttemptsOf, BlockedReason,
      WaitingReason, DistinctStageIds, StageIds, ShowsStage, ViewOf, IsAssigned, IsExhaustedStage, IsReadyStage;
    StillIncomplete(contract, context);
    var local := Restricted(contract, context);
    var sel, exhausted := SelectionFor(contract, context), Exhausted(contract, local);
    var reason := BlockedReason(exhausted, sel, local.active);
    var blocked := exhausted + (if reason.Some? then Elements(sel.unavailable) else {});
    ShownAsViewed(contract, context, Draft(contract, context), blocked, contract.stages[i]);
  }

  lemma ShownAsViewed(contract: TeamContract, context: SupervisorContext, draft: PlanPatch, blocked: set<StageId>, stage: TeamStageSpec)
    requires DistinctStageIds(contract.stages) && !(StageIds(contract.stages) <= context.completed)
    requires contract.maxParallelAssignments >= 1 && stage in contract.stages && draft == Draft(contract, context)
    requires
      var local, sel := Restricted(contract, context), SelectionFor(contract, context);
      blocked == Exhausted(contract, local) + (if draft.blockedReason.Some? then Elements(sel.unavailable) else {})
    ensures
      var local, sel := Restricted(contract, context), SelectionFor(contract, context);
      ShowsStage(contract, context, draft, stage,
        ViewOf(stage, local.completed, local.active, StageIds(ReadyStages(contract, context)), ChosenAgents(sel.selected), blocked,
          context.activeAgents))
  {
    hide SelectAll, Exhausted, ReadyStages, ChosenAgents, HasTransientCard, HasProspect, IsOpenStage, AttemptsOf, BlockedReason,
      WaitingReason, DistinctStageIds, IsExhaustedStage, IsReadyStage, Draft;
    var local, sel := Restricted(contract, context), SelectionFor(contract, context);
    var id := stage.stageId;
    assert id in StageIds(contract.stages);
    IncompleteDraft(contract, context);
    ChosenIsAssigned(contract, context, id);
    IdIsReady(contract, context, stage);
    IdIsExhausted(contract, context, stage);
    if draft.blockedReason.Some? {
      UnavailableIsHopeless(contract, context, stage);
    }
  }

  lemma ChosenIsAssigned(contract: TeamContract, context: SupervisorContext, id: StageId)
    requires DistinctStageIds(contract.stages)
    ensures
      var selected := SelectionFor(contract, context).selected;
      && (id in ChosenAgents(selected) <==> IsAssigned(selected, id))
      && forall a | a in selected && a.stageId == id :: id in ChosenAgents(selected) && ChosenAgents(selected)[id] == a.agentId
  {
    hide SelectAll, ReadyStages, ChosenAgents, FromStages, DistinctStageIds, DistinctProposals;
    var local, ready := Restricted(contract, context), ReadyStages(contract, context);
    var selected := SelectionFor(contract, context).selected;
    ReadyIsOrdered(contract, context);
    SelectionOrigin(contract, local, RemainingCapacity(contract, local.active), ready);
    Agreement.ChosenAreProposed(selected);
    forall a | a in selected && a.stageId == id
      ensures id in ChosenAgents(selected) && ChosenAgents(selected)[id] == a.agentId
    {
      var k :| 0 <= k < |selected| && selected[k] == a;
      Agreement.ChosenContains(selected, k);
    }
  }

  lemma SameIdSameStage(stages: seq<TeamStageSpec>, a: TeamStageSpec, b: TeamStageSpec)
    requires DistinctStageIds(stages) && a in stages && b in stages && a.stageId == b.stageId
    ensures a == b
  {
    StageOfIsUnique(stages, a);
    StageOfIsUnique(stages, b);
  }

  lemma IdIsReady(contract: TeamContract, context: SupervisorContext, stage: TeamStageSpec)
    requires DistinctStageIds(contract.stages) && stage in contract.stages
    ensures stage.stageId in StageIds(ReadyStages(contract, context)) <==> IsReadyStage(contract, context, stage)
  {
    hide ReadyStages, DistinctStageIds, AttemptsOf;
    ReadyMeansOpen(contract, context, stage);
    forall s | s in ReadyStages(contract, context) && s.stageId == stage.stageId
      ensures s == stage
    {
      ReadyMeansOpen(contract, context, s);
      SameIdSameStage(contract.stages, s, stage);
    }
  }

  lemma IdIsExhausted(contract: TeamContract, context: SupervisorContext, stage: TeamStageSpec)
    requires DistinctStageIds(contract.stages) && stage in contract.stages
    ensures stage.stageId in Exhausted(contract, Restricted(contract, context)) <==> IsExhaustedStage(contract, context, stage)
  {
    hide Exhausted, DistinctStageIds, AttemptsOf, Restricted;
    ExhaustedAre(contract, context, stage);
    forall s | IsExhaustedStage(contract, context, s) && s.stageId == stage.stageId
      ensures s == stage
    {
      SameIdSameStage(contract.stages, s, stage);
    }
  }

  /** While a blocked reason stands, the unavailable stages are the ready ones without any prospect. */
  lemma UnavailableIsHopeless(contract: TeamContract, context: SupervisorContext, stage: TeamStageSpec)
    requires DistinctStageIds(contract.stages) && stage in contract.stages && contract.maxParallelAssignments >= 1
    requires Draft(contract, context).blockedReason.Some?
    ensures stage.stageId in SelectionFor(contract, context).unavailable
      <==> IsReadyStage(contract, context, stage) && !HasProspect(context, stage)
  {
    hide SelectAll, Exhausted, ReadyStages, DistinctStageIds, HasTransientCard, HasProspect, IsOpenStage, AttemptsOf, StageViews, ChosenAgents;
    var local, ready := Restricted(contract, context), ReadyStages(contract, context);
    var capacity := RemainingCapacity(contract, local.active);
    ReadyIsOrdered(contract, context);
    NothingSelectedWhenBlocked(contract, context);
    UnfilledPass(contract, local, capacity, ready);
    RestrictedKeepsAgents(contract, context);
    IdIsReady(contract, context, stage);
    TransientMeansProspect(context, stage);
    ReadyMeansOpen(contract, context, stage);
  }

  lemma NothingSelectedWhenBlocked(contract: TeamContract, context: SupervisorContext)
    requires Draft(contract, context).blockedReason.Some? && contract.maxParallelAssignments >= 1
    ensures SelectionFor(contract, context).selected == []
    ensures RemainingCapacity(contract, Restricted(contract, context).active) > 0
  {
    hide SelectAll, Exhausted, ReadyStages, StageViews, ChosenAgents;
  }
}
