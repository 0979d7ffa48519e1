/** The capability-driven supervisor policy: from a team view to one proposed plan patch. */
module Orchestration {
  import opened Contracts
  import opened Events
  import opened TeamGraph

  datatype StageState = PendingStage | ReadyStage | ActiveStage | CompletedStage | BlockedStage

  datatype StagePlanView = StagePlanView(
    stageId: StageId,
    state: StageState,
    dependsOn: seq<StageId>,
    agentId: Option<AgentId>)

  datatype AssignmentProposal = AssignmentProposal(
    assignmentId: AssignmentId,
    stageId: StageId,
    attempt: nat,
    agentId: AgentId,
    goal: Text,
    requiredCapabilities: set<Capability>,
    exitCriteria: seq<Text>,
    resultKind: Text,
    contractVersion: nat,
    leaseSeconds: nat,
    contract: Option<AssignmentContract>)

  datatype Directive = AttemptsExhausted(stages: set<StageId>) | NoCapableAgent(idle: seq<StageId>) | CapacityUnavailable(queue: seq<StageId>)

  datatype PlanPatch = PlanPatch(
    revision: nat,
    contractId: Text,
    contractVersion: nat,
    stages: seq<StagePlanView>,
    assignments: seq<AssignmentProposal>,
    completionReady: bool,
    blockedReason: Option<Directive>,
    waitingReason: Option<Directive>,
    waitingStageIds: seq<StageId>)

  /** The patch's own validator (`terminal_directives_are_unambiguous`). */
  predicate PatchValidates(patch: PlanPatch) {
    && !(patch.blockedReason.Some? && patch.waitingReason.Some?)
    && !((patch.blockedReason.Some? || patch.waitingReason.Some?) && patch.assignments != [])
    && !(patch.completionReady && (patch.blockedReason.Some? || patch.waitingReason.Some?))
    && !(patch.waitingStageIds != [] && patch.waitingReason.None?)
  }

  datatype SupervisorContext = SupervisorContext(
    run: RunId,
    revision: nat,
    cards: seq<AgentCard>,
    statuses: map<AgentId, AgentStatus>,
    completed: set<StageId>,
    active: set<StageId>,
    activeAgents: map<StageId, AgentId>,
    attempts: map<StageId, nat>,
    loads: map<AgentId, nat>)

  function At(counts: map<nat, nat>, key: nat): nat {
    if key in counts then counts[key] else 0
  }

  // ---- choosing an agent ----

  function StatusOf(context: SupervisorContext, agent: AgentId): AgentStatus {
    if agent in context.statuses then context.statuses[agent] else Offline
  }

  predicate Eligible(stage: TeamStageSpec, context: SupervisorContext, loads: map<AgentId, nat>, card: AgentCard) {
    && (StatusOf(context, card.agentId).Idle? || StatusOf(context, card.agentId).Busy?)
    && At(loads, card.agentId) < card.maxConcurrency
    && stage.requiredCapabilities <= card.capabilities
  }

  /** Least loaded, then fewest surplus capabilities, then smallest id. */
  predicate Precedes(stage: TeamStageSpec, loads: map<AgentId, nat>, a: AgentCard, b: AgentCard) {
    var surplusA, surplusB := |a.capabilities - stage.requiredCapabilities|, |b.capabilities - stage.requiredCapabilities|;
    || At(loads, a.agentId) < At(loads, b.agentId)
    || (At(loads, a.agentId) == At(loads, b.agentId)
        && (surplusA < surplusB || (surplusA == surplusB && a.agentId <= b.agentId)))
  }

  function SelectFrom(stage: TeamStageSpec, context: SupervisorContext, loads: map<AgentId, nat>, cards: seq<AgentCard>)
    : (best: Option<AgentCard>)
    ensures best.None? <==> forall card | card in cards :: !Eligible(stage, context, loads, card)
    ensures best.Some? ==>
      && best.value in cards && Eligible(stage, context, loads, best.value)
      && forall card | card in cards && Eligible(stage, context, loads, card) :: Precedes(stage, loads, best.value, card)
  {
    if cards == [] then None
    else
      var rest := SelectFrom(stage, context, loads, cards[1..]);
      assert forall card | card in cards :: card == cards[0] || card in cards[1..];
      if !Eligible(stage, context, loads, cards[0]) then rest
      else if rest.Some? && !Precedes(stage, loads, cards[0], rest.value) then rest
      else Some(cards[0])
  }

  function SelectCard(stage: TeamStageSpec, context: SupervisorContext, loads: map<AgentId, nat>): Option<AgentCard> {
    SelectFrom(stage, context, loads, context.cards)
  }

  predicate HasTransientCard(stage: TeamStageSpec, context: SupervisorContext) {
    exists card | card in context.cards ::
      stage.requiredCapabilities <= card.capabilities
      && (StatusOf(context, card.agentId).Idle? || StatusOf(context, card.agentId).Busy?
          || StatusOf(context, card.agentId).Waiting?)
  }

  // ---- readiness ----

  /** `sorted(contract.stages, key=stage_id)` */
  function Ordered(stages: seq<TeamStageSpec>): (sorted: seq<TeamStageSpec>)
    ensures forall s :: s in sorted <==> s in stages
  {
    if stages == [] then [] else Insert(stages[0], Ordered(stages[1..]))
  }

  function Insert(stage: TeamStageSpec, sorted: seq<TeamStageSpec>): (result: seq<TeamStageSpec>)
    ensures forall s :: s in result <==> s == stage || s in sorted
  {
    if sorted == [] then [stage]
    else if stage.stageId <= sorted[0].stageId then [stage] + sorted
    else [sorted[0]] + Insert(stage, sorted[1..])
  }

  lemma {:induction false} InsertKeepsDistinct(stage: TeamStageSpec, sorted: seq<TeamStageSpec>)
    requires DistinctStageIds(sorted) && forall s | s in sorted :: s.stageId != stage.stageId
    ensures DistinctStageIds(Insert(stage, sorted))
  {
    hide DistinctStageIds;
    if sorted == [] {
      assert DistinctStageIds([stage]) by { DistinctWithHead(stage, sorted); assert [stage] + sorted == [stage]; }
    } else {
      var head, rest := sorted[0], sorted[1..];
      assert sorted == [head] + rest;
      DistinctWithHead(head, rest);
      if stage.stageId <= head.stageId {
        DistinctWithHead(stage, sorted);
      } else {
        InsertKeepsDistinct(stage, rest);
        DistinctWithHead(head, Insert(stage, rest));
      }
    }
  }

  lemma {:induction false} OrderedKeepsDistinct(stages: seq<TeamStageSpec>)
    requires DistinctStageIds(stages)
    ensures DistinctStageIds(Ordered(stages))
  {
    if stages != [] {
      assert stages == [stages[0]] + stages[1..];
      DistinctWithHead(stages[0], stages[1..]);
      OrderedKeepsDistinct(stages[1..]);
      InsertKeepsDistinct(stages[0], Ordered(stages[1..]));
    }
  }

  ghost predicate InIdOrder(stages: seq<TeamStageSpec>) {
    forall i, j | 0 <= i < j < |stages| :: stages[i].stageId <= stages[j].stageId
  }

  lemma {:induction false} InsertKeepsOrder(stage: TeamStageSpec, sorted: seq<TeamStageSpec>)
    requires InIdOrder(sorted)
    ensures InIdOrder(Insert(stage, sorted))
  {
    if sorted != [] && stage.stageId > sorted[0].stageId {
      InsertKeepsOrder(stage, sorted[1..]);
      forall s | s in Insert(stage, sorted[1..])
        ensures sorted[0].stageId <= s.stageId
      {
        assert s == stage || s in sorted[1..];
      }
    }
  }

  /** Stages are considered in the order of their ids, and none is lost or repeated. */
  lemma {:induction false} OrderedIsSorted(stages: seq<TeamStageSpec>)
    ensures InIdOrder(Ordered(stages)) && multiset(Ordered(stages)) == multiset(stages)
  {
    if stages != [] {
      OrderedIsSorted(stages[1..]);
      InsertKeepsOrder(stages[0], Ordered(stages[1..]));
      InsertAddsOne(stages[0], Ordered(stages[1..]));
      assert stages == [stages[0]] + stages[1..];
    }
  }

  lemma {:induction false} InsertAddsOne(stage: TeamStageSpec, sorted: seq<TeamStageSpec>)
    ensures multiset(Insert(stage, sorted)) == multiset(sorted) + multiset{stage}
  {
    if sorted != [] && stage.stageId > sorted[0].stageId {
      InsertAddsOne(stage, sorted[1..]);
      assert sorted == [sorted[0]] + sorted[1..];
    }
  }

  predicate IsReadyCandidate(context: SupervisorContext, stage: TeamStageSpec) {
    && stage.stageId !in context.completed
    && stage.stageId !in context.active
    && Elements(stage.dependsOn) <= context.completed
  }

  predicate IsExhausted(contract: TeamContract, context: SupervisorContext, stage: TeamStageSpec) {
    At(context.attempts, stage.stageId) >= contract.maxStageAttempts
  }

  function Ready(contract: TeamContract, context: SupervisorContext, stages: seq<TeamStageSpec>): (ready: seq<TeamStageSpec>)
    ensures forall s :: s in ready <==> s in stages && IsReadyCandidate(context, s) && !IsExhausted(contract, context, s)
  {
    if stages == [] then []
    else
      var rest := Ready(contract, context, stages[1..]);
      if IsReadyCandidate(context, stages[0]) && !IsExhausted(contract, context, stages[0]) then [stages[0]] + rest
      else rest
  }

  lemma {:induction false} ReadyKeepsDistinct(contract: TeamContract, context: SupervisorContext, stages: seq<TeamStageSpec>)
    requires DistinctStageIds(stages)
    ensures DistinctStageIds(Ready(contract, context, stages))
  {
    hide DistinctStageIds;
    if stages != [] {
      assert stages == [stages[0]] + stages[1..];
      DistinctWithHead(stages[0], stages[1..]);
      ReadyKeepsDistinct(contract, context, stages[1..]);
      DistinctWithHead(stages[0], Ready(contract, context, stages[1..]));
    }
  }

  function Exhausted(contract: TeamContract, context: SupervisorContext): set<StageId> {
    set s | s in contract.stages && IsReadyCandidate(context, s) && IsExhausted(contract, context, s) :: s.stageId
  }

  // ---- selecting assignments ----

  datatype Selection = Selection(
    selected: seq<AssignmentProposal>,
    unavailable: seq<StageId>,
    capacityWaiting: seq<StageId>,
    loads: map<AgentId, nat>)

  function ProposalFor(contract: TeamContract, context: SupervisorContext, stage: TeamStageSpec, agent: AgentId): AssignmentProposal {
    var attempt := At(context.attempts, stage.stageId) + 1;
    AssignmentProposal(
      OfAttempt(context.run, stage.stageId, attempt), stage.stageId, attempt, agent, stage.goal,
      stage.requiredCapabilities, stage.exitCriteria, stage.resultKind, contract.version, contract.leaseSeconds,
      stage.assignmentContract)
  }

  function Consider(contract: TeamContract, context: SupervisorContext, capacity: nat, sel: Selection, stage: TeamStageSpec): Selection {
    if |sel.selected| >= capacity then sel
    else
      match SelectCard(stage, context, sel.loads)
      case None =>
        if HasTransientCard(stage, context) then sel.(capacityWaiting := sel.capacityWaiting + [stage.stageId])
        else sel.(unavailable := sel.unavailable + [stage.stageId])
      case Some(card) =>
        sel.(selected := sel.selected + [ProposalFor(contract, context, stage, card.agentId)],
             loads := sel.loads[card.agentId := At(sel.loads, card.agentId) + 1])
  }

  function SelectAll(contract: TeamContract, context: SupervisorContext, capacity: nat, ready: seq<TeamStageSpec>): Selection {
    if ready == [] then Selection([], [], [], context.loads)
    else
      Consider(contract, context, capacity, SelectAll(contract, context, capacity, ready[..|ready| - 1]), ready[|ready| - 1])
  }

  /** What one stage on the plan looks like to readers of the patch. */
  function ViewOf(stage: TeamStageSpec, completed: set<StageId>, active: set<StageId>, ready: set<StageId>,
                  chosen: map<StageId, AgentId>, blocked: set<StageId>, agents: map<StageId, AgentId>): StagePlanView
  {
    var state :=
      if stage.stageId in completed then CompletedStage
      else if stage.stageId in active || stage.stageId in chosen then ActiveStage
      else if stage.stageId in blocked then BlockedStage
      else if stage.stageId in ready then ReadyStage
      else PendingStage;
    var agent :=
      if stage.stageId in chosen then Some(chosen[stage.stageId])
      else if stage.stageId in agents then Some(agents[stage.stageId])
      else None;
    StagePlanView(stage.stageId, state, stage.dependsOn, agent)
  }

  function StageViews(stages: seq<TeamStageSpec>, completed: set<StageId>, active: set<StageId>, ready: set<StageId>,
                      chosen: map<StageId, AgentId>, blocked: set<StageId>, agents: map<StageId, AgentId>)
    : (views: seq<StagePlanView>)
    ensures |views| == |stages|
    ensures forall i | 0 <= i < |stages| :: views[i] == ViewOf(stages[i], completed, active, ready, chosen, blocked, agents)
  {
    if stages == [] then []
    else
      StageViews(stages[..|stages| - 1], completed, active, ready, chosen, blocked, agents)
      + [ViewOf(stages[|stages| - 1], completed, active, ready, chosen, blocked, agents)]
  }

  function ChosenAgents(selected: seq<AssignmentProposal>): map<StageId, AgentId> {
    if selected == [] then map[]
    else ChosenAgents(selected[..|selected| - 1])[selected[|selected| - 1].stageId := selected[|selected| - 1].agentId]
  }

  function RemainingCapacity(contract: TeamContract, active: set<StageId>): nat {
    if contract.maxParallelAssignments > |active| then contract.maxParallelAssignments - |active| else 0
  }

  /** The context restricted to the stages of the contract, as the first lines of `propose` restrict it. */
  function Restricted(contract: TeamContract, context: SupervisorContext): SupervisorContext {
    context.(completed := context.completed * StageIds(contract.stages), active := context.active * StageIds(contract.stages))
  }

  function ReadyStages(contract: TeamContract, context: SupervisorContext): seq<TeamStageSpec> {
    Ready(contract, Restricted(contract, context), Ordered(contract.stages))
  }

  function SelectionFor(contract: TeamContract, context: SupervisorContext): Selection {
    var local := Restricted(contract, context);
    SelectAll(contract, local, RemainingCapacity(contract, local.active), ReadyStages(contract, context))
  }

  function BlockedReason(exhausted: set<StageId>, sel: Selection, active: set<StageId>): Option<Directive> {
    if sel.selected != [] || active != {} then None
    else if exhausted != {} then Some(AttemptsExhausted(exhausted))
    else if sel.unavailable != [] then Some(NoCapableAgent(sel.unavailable))
    else None
  }

  function WaitingReason(exhausted: set<StageId>, sel: Selection, active: set<StageId>): Option<Directive> {
    if sel.selected != [] || active != {} || exhausted != {} || sel.unavailable != [] then None
    else if sel.capacityWaiting != [] then Some(CapacityUnavailable(sel.capacityWaiting))
    else None
  }

  /** The arguments `propose` hands to the PlanPatch constructor. */
  function Draft(contract: TeamContract, context: SupervisorContext): PlanPatch {
    var local := Restricted(contract, context);
    if local.completed == StageIds(contract.stages) then
      PlanPatch(context.revision + 1, contract.contractId, contract.version,
        StageViews(contract.stages, local.completed, local.active, {}, map[], {}, map[]), [], true, None, None, [])
    else
      var sel := SelectionFor(contract, context);
      var exhausted := Exhausted(contract, local);
      var blockedReason := BlockedReason(exhausted, sel, local.active);
      var blocked := exhausted + (if blockedReason.Some? then Elements(sel.unavailable) else {});
      PlanPatch(context.revision + 1, contract.contractId, contract.version,
        StageViews(contract.stages, local.completed, local.active, StageIds(ReadyStages(contract, context)),
          ChosenAgents(sel.selected), blocked, context.activeAgents),
        sel.selected, false, blockedReason, WaitingReason(exhausted, sel, local.active), sel.capacityWaiting)
  }

  datatype Proposed = Built(patch: PlanPatch) | RefusedByValidator

  function Proposal(contract: TeamContract, context: SupervisorContext): Proposed {
    if PatchValidates(Draft(contract, context)) then Built(Draft(contract, context)) else RefusedByValidator
  }

  // ---- the policy as it runs ----

  method BuildViews(stages: seq<TeamStageSpec>, completed: set<StageId>, active: set<StageId>, ready: set<StageId>,
                    chosen: map<StageId, AgentId>, blocked: set<StageId>, agents: map<StageId, AgentId>)
    returns (views: seq<StagePlanView>)
    ensures views == StageViews(stages, completed, active, ready, chosen, blocked, agents)
  {
    views := [];
    for i := 0 to |stages|
      invariant views == StageViews(stages[..i], completed, active, ready, chosen, blocked, agents)
    {
      assert stages[..i + 1][..i] == stages[..i];
      views := views + [ViewOf(stages[i], completed, active, ready, chosen, blocked, agents)];
    }
    assert stages[..|stages|] == stages;
  }

  /** The selection loop, which stops at the remaining capacity. */
  method SelectAssignments(contract: TeamContract, context: SupervisorContext, capacity: nat, ready: seq<TeamStageSpec>)
    returns (sel: Selection)
    ensures sel == SelectAll(contract, context, capacity, ready)
  {
    hide Consider;
    var i := 0;
    sel := Selection([], [], [], context.loads);
    while i < |ready|
      invariant 0 <= i <= |ready|
      invariant sel == SelectAll(contract, context, capacity, ready[..i])
    {
      if |sel.selected| >= capacity {
        FullSelectionStays(contract, context, capacity, ready, i);
        return;
      }
      assert ready[..i + 1][..i] == ready[..i];
      sel := Consider(contract, context, capacity, sel, ready[i]);
      i := i + 1;
    }
    assert ready[..|ready|] == ready;
  }

  lemma {:induction false} FullSelectionStays(contract: TeamContract, context: SupervisorContext, capacity: nat, ready: seq<TeamStageSpec>, i: nat)
    requires i <= |ready| && |SelectAll(contract, context, capacity, ready[..i]).selected| >= capacity
    ensures SelectAll(contract, context, capacity, ready) == SelectAll(contract, context, capacity, ready[..i])
    decreases |ready| - i
  {
    if i == |ready| {
      assert ready[..i] == ready;
    } else {
      assert ready[..i + 1][..i] == ready[..i];
      FullSelectionStays(contract, context, capacity, ready, i + 1);
    }
  }

  method Propose(contract: TeamContract, context: SupervisorContext) returns (proposed: Proposed)
    ensures proposed == Proposal(contract, context)
  {
    hide Ready, Ordered, Exhausted, SelectAll, ViewOf, StageViews, ChosenAgents, BlockedReason, WaitingReason, PatchValidates, RemainingCapacity;
    var local := Restricted(contract, context);
    var patch: PlanPatch;
    if local.completed == StageIds(contract.stages) {
      var views := BuildViews(contract.stages, local.completed, local.active, {}, map[], {}, map[]);
      patch := PlanPatch(context.revision + 1, contract.contractId, contract.version, views, [], true, None, None, []);
    } else {
      var ready := Ready(contract, local, Ordered(contract.stages));
      var exhausted := Exhausted(contract, local);
      var capacity := RemainingCapacity(contract, local.active);
      var sel := SelectAssignments(contract, local, capacity, ready);
      var blockedReason := BlockedReason(exhausted, sel, local.active);
      var blocked := exhausted + (if blockedReason.Some? then Elements(sel.unavailable) else {});
      var views := BuildViews(contract.stages, local.completed, local.active, StageIds(ready), ChosenAgents(sel.selected),
        blocked, context.activeAgents);
      patch := PlanPatch(context.revision + 1, contract.contractId, contract.version, views, sel.selected, false,
        blockedReason, WaitingReason(exhausted, sel, local.active), sel.capacityWaiting);
    }
    return if PatchValidates(patch) then Built(patch) else RefusedByValidator;
  }
}
