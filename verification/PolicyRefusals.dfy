/**
  When `propose` raises, told from the contract and the context alone. The patch's validator turns the
  policy's own draft down when a stage is queued for a busy agent beside anything that keeps the waiting
  reason unset. The selection pass is greedy, so whether a stage is queued depends on how agents fill up
  during the pass; the lemmas below bound that from both sides and make it exact when agents do not
  compete, when they are interchangeable, and when the team is stalled.
 */
module PolicyRefusals {
  import opened Contracts
  import opened Events
  import opened TeamGraph
  import opened Orchestration
  import opened PolicyFacts

  predicate HasEligibleCard(stage: TeamStageSpec, context: SupervisorContext) {
    exists card | card in context.cards :: Eligible(stage, context, context.loads, card)
  }

  function Smaller(a: nat, b: nat): nat {
    if a < b then a else b
  }

  /** How many assignments a pass makes at most. */
  function Slots(contract: TeamContract, context: SupervisorContext): nat {
    Smaller(|ReadyStages(contract, context)|, RemainingCapacity(contract, Restricted(contract, context).active))
  }

  /** Something other than a queued stage that keeps the waiting reason unset. */
  predicate Provoked(contract: TeamContract, context: SupervisorContext) {
    || Restricted(contract, context).active != {}
    || Exhausted(contract, Restricted(contract, context)) != {}
    || exists stage | stage in ReadyStages(contract, context) ::
         HasEligibleCard(stage, context) || !HasTransientCard(stage, context)
  }

  // ---- how a pass proceeds ----

  ghost predicate Extends(before: Selection, after: Selection) {
    && before.selected <= after.selected
    && before.unavailable <= after.unavailable
    && before.capacityWaiting <= after.capacityWaiting
    && forall agent :: At(before.loads, agent) <= At(after.loads, agent)
                       <= At(before.loads, agent) + |after.selected| - |before.selected|
  }

  lemma ConsiderExtends(contract: TeamContract, context: SupervisorContext, capacity: nat, sel: Selection, stage: TeamStageSpec)
    ensures Extends(sel, Consider(contract, context, capacity, sel, stage))
  {}

  lemma ExtendsIsTransitive(a: Selection, b: Selection, c: Selection)
    requires Extends(a, b) && Extends(b, c)
    ensures Extends(a, c)
  {}

  /** A longer pass only adds to a shorter one. */
  lemma {:induction false} PassExtends(contract: TeamContract, context: SupervisorContext, capacity: nat, ready: seq<TeamStageSpec>, i: nat)
    requires i <= |ready|
    ensures Extends(SelectAll(contract, context, capacity, ready[..i]), SelectAll(contract, context, capacity, ready))
  {
    hide Extends, Consider;
    if i == |ready| {
      assert ready[..i] == ready;
      SelfExtends(SelectAll(contract, context, capacity, ready));
    } else {
      var front := ready[..|ready| - 1];
      assert front[..i] == ready[..i];
      PassExtends(contract, context, capacity, front, i);
      var sel := SelectAll(contract, context, capacity, front);
      ConsiderExtends(contract, context, capacity, sel, ready[|ready| - 1]);
      ExtendsIsTransitive(SelectAll(contract, context, capacity, ready[..i]), sel, SelectAll(contract, context, capacity, ready));
    }
  }

  lemma SelfExtends(sel: Selection)
    ensures Extends(sel, sel)
  {}

  /** Each stage considered is answered once, and a pass cannot assign more than it considers. */
  lemma {:induction false} PassCounts(contract: TeamContract, context: SupervisorContext, capacity: nat, ready: seq<TeamStageSpec>)
    ensures var sel := SelectAll(contract, context, capacity, ready);
      && |sel.selected| <= Smaller(|ready|, capacity)
      && (|sel.selected| < capacity ==> |sel.selected| + |sel.unavailable| + |sel.capacityWaiting| == |ready|)
  {
    if ready != [] {
      PassCounts(contract, context, capacity, ready[..|ready| - 1]);
    }
  }

  /** The pass over `ready`, on reaching stage `i`, has capacity left and finds no agent but hopes for one. */
  predicate QueuedAt(contract: TeamContract, context: SupervisorContext, capacity: nat, ready: seq<TeamStageSpec>, i: nat)
    requires i < |ready|
  {
    var sel := SelectAll(contract, context, capacity, ready[..i]);
    |sel.selected| < capacity && SelectCard(ready[i], context, sel.loads).None? && HasTransientCard(ready[i], context)
  }

  lemma {:induction false} QueueHasItsStage(contract: TeamContract, context: SupervisorContext, capacity: nat, ready: seq<TeamStageSpec>)
    ensures SelectAll(contract, context, capacity, ready).capacityWaiting != [] <==>
      exists i: nat :: i < |ready| && QueuedAt(contract, context, capacity, ready, i)
  {
    hide HasTransientCard;
    if ready != [] {
      var n := |ready| - 1;
      var front := ready[..n];
      QueueHasItsStage(contract, context, capacity, front);
      forall i: nat | i < n
        ensures QueuedAt(contract, context, capacity, ready, i) == QueuedAt(contract, context, capacity, front, i)
      {
        assert front[..i] == ready[..i];
      }
      var sel := SelectAll(contract, context, capacity, front);
      var next := SelectAll(contract, context, capacity, ready);
      assert QueuedAt(contract, context, capacity, ready, n) <==> next.capacityWaiting != sel.capacityWaiting;
    }
  }

  /**
    For a pass that ends below its capacity, a ready stage is queued, unavailable or assigned, and which of
    the first two is decided by whether some agent could take it later.
   */
  lemma {:induction false} UnfilledPass(contract: TeamContract, context: SupervisorContext, capacity: nat, ready: seq<TeamStageSpec>)
    requires DistinctStageIds(ready)
    requires |SelectAll(contract, context, capacity, ready).selected| < capacity
    ensures var sel := SelectAll(contract, context, capacity, ready);
      && OnlyFrom(sel, StageIds(ready))
      && forall stage | stage in ready ::
           && (stage.stageId in sel.capacityWaiting <==> !IsAssigned(sel, stage.stageId) && HasTransientCard(stage, context))
           && (stage.stageId in sel.unavailable <==> !IsAssigned(sel, stage.stageId) && !HasTransientCard(stage, context))
  {
    hide HasTransientCard, DistinctStageIds, SelectCard;
    if ready != [] {
      var front, last := ready[..|ready| - 1], ready[|ready| - 1];
      assert ready == front + [last];
      DistinctWithLast(front, last);
      UnfilledPass(contract, context, capacity, front);
      assert last.stageId !in StageIds(front);
      OneMoreStage(contract, context, capacity, SelectAll(contract, context, capacity, front), StageIds(front), last);
      assert StageIds(ready) == StageIds(front) + {last.stageId};
    }
  }

  ghost predicate IsAssigned(sel: Selection, id: StageId) {
    exists p :: p in sel.selected && p.stageId == id
  }

  ghost predicate OnlyFrom(sel: Selection, ids: set<StageId>) {
    && (forall p | p in sel.selected :: p.stageId in ids)
    && (forall id | id in sel.capacityWaiting || id in sel.unavailable :: id in ids)
  }

  lemma OneMoreStage(contract: TeamContract, context: SupervisorContext, capacity: nat, sel: Selection, ids: set<StageId>, last: TeamStageSpec)
    requires OnlyFrom(sel, ids) && last.stageId !in ids && |sel.selected| < capacity
    ensures var next := Consider(contract, context, capacity, sel, last);
      && OnlyFrom(next, ids + {last.stageId})
      && (forall id | id in ids ::
            && IsAssigned(next, id) == IsAssigned(sel, id)
            && (id in next.capacityWaiting) == (id in sel.capacityWaiting)
            && (id in next.unavailable) == (id in sel.unavailable))
      && (last.stageId in next.capacityWaiting <==> !IsAssigned(next, last.stageId) && HasTransientCard(last, context))
      && (last.stageId in next.unavailable <==> !IsAssigned(next, last.stageId) && !HasTransientCard(last, context))
  {
    hide HasTransientCard, SelectCard;
    var next := Consider(contract, context, capacity, sel, last);
    if next.selected != sel.selected {
      var added := next.selected[|sel.selected|];
      assert next.selected == sel.selected + [added] && added.stageId == last.stageId;
      assert added in next.selected && IsAssigned(next, last.stageId);
      forall id | id in ids
        ensures IsAssigned(next, id) == IsAssigned(sel, id)
      {
        if IsAssigned(sel, id) {
          var p :| p in sel.selected && p.stageId == id;
          assert p in next.selected;
        }
      }
    }
  }

  /** Until a stage with an eligible agent comes up, nothing is assigned and every stage is answered by its prospects. */
  lemma {:induction false} FirstAssignment(contract: TeamContract, context: SupervisorContext, capacity: nat, ready: seq<TeamStageSpec>)
    requires capacity > 0
    ensures var sel := SelectAll(contract, context, capacity, ready);
      && (sel.selected != [] <==> exists stage | stage in ready :: HasEligibleCard(stage, context))
      && (sel.selected == [] ==>
            && sel.loads == context.loads
            && (sel.unavailable != [] <==> exists stage | stage in ready :: !HasTransientCard(stage, context))
            && (sel.capacityWaiting != [] <==> exists stage | stage in ready :: HasTransientCard(stage, context)))
  {
    hide HasTransientCard, HasEligibleCard;
    if ready != [] {
      var front, last := ready[..|ready| - 1], ready[|ready| - 1];
      assert ready == front + [last];
      FirstAssignment(contract, context, capacity, front);
      EligibleIsSelectable(context, last);
      assert forall stage :: stage in ready <==> stage in front || stage == last;
    }
  }

  lemma EligibleIsSelectable(context: SupervisorContext, stage: TeamStageSpec)
    ensures HasEligibleCard(stage, context) <==> SelectCard(stage, context, context.loads).Some?
  {}

  // ---- the refusal, up to the queue ----

  /** A refusal needs exactly three things: work left, a queued stage, and something that keeps the waiting reason unset. */
  lemma RefusalNeedsQueue(contract: TeamContract, context: SupervisorContext)
    ensures Proposal(contract, context).RefusedByValidator? <==>
      && Restricted(contract, context).completed != StageIds(contract.stages)
      && SelectionFor(contract, context).capacityWaiting != []
      && Provoked(contract, context)
  {
    hide SelectAll, Exhausted, ReadyStages, Proposal, HasEligibleCard, HasTransientCard;
    ProposalRefusedIff(contract, context);
    var local := Restricted(contract, context);
    var capacity := RemainingCapacity(contract, local.active);
    var ready := ReadyStages(contract, context);
    if capacity > 0 {
      FirstAssignment(contract, local, capacity, ready);
      RestrictedKeepsAgents(contract, context);
    } else {
      NoCapacityNoQueue(contract, local, ready);
    }
  }

  lemma RestrictedKeepsAgents(contract: TeamContract, context: SupervisorContext)
    ensures forall stage ::
      && HasEligibleCard(stage, Restricted(contract, context)) == HasEligibleCard(stage, context)
      && HasTransientCard(stage, Restricted(contract, context)) == HasTransientCard(stage, context)
  {}

  lemma {:induction false} NoCapacityNoQueue(contract: TeamContract, context: SupervisorContext, ready: seq<TeamStageSpec>)
    ensures SelectAll(contract, context, 0, ready) == Selection([], [], [], context.loads)
  {
    if ready != [] {
      NoCapacityNoQueue(contract, context, ready[..|ready| - 1]);
    }
  }

  // ---- sufficient conditions ----

  /**
    A stage that comes up while there is surely capacity left, that no agent can take now and some agent
    may take later, makes a provoked patch invalid.
   */
  lemma RefusedForBusyStage(contract: TeamContract, context: SupervisorContext, i: nat)
    requires i < Slots(contract, context)
    requires var stage := ReadyStages(contract, context)[i];
      !HasEligibleCard(stage, context) && HasTransientCard(stage, context)
    requires Restricted(contract, context).completed != StageIds(contract.stages)
    requires Provoked(contract, context)
    ensures Proposal(contract, context).RefusedByValidator?
  {
    hide SelectAll, ReadyStages, Proposal, HasTransientCard, Provoked, SelectCard;
    var local := Restricted(contract, context);
    var capacity := RemainingCapacity(contract, local.active);
    var ready := ReadyStages(contract, context);
    PassCounts(contract, local, capacity, ready[..i]);
    PassExtends(contract, local, capacity, ready[..i], 0);
    StillNotEligible(contract, local, capacity, ready, i);
    RestrictedKeepsAgents(contract, context);
    assert QueuedAt(contract, local, capacity, ready, i);
    QueueHasItsStage(contract, local, capacity, ready);
    RefusalNeedsQueue(contract, context);
  }

  lemma StillNotEligible(contract: TeamContract, context: SupervisorContext, capacity: nat, ready: seq<TeamStageSpec>, i: nat)
    requires i < |ready| && !HasEligibleCard(ready[i], context)
    ensures SelectCard(ready[i], context, SelectAll(contract, context, capacity, ready[..i]).loads).None?
  {
    PassStartsFrom(contract, context, capacity, ready[..i]);
    var loads := SelectAll(contract, context, capacity, ready[..i]).loads;
    forall card | card in context.cards
      ensures !Eligible(ready[i], context, loads, card)
    {
      assert !Eligible(ready[i], context, context.loads, card);
    }
  }

  /** During a pass an agent's load grows from the context's by at most the assignments made. */
  lemma PassStartsFrom(contract: TeamContract, context: SupervisorContext, capacity: nat, ready: seq<TeamStageSpec>)
    ensures var sel := SelectAll(contract, context, capacity, ready);
      forall agent :: At(context.loads, agent) <= At(sel.loads, agent) <= At(context.loads, agent) + |sel.selected|
  {
    PassExtends(contract, context, capacity, ready, 0);
    assert ready[..0] == [];
  }

  /** An available, capable agent with room for every assignment of the pass. */
  predicate HasRoomyCard(stage: TeamStageSpec, context: SupervisorContext, slots: nat) {
    exists card | card in context.cards ::
      Eligible(stage, context, context.loads, card) && At(context.loads, card.agentId) + slots <= card.maxConcurrency
  }

  /**
    The patch is never refused when each ready stage has an agent with room for the whole pass or no
    prospect at all, when no capacity is left, or when nothing keeps the waiting reason unset.
   */
  lemma NeverRefused(contract: TeamContract, context: SupervisorContext)
    requires
      || !Provoked(contract, context)
      || Slots(contract, context) == 0
      || forall stage | stage in ReadyStages(contract, context) ::
           HasRoomyCard(stage, context, Slots(contract, context)) || !HasTransientCard(stage, context)
    ensures Proposal(contract, context).Built?
  {
    hide SelectAll, ReadyStages, Proposal, HasTransientCard, Provoked, SelectCard, HasRoomyCard;
    RefusalNeedsQueue(contract, context);
    var local := Restricted(contract, context);
    var capacity := RemainingCapacity(contract, local.active);
    var ready := ReadyStages(contract, context);
    QueueHasItsStage(contract, local, capacity, ready);
    RestrictedKeepsAgents(contract, context);
    if i: nat :| i < |ready| && QueuedAt(contract, local, capacity, ready, i) {
      assert ready[i] in ready;
      if HasRoomyCard(ready[i], context, Slots(contract, context)) {
        RoomyStageIsAssigned(contract, context, i);
      }
    }
  }

  lemma RoomyStageIsAssigned(contract: TeamContract, context: SupervisorContext, i: nat)
    requires i < |ReadyStages(contract, context)|
    requires HasRoomyCard(ReadyStages(contract, context)[i], context, Slots(contract, context))
    ensures var local := Restricted(contract, context);
      !QueuedAt(contract, local, RemainingCapacity(contract, local.active), ReadyStages(contract, context), i)
  {
    hide SelectAll, ReadyStages, HasTransientCard;
    var local := Restricted(contract, context);
    var capacity := RemainingCapacity(contract, local.active);
    var ready := ReadyStages(contract, context);
    PassCounts(contract, local, capacity, ready[..i]);
    PassStartsFrom(contract, local, capacity, ready[..i]);
    var sel := SelectAll(contract, local, capacity, ready[..i]);
    var card :| card in context.cards && Eligible(ready[i], context, context.loads, card)
      && At(context.loads, card.agentId) + Slots(contract, context) <= card.maxConcurrency;
    if |sel.selected| < capacity {
      assert Eligible(ready[i], local, sel.loads, card);
    }
  }

  // ---- exact conditions ----

  predicate IsAvailable(context: SupervisorContext, card: AgentCard) {
    StatusOf(context, card.agentId).Idle? || StatusOf(context, card.agentId).Busy?
  }

  /** No available agent can fill up during a pass: each is full already or has room for all of it. */
  predicate NoCompetition(context: SupervisorContext, slots: nat) {
    forall card | card in context.cards && IsAvailable(context, card) ::
      At(context.loads, card.agentId) >= card.maxConcurrency || At(context.loads, card.agentId) + slots <= card.maxConcurrency
  }

  function CountEligible(context: SupervisorContext, stages: seq<TeamStageSpec>): nat {
    if stages == [] then 0
    else CountEligible(context, stages[..|stages| - 1]) + (if HasEligibleCard(stages[|stages| - 1], context) then 1 else 0)
  }

  /** Among the ready stages in id order, one that only a busy agent could take comes up before the capacity is used up. */
  predicate BusyStageComesUp(contract: TeamContract, context: SupervisorContext) {
    var ready := ReadyStages(contract, context);
    exists i: nat :: i < |ready| && ComesUpBusy(contract, context, ready, i)
  }

  predicate ComesUpBusy(contract: TeamContract, context: SupervisorContext, ready: seq<TeamStageSpec>, i: nat)
    requires i < |ready|
  {
    && !HasEligibleCard(ready[i], context) && HasTransientCard(ready[i], context)
    && CountEligible(context, ready[..i]) < RemainingCapacity(contract, Restricted(contract, context).active)
  }

  /** Without competition the refusal is decided by the context as it stands. */
  lemma RefusedWithoutCompetitionIff(contract: TeamContract, context: SupervisorContext)
    requires NoCompetition(context, Slots(contract, context))
    ensures Proposal(contract, context).RefusedByValidator? <==>
      && Restricted(contract, context).completed != StageIds(contract.stages)
      && BusyStageComesUp(contract, context)
      && Provoked(contract, context)
  {
    hide SelectAll, ReadyStages, Proposal, HasTransientCard, HasEligibleCard, Provoked, SelectCard, NoCompetition, QueuedAt, ComesUpBusy;
    RefusalNeedsQueue(contract, context);
    var local := Restricted(contract, context);
    var capacity := RemainingCapacity(contract, local.active);
    var ready := ReadyStages(contract, context);
    QueueHasItsStage(contract, local, capacity, ready);
    forall i: nat | i < |ready|
      ensures QueuedAt(contract, local, capacity, ready, i) <==> ComesUpBusy(contract, context, ready, i)
    {
      QueuedIffBusy(contract, context, i);
    }
  }

  lemma QueuedIffBusy(contract: TeamContract, context: SupervisorContext, i: nat)
    requires NoCompetition(context, Slots(contract, context)) && i < |ReadyStages(contract, context)|
    ensures var local := Restricted(contract, context);
      QueuedAt(contract, local, RemainingCapacity(contract, local.active), ReadyStages(contract, context), i)
      <==> ComesUpBusy(contract, context, ReadyStages(contract, context), i)
  {
    hide SelectAll, ReadyStages, HasTransientCard, HasEligibleCard, SelectCard, NoCompetition;
    var local := Restricted(contract, context);
    var capacity := RemainingCapacity(contract, local.active);
    var ready := ReadyStages(contract, context);
    RestrictedKeepsAgents(contract, context);
    assert NoCompetition(local, Smaller(|ready|, capacity)) by { RestrictedKeepsCompetition(contract, context, Smaller(|ready|, capacity)); }
    UncontestedCount(contract, local, capacity, ready, i);
    SameEligibleCount(contract, context, ready[..i]);
    if |SelectAll(contract, local, capacity, ready[..i]).selected| < capacity {
      EligibilityPersists(contract, local, capacity, ready, i);
    }
  }

  lemma RestrictedKeepsCompetition(contract: TeamContract, context: SupervisorContext, slots: nat)
    ensures NoCompetition(Restricted(contract, context), slots) == NoCompetition(context, slots)
  {}

  lemma {:induction false} SameEligibleCount(contract: TeamContract, context: SupervisorContext, stages: seq<TeamStageSpec>)
    ensures CountEligible(Restricted(contract, context), stages) == CountEligible(context, stages)
  {
    RestrictedKeepsAgents(contract, context);
    if stages != [] {
      SameEligibleCount(contract, context, stages[..|stages| - 1]);
    }
  }

  /** Without competition an agent eligible at the start stays eligible until the capacity is used up. */
  lemma EligibilityPersists(contract: TeamContract, context: SupervisorContext, capacity: nat, ready: seq<TeamStageSpec>, i: nat)
    requires i < |ready| && NoCompetition(context, Smaller(|ready|, capacity))
    requires |SelectAll(contract, context, capacity, ready[..i]).selected| < capacity
    ensures SelectCard(ready[i], context, SelectAll(contract, context, capacity, ready[..i]).loads).Some?
      <==> HasEligibleCard(ready[i], context)
  {
    hide SelectAll;
    var sel := SelectAll(contract, context, capacity, ready[..i]);
    PassCounts(contract, context, capacity, ready[..i]);
    PassStartsFrom(contract, context, capacity, ready[..i]);
    forall card | card in context.cards
      ensures Eligible(ready[i], context, sel.loads, card) <==> Eligible(ready[i], context, context.loads, card)
    {}
  }

  lemma {:induction false} UncontestedCount(contract: TeamContract, context: SupervisorContext, capacity: nat, ready: seq<TeamStageSpec>, i: nat)
    requires i <= |ready| && NoCompetition(context, Smaller(|ready|, capacity))
    ensures |SelectAll(contract, context, capacity, ready[..i]).selected| == Smaller(CountEligible(context, ready[..i]), capacity)
  {
    hide HasEligibleCard, NoCompetition, SelectCard;
    if i > 0 {
      UncontestedCount(contract, context, capacity, ready, i - 1);
      assert ready[..i][..i - 1] == ready[..i - 1];
      var sel := SelectAll(contract, context, capacity, ready[..i - 1]);
      if |sel.selected| < capacity {
        EligibilityPersists(contract, context, capacity, ready, i - 1);
      }
    }
  }

  // ---- interchangeable agents ----

  /** The assignments the available agents among `cards` still have room for. */
  function Spare(context: SupervisorContext, cards: seq<AgentCard>, loads: map<AgentId, nat>): nat {
    if cards == [] then 0
    else
      Spare(context, cards[1..], loads)
      + (if IsAvailable(context, cards[0]) && At(loads, cards[0].agentId) < cards[0].maxConcurrency
         then cards[0].maxConcurrency - At(loads, cards[0].agentId) else 0)
  }

  lemma {:induction false} OtherLoadsKeepSpare(context: SupervisorContext, cards: seq<AgentCard>, loads: map<AgentId, nat>, agent: AgentId, load: nat)
    requires forall card | card in cards :: card.agentId != agent
    ensures Spare(context, cards, loads[agent := load]) == Spare(context, cards, loads)
  {
    if cards != [] {
      assert cards[0] in cards;
      OtherLoadsKeepSpare(context, cards[1..], loads, agent, load);
    }
  }

  /** An assignment to an agent with room uses up one of the spare places. */
  lemma {:induction false} AssigningUsesSpare(context: SupervisorContext, cards: seq<AgentCard>, loads: map<AgentId, nat>, card: AgentCard)
    requires OneCardEach(cards) && card in cards
    requires IsAvailable(context, card) && At(loads, card.agentId) < card.maxConcurrency
    ensures Spare(context, cards, loads[card.agentId := At(loads, card.agentId) + 1]) + 1 == Spare(context, cards, loads)
  {
    if cards[0] == card {
      OtherLoadsKeepSpare(context, cards[1..], loads, card.agentId, At(loads, card.agentId) + 1);
    } else {
      AssigningUsesSpare(context, cards[1..], loads, card);
      var k :| 0 <= k < |cards| && cards[k] == card;
    }
  }

  lemma {:induction false} PassUsesSpare(contract: TeamContract, context: SupervisorContext, capacity: nat, ready: seq<TeamStageSpec>)
    requires OneCardEach(context.cards)
    ensures var sel := SelectAll(contract, context, capacity, ready);
      Spare(context, context.cards, sel.loads) + |sel.selected| == Spare(context, context.cards, context.loads)
  {
    hide OneCardEach, Spare;
    if ready != [] {
      var front, last := ready[..|ready| - 1], ready[|ready| - 1];
      PassUsesSpare(contract, context, capacity, front);
      var sel := SelectAll(contract, context, capacity, front);
      var chosen := SelectCard(last, context, sel.loads);
      if |sel.selected| < capacity && chosen.Some? {
        AssigningUsesSpare(context, context.cards, sel.loads, chosen.value);
      }
    }
  }

  lemma {:induction false} NoSpareMeansFull(context: SupervisorContext, cards: seq<AgentCard>, loads: map<AgentId, nat>)
    ensures Spare(context, cards, loads) == 0 <==>
      forall card | card in cards :: !(IsAvailable(context, card) && At(loads, card.agentId) < card.maxConcurrency)
  {
    if cards != [] {
      NoSpareMeansFull(context, cards[1..], loads);
      assert cards == [cards[0]] + cards[1..];
    }
  }

  /** With less spare room in the team than the pass has slots, some stage with a prospect is left over. */
  lemma RefusedWithoutSpare(contract: TeamContract, context: SupervisorContext)
    requires OneCardEach(context.cards)
    requires forall stage | stage in ReadyStages(contract, context) :: HasTransientCard(stage, context)
    requires Spare(context, context.cards, context.loads) < Slots(contract, context)
    requires Restricted(contract, context).completed != StageIds(contract.stages)
    requires Provoked(contract, context)
    ensures Proposal(contract, context).RefusedByValidator?
  {
    hide SelectAll, ReadyStages, Proposal, HasTransientCard, HasEligibleCard, Provoked, OneCardEach;
    var local := Restricted(contract, context);
    var capacity := RemainingCapacity(contract, local.active);
    var ready := ReadyStages(contract, context);
    RestrictedKeepsAgents(contract, context);
    RestrictedKeepsSpare(contract, context, context.cards, context.loads);
    PassUsesSpare(contract, local, capacity, ready);
    PassCounts(contract, local, capacity, ready);
    AllHaveProspects(contract, local, capacity, ready);
    RefusalNeedsQueue(contract, context);
  }

  lemma {:induction false} AllHaveProspects(contract: TeamContract, context: SupervisorContext, capacity: nat, ready: seq<TeamStageSpec>)
    requires forall stage | stage in ready :: HasTransientCard(stage, context)
    ensures SelectAll(contract, context, capacity, ready).unavailable == []
  {
    if ready != [] {
      AllHaveProspects(contract, context, capacity, ready[..|ready| - 1]);
    }
  }

  lemma {:induction false} RestrictedKeepsSpare(contract: TeamContract, context: SupervisorContext, cards: seq<AgentCard>, loads: map<AgentId, nat>)
    ensures Spare(Restricted(contract, context), cards, loads) == Spare(context, cards, loads)
  {
    if cards != [] {
      RestrictedKeepsSpare(contract, context, cards[1..], loads);
    }
  }

  /** Every available agent can do every ready stage. */
  predicate Interchangeable(contract: TeamContract, context: SupervisorContext) {
    forall stage, card | stage in ReadyStages(contract, context) && card in context.cards && IsAvailable(context, card) ::
      stage.requiredCapabilities <= card.capabilities
  }

  /** With interchangeable agents the refusal is a matter of counting places. */
  lemma RefusedIfInterchangeableIff(contract: TeamContract, context: SupervisorContext)
    requires OneCardEach(context.cards) && Interchangeable(contract, context)
    ensures Proposal(contract, context).RefusedByValidator? <==>
      && Restricted(contract, context).completed != StageIds(contract.stages)
      && Spare(context, context.cards, context.loads) < Slots(contract, context)
      && (exists stage | stage in ReadyStages(contract, context) :: HasTransientCard(stage, context))
      && Provoked(contract, context)
  {
    hide SelectAll, ReadyStages, Proposal, HasTransientCard, HasEligibleCard, Provoked, OneCardEach, Interchangeable, Slots;
    RefusalNeedsQueue(contract, context);
    if Proposal(contract, context).RefusedByValidator? {
      QueueMeansFull(contract, context);
    } else if Restricted(contract, context).completed != StageIds(contract.stages)
              && Spare(context, context.cards, context.loads) < Slots(contract, context) && Provoked(contract, context)
              && exists stage | stage in ReadyStages(contract, context) :: HasTransientCard(stage, context) {
      if card :| card in context.cards && IsAvailable(context, card) {
        AnAgentForAll(contract, context, card);
        RefusedWithoutSpare(contract, context);
      } else {
        NobodyAvailableQueues(contract, context);
      }
    }
  }

  lemma AnAgentForAll(contract: TeamContract, context: SupervisorContext, card: AgentCard)
    requires Interchangeable(contract, context) && card in context.cards && IsAvailable(context, card)
    ensures forall stage | stage in ReadyStages(contract, context) :: HasTransientCard(stage, context)
  {
    hide ReadyStages;
  }

  lemma NobodyAvailableQueues(contract: TeamContract, context: SupervisorContext)
    requires forall card | card in context.cards :: !IsAvailable(context, card)
    requires Slots(contract, context) > 0
    requires exists stage | stage in ReadyStages(contract, context) :: HasTransientCard(stage, context)
    ensures SelectionFor(contract, context).capacityWaiting != []
  {
    hide ReadyStages, SelectAll, HasTransientCard;
    var local := Restricted(contract, context);
    RestrictedKeepsAgents(contract, context);
    FirstAssignment(contract, local, RemainingCapacity(contract, local.active), ReadyStages(contract, context));
  }

  lemma QueueMeansFull(contract: TeamContract, context: SupervisorContext)
    requires OneCardEach(context.cards) && Interchangeable(contract, context)
    requires SelectionFor(contract, context).capacityWaiting != []
    ensures Spare(context, context.cards, context.loads) < Slots(contract, context)
    ensures exists stage | stage in ReadyStages(contract, context) :: HasTransientCard(stage, context)
  {
    hide ReadyStages, SelectAll, HasTransientCard, Interchangeable, OneCardEach, Slots;
    var local := Restricted(contract, context);
    var capacity := RemainingCapacity(contract, local.active);
    var ready := ReadyStages(contract, context);
    QueueHasItsStage(contract, local, capacity, ready);
    var i: nat :| i < |ready| && QueuedAt(contract, local, capacity, ready, i);
    QueuedMeansFull(contract, context, i);
    RestrictedKeepsAgents(contract, context);
    assert ready[i] in ready;
  }

  lemma QueuedMeansFull(contract: TeamContract, context: SupervisorContext, i: nat)
    requires OneCardEach(context.cards) && Interchangeable(contract, context) && i < |ReadyStages(contract, context)|
    requires var local := Restricted(contract, context);
      QueuedAt(contract, local, RemainingCapacity(contract, local.active), ReadyStages(contract, context), i)
    ensures Spare(context, context.cards, context.loads) < Slots(contract, context)
  {
    hide SelectAll, ReadyStages, HasTransientCard, OneCardEach, Spare;
    var local := Restricted(contract, context);
    var capacity := RemainingCapacity(contract, local.active);
    var ready := ReadyStages(contract, context);
    var sel := SelectAll(contract, local, capacity, ready[..i]);
    PassUsesSpare(contract, local, capacity, ready[..i]);
    PassCounts(contract, local, capacity, ready[..i]);
    RestrictedKeepsSpare(contract, context, context.cards, context.loads);
    assert ready[i] in ready;
    forall card | card in local.cards
      ensures !(IsAvailable(local, card) && At(sel.loads, card.agentId) < card.maxConcurrency)
    {
      assert !Eligible(ready[i], local, sel.loads, card);
    }
    NoSpareMeansFull(local, local.cards, sel.loads);
  }

  // ---- the stalled team ----

  function IdsOf(stages: seq<TeamStageSpec>): seq<StageId> {
    seq(|stages|, i requires 0 <= i < |stages| => stages[i].stageId)
  }

  /** Nothing runs, nothing can be assigned now, work and capacity are left. */
  predicate Stalled(contract: TeamContract, context: SupervisorContext) {
    && !(StageIds(contract.stages) <= context.completed)
    && context.active !! StageIds(contract.stages)
    && contract.maxParallelAssignments >= 1
    && forall stage | stage in ReadyStages(contract, context) :: !HasEligibleCard(stage, context)
  }

  lemma {:induction false} StalledPass(contract: TeamContract, context: SupervisorContext, capacity: nat, ready: seq<TeamStageSpec>)
    requires capacity > 0 && forall stage | stage in ready :: !HasEligibleCard(stage, context)
    ensures var sel := SelectAll(contract, context, capacity, ready);
      && sel.selected == [] && sel.loads == context.loads
      && ((forall stage | stage in ready :: HasTransientCard(stage, context)) ==> sel.capacityWaiting == IdsOf(ready) && sel.unavailable == [])
      && ((forall stage | stage in ready :: !HasTransientCard(stage, context)) ==> sel.unavailable == IdsOf(ready) && sel.capacityWaiting == [])
  {
    hide HasEligibleCard, HasTransientCard, SelectCard;
    if ready != [] {
      var front, last := ready[..|ready| - 1], ready[|ready| - 1];
      assert forall stage | stage in front :: stage in ready;
      assert last in ready;
      StalledPass(contract, context, capacity, front);
      EligibleIsSelectable(context, last);
      assert IdsOf(ready) == IdsOf(front) + [last.stageId];
    }
  }

  /**
    A stalled team reports why it is stalled unless its reasons are mixed: exhausted stages or stages
    nobody can do, beside stages that only wait for a busy agent, make the patch invalid and nothing is
    reported at all.
   */
  lemma StalledTeamVerdict(contract: TeamContract, context: SupervisorContext)
    requires Stalled(contract, context)
    ensures var local := Restricted(contract, context);
      var ready := ReadyStages(contract, context);
      var exhausted := Exhausted(contract, local);
      var proposed := Proposal(contract, context);
      && (proposed.RefusedByValidator? <==>
            && (exists stage | stage in ready :: HasTransientCard(stage, context))
            && (exhausted != {} || exists stage | stage in ready :: !HasTransientCard(stage, context)))
      && (proposed.Built? ==> proposed.patch.assignments == [] && !proposed.patch.completionReady)
      && (proposed.Built? && exhausted != {} ==> proposed.patch.blockedReason == Some(AttemptsExhausted(exhausted)))
      && (proposed.Built? && exhausted == {} && ready != [] ==>
            if HasTransientCard(ready[0], context)
            then proposed.patch.waitingReason == Some(CapacityUnavailable(IdsOf(ready)))
            else proposed.patch.blockedReason == Some(NoCapableAgent(IdsOf(ready))))
  {
    hide SelectAll, Exhausted, ReadyStages, HasEligibleCard, HasTransientCard, Proposal, StageViews, ChosenAgents, IdsOf;
    var local := Restricted(contract, context);
    var ready := ReadyStages(contract, context);
    var capacity := RemainingCapacity(contract, local.active);
    assert local.active == {} && local.completed != StageIds(contract.stages);
    RestrictedKeepsAgents(contract, context);
    StalledPass(contract, local, capacity, ready);
    FirstAssignment(contract, local, capacity, ready);
    RefusalNeedsQueue(contract, context);
    ProposalIsDraft(contract, context);
    if ready != [] {
      assert ready[0] in ready;
    }
  }

  lemma ProposalIsDraft(contract: TeamContract, context: SupervisorContext)
    ensures Proposal(contract, context).Built? ==> Proposal(contract, context).patch == Draft(contract, context)
  {}

  /**
    While work remains and nothing is running, an accepted contract never goes unanswered in silence: a
    patch that is built assigns a stage or names what blocks or delays the team.
   */
  lemma BuiltPatchAnswers(contract: TeamContract, context: SupervisorContext)
    requires AcceptedContract(contract) && contract.maxParallelAssignments >= 1
    requires !(StageIds(contract.stages) <= context.completed)
    requires context.active !! StageIds(contract.stages)
    ensures var proposed := Proposal(contract, context);
      proposed.Built? ==>
        || proposed.patch.assignments != []
        || proposed.patch.blockedReason.Some?
        || proposed.patch.waitingReason.Some?
  {
    hide AcceptedContract, Draft, Proposal;
    NoSilentDeadlock(contract, context);
    ProposalIsDraft(contract, context);
  }
}
