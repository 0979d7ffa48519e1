/** How the runtime assembles the supervisor's context from projected rows and the log. */
module ContextReader {
  import opened Contracts
  import opened Events
  import opened Projection
  import opened Orchestration
  import opened PolicyFacts
  import opened Admission
  import opened Agreement

  predicate IsAttempt(p: Projections, run: RunId, id: AssignmentId) {
    id in p.assignments && p.assignments[id].run == run && p.assignments[id].stage.Some?
  }

  ghost predicate IsAttemptOf(p: Projections, run: RunId, id: AssignmentId, stage: StageId, attempt: nat) {
    IsAttempt(p, run, id) && p.assignments[id].stage.value == stage && p.assignments[id].attempt == attempt
  }

  /** The table holds, for each stage, the largest attempt among the rows seen so far. */
  ghost predicate MaximaOf(p: Projections, run: RunId, seen: set<AssignmentId>, attempts: map<StageId, nat>) {
    && (forall id | id in seen && IsAttempt(p, run, id) ::
          p.assignments[id].attempt <= At(attempts, p.assignments[id].stage.value))
    && (forall stage | stage in attempts :: exists id :: id in seen && IsAttemptOf(p, run, id, stage, attempts[stage]))
  }

  lemma MaximaGrow(p: Projections, run: RunId, seen: set<AssignmentId>, attempts: map<StageId, nat>, id: AssignmentId)
    requires MaximaOf(p, run, seen, attempts) && IsAttempt(p, run, id)
    ensures
      var row := p.assignments[id]; var stage := row.stage.value;
      var best := if At(attempts, stage) >= row.attempt && stage in attempts then attempts[stage] else row.attempt;
      MaximaOf(p, run, seen + {id}, attempts[stage := best])
  {
    var row := p.assignments[id];
    var best := if At(attempts, row.stage.value) >= row.attempt && row.stage.value in attempts
                then attempts[row.stage.value] else row.attempt;
    var grown := attempts[row.stage.value := best];
    forall stage | stage in grown
      ensures exists x :: x in seen + {id} && IsAttemptOf(p, run, x, stage, grown[stage])
    {
      if stage == row.stage.value && best == row.attempt {
        assert IsAttemptOf(p, run, id, stage, grown[stage]);
      } else {
        var x :| x in seen && IsAttemptOf(p, run, x, stage, attempts[stage]);
        assert IsAttemptOf(p, run, x, stage, grown[stage]);
      }
    }
  }

  lemma MaximaAreLatest(p: Projections, run: RunId, attempts: map<StageId, nat>, stage: StageId)
    requires MaximaOf(p, run, p.assignments.Keys, attempts)
    ensures At(attempts, stage) == LatestAttempt(p, run, stage)
  {
    var values := AttemptsOf(p, run, stage);
    forall v | v in values
      ensures v <= At(attempts, stage)
    {
      var id :| id in p.assignments && p.assignments[id].run == run && p.assignments[id].stage == Some(stage)
        && p.assignments[id].attempt == v;
      assert IsAttempt(p, run, id);
    }
    if stage in attempts {
      var id :| id in p.assignments && IsAttemptOf(p, run, id, stage, attempts[stage]);
      assert attempts[stage] in values;
    }
  }

  method ReadAttempts(p: Projections, run: RunId) returns (attempts: map<StageId, nat>)
    ensures forall stage :: At(attempts, stage) == LatestAttempt(p, run, stage)
  {
    hide LatestAttempt, MaximaOf;
    attempts := map[];
    var todo := p.assignments.Keys;
    ghost var seen: set<AssignmentId> := {};
    NoMaximaYet(p, run);
    while todo != {}
      invariant seen + todo == p.assignments.Keys
      invariant MaximaOf(p, run, seen, attempts)
      decreases todo
    {
      var id :| id in todo;
      var row := p.assignments[id];
      if row.run == run && row.stage.Some? {
        MaximaGrow(p, run, seen, attempts, id);
        var best := if At(attempts, row.stage.value) >= row.attempt && row.stage.value in attempts
                    then attempts[row.stage.value] else row.attempt;
        attempts := attempts[row.stage.value := best];
      } else {
        OtherRowIsIgnored(p, run, seen, attempts, id);
      }
      seen := seen + {id};
      todo := todo - {id};
    }
    assert seen == p.assignments.Keys;
    forall stage
      ensures At(attempts, stage) == LatestAttempt(p, run, stage)
    {
      MaximaAreLatest(p, run, attempts, stage);
    }
  }

  lemma NoMaximaYet(p: Projections, run: RunId)
    ensures MaximaOf(p, run, {}, map[])
  {}

  lemma OtherRowIsIgnored(p: Projections, run: RunId, seen: set<AssignmentId>, attempts: map<StageId, nat>, id: AssignmentId)
    requires MaximaOf(p, run, seen, attempts) && !IsAttempt(p, run, id)
    ensures MaximaOf(p, run, seen + {id}, attempts)
  {
    forall stage | stage in attempts
      ensures exists x :: x in seen + {id} && IsAttemptOf(p, run, x, stage, attempts[stage])
    {
      var x :| x in seen && IsAttemptOf(p, run, x, stage, attempts[stage]);
      assert x in seen + {id};
    }
  }

  // ---- loads ----

  function HeldBy(p: Projections, ids: set<AssignmentId>, agent: AgentId): set<AssignmentId> {
    set id | id in ids && id in p.leases && p.leases[id].status.ActiveLease? && p.leases[id].agent == agent
  }

  lemma HeldByGrows(p: Projections, seen: set<AssignmentId>, id: AssignmentId, agent: AgentId)
    requires id !in seen && id in p.leases
    ensures |HeldBy(p, seen + {id}, agent)|
      == |HeldBy(p, seen, agent)| + (if p.leases[id].status.ActiveLease? && p.leases[id].agent == agent then 1 else 0)
  {
    if p.leases[id].status.ActiveLease? && p.leases[id].agent == agent {
      assert HeldBy(p, seen + {id}, agent) == HeldBy(p, seen, agent) + {id};
    } else {
      assert HeldBy(p, seen + {id}, agent) == HeldBy(p, seen, agent);
    }
  }

  /** Active leases of every run count towards an agent's load. */
  method ReadLoads(p: Projections) returns (loads: map<AgentId, nat>)
    ensures forall agent :: At(loads, agent) == |AgentLeases(p, agent)|
  {
    hide HeldBy, AgentLeases;
    loads := map[];
    var todo := p.leases.Keys;
    ghost var seen: set<AssignmentId> := {};
    NothingHeldYet(p);
    while todo != {}
      invariant seen + todo == p.leases.Keys && seen !! todo
      invariant forall agent :: At(loads, agent) == |HeldBy(p, seen, agent)|
      decreases todo
    {
      var id :| id in todo;
      forall agent
        ensures |HeldBy(p, seen + {id}, agent)|
          == |HeldBy(p, seen, agent)| + (if p.leases[id].status.ActiveLease? && p.leases[id].agent == agent then 1 else 0)
      {
        HeldByGrows(p, seen, id, agent);
      }
      if p.leases[id].status.ActiveLease? {
        loads := loads[p.leases[id].agent := At(loads, p.leases[id].agent) + 1];
      }
      seen := seen + {id};
      todo := todo - {id};
    }
    assert seen == p.leases.Keys;
    HeldInAll(p);
  }

  lemma NothingHeldYet(p: Projections)
    ensures forall agent :: HeldBy(p, {}, agent) == {}
  {}

  lemma HeldInAll(p: Projections)
    ensures forall agent :: HeldBy(p, p.leases.Keys, agent) == AgentLeases(p, agent)
  {}

  /** The stages under an active lease of the run, each with an agent holding one. */
  method ReadActiveAgents(p: Projections, run: RunId) returns (agents: map<StageId, AgentId>)
    ensures agents.Keys == ActiveStages(p, run)
    ensures forall stage | stage in agents :: exists id ::
      id in ActiveLeases(p, run) && p.leases[id].stage == Some(stage) && p.leases[id].agent == agents[stage]
  {
    agents := map[];
    var todo := ActiveLeases(p, run);
    ghost var seen: set<AssignmentId> := {};
    while todo != {}
      invariant seen + todo == ActiveLeases(p, run)
      invariant forall id | id in seen && p.leases[id].stage.Some? :: p.leases[id].stage.value in agents
      invariant forall stage | stage in agents :: exists id ::
        id in ActiveLeases(p, run) && p.leases[id].stage == Some(stage) && p.leases[id].agent == agents[stage]
      decreases todo
    {
      var id :| id in todo;
      if p.leases[id].stage.Some? {
        agents := agents[p.leases[id].stage.value := p.leases[id].agent];
      }
      seen := seen + {id};
      todo := todo - {id};
    }
    assert seen == ActiveLeases(p, run);
  }

  method ReadCards(p: Projections) returns (cards: seq<AgentCard>)
    ensures CardsDescribe(cards, p)
  {
    cards := [];
    var todo := p.agents.Keys;
    while todo != {}
      invariant todo <= p.agents.Keys
      invariant forall card | card in cards ::
        && card.agentId in p.agents
        && card == AgentCard(card.agentId, p.agents[card.agentId].capabilities, p.agents[card.agentId].maxConcurrency)
      invariant (set card | card in cards :: card.agentId) == p.agents.Keys - todo
      invariant OneCardEach(cards)
      decreases todo
    {
      var agent :| agent in todo;
      var card := AgentCard(agent, p.agents[agent].capabilities, p.agents[agent].maxConcurrency);
      ghost var before := cards;
      cards := cards + [card];
      todo := todo - {agent};
      assert (set c | c in cards :: c.agentId) == (set c | c in before :: c.agentId) + {agent} by {
        assert card in cards;
        assert forall c | c in before :: c in cards;
      }
    }
  }

  method ReadRevision(log: Log, run: RunId) returns (revision: nat)
    ensures revision == LatestRevision(log, run)
  {
    revision := 0;
    for i := 0 to |log|
      invariant revision == LatestRevision(log[..i], run)
    {
      assert log[..i + 1][..i] == log[..i];
      var e := log[i];
      if e.runId == run && e.fact.PlanPatched? && e.fact.revision > revision {
        revision := e.fact.revision;
      }
    }
    assert log[..|log|] == log;
  }

  /** `_supervisor_context`; transactions may run between its reads. */
  method ReadContext(runView: Projections, globalView: Projections, log: Log, run: RunId) returns (context: SupervisorContext)
    ensures IsContextBetween(context, runView, globalView, log, run)
    ensures runView == globalView ==> IsContextOf(context, log, runView, run)
  {
    hide CardsDescribe, LatestAttempt, AgentLeases, ActiveStages, CompletedStages, LatestRevision;
    var attempts := ReadAttempts(runView, run);
    var loads := ReadLoads(globalView);
    var activeAgents := ReadActiveAgents(runView, run);
    var cards := ReadCards(globalView);
    var revision := ReadRevision(log, run);
    context := SupervisorContext(run, revision, cards, map agent | agent in globalView.agents :: globalView.agents[agent].status,
      CompletedStages(runView, run), ActiveStages(runView, run), activeAgents, attempts, loads);
  }
}
