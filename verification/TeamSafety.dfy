/** Proof that every permitted step keeps the team invariant, and what the invariant says of a run. */
module TeamSafety {
  import opened Contracts
  import opened Events
  import opened Projection
  import opened TeamGraph
  import opened Orchestration
  import opened PolicyFacts
  import opened Admission
  import opened TeamRuns

  // ---- steps that only shrink the work in progress ----

  ghost predicate LeasesShrink(p: Projections, q: Projections) {
    && q.leases.Keys == p.leases.Keys
    && forall id | id in q.leases ::
         && q.leases[id].run == p.leases[id].run
         && q.leases[id].stage == p.leases[id].stage
         && q.leases[id].agent == p.leases[id].agent
         && (q.leases[id].status.ActiveLease? ==> p.leases[id].status.ActiveLease?)
  }

  ghost predicate AssignmentsSettle(p: Projections, q: Projections) {
    && p.assignments.Keys <= q.assignments.Keys
    && (forall id | id in p.assignments ::
          && q.assignments[id].run == p.assignments[id].run
          && q.assignments[id].stage == p.assignments[id].stage
          && (q.assignments[id].stage.Some? ==>
                SucceededAssignment(q.assignments[id].status) == SucceededAssignment(p.assignments[id].status)))
    && (forall id | id in q.assignments && id !in p.assignments :: q.assignments[id].stage.None?)
  }

  ghost predicate RosterGrows(p: Projections, q: Projections) {
    && p.agents.Keys <= q.agents.Keys
    && forall agent | agent in p.agents :: q.agents[agent].maxConcurrency == p.agents[agent].maxConcurrency
  }

  ghost predicate WorkShrinks(p: Projections, q: Projections) {
    LeasesShrink(p, q) && AssignmentsSettle(p, q) && RosterGrows(p, q)
  }

  lemma OccupationShrinks(log: Log, p: Projections, q: Projections, id: AssignmentId)
    requires LinksHold(log, p) && WorkShrinks(p, q) && Occupies(q, id)
    ensures Occupies(p, id) && q.assignments[id].run == p.assignments[id].run
    ensures q.assignments[id].stage == p.assignments[id].stage
  {}

  lemma CompletionsKept(p: Projections, q: Projections, run: RunId)
    requires AssignmentsSettle(p, q)
    ensures CompletedStages(p, run) <= CompletedStages(q, run)
  {
    forall stage | stage in CompletedStages(p, run)
      ensures stage in CompletedStages(q, run)
    {
      var id :| id in p.assignments && RowCompletes(p.assignments[id], run) && p.assignments[id].stage.value == stage;
      assert RowCompletes(q.assignments[id], run);
    }
  }

  lemma ShrinkKeepsLinks(log: Log, p: Projections, q: Projections)
    requires LinksHold(log, p) && WorkShrinks(p, q)
    ensures LinksHold(log, q)
  {
    hide AcceptedContract;
  }

  lemma ShrinkKeepsStages(log: Log, p: Projections, q: Projections)
    requires LinksHold(log, p) && StagesExclusive(p) && WorkShrinks(p, q)
    ensures StagesExclusive(q)
  {
    hide AcceptedContract;
    forall a, b | Occupies(q, a) && Occupies(q, b) && a != b && q.assignments[a].run == q.assignments[b].run
      ensures q.assignments[a].stage != q.assignments[b].stage
    {
      OccupationShrinks(log, p, q, a);
      OccupationShrinks(log, p, q, b);
    }
  }

  lemma ShrinkKeepsDependencies(log: Log, p: Projections, q: Projections)
    requires LinksHold(log, p) && DependenciesMet(log, p) && WorkShrinks(p, q)
    ensures DependenciesMet(log, q)
  {
    hide AcceptedContract, LinksHold, WorkShrinks;
    forall id | Occupies(q, id)
      ensures Occupies(p, id) && q.assignments[id].run == p.assignments[id].run
      ensures q.assignments[id].stage == p.assignments[id].stage
      ensures CompletedStages(p, p.assignments[id].run) <= CompletedStages(q, p.assignments[id].run)
    {
      OccupationShrinks(log, p, q, id);
      ShrinkSettles(p, q);
      CompletionsKept(p, q, p.assignments[id].run);
    }
  }

  lemma ShrinkSettles(p: Projections, q: Projections)
    requires WorkShrinks(p, q)
    ensures AssignmentsSettle(p, q)
  {}

  lemma SubsetIsNotLarger<T>(a: set<T>, b: set<T>)
    requires a <= b
    ensures |a| <= |b|
  {
    assert b == a + (b - a);
  }

  lemma ShrinkKeepsCapacity(log: Log, p: Projections, q: Projections)
    requires LinksHold(log, p) && CapacityHolds(log, p) && WorkShrinks(p, q)
    ensures CapacityHolds(log, q)
  {
    hide AcceptedContract;
    forall run
      ensures |ActiveLeases(q, run)| <= |ActiveLeases(p, run)|
    {
      SubsetIsNotLarger(ActiveLeases(q, run), ActiveLeases(p, run));
    }
    forall agent | agent in q.agents && AgentLeases(q, agent) != {}
      ensures agent in p.agents && |AgentLeases(q, agent)| <= |AgentLeases(p, agent)| && AgentLeases(p, agent) != {}
    {
      var id :| id in AgentLeases(q, agent);
      assert id in AgentLeases(p, agent);
      SubsetIsNotLarger(AgentLeases(q, agent), AgentLeases(p, agent));
    }
  }

  lemma ShrinkKeepsInvariant(log: Log, p: Projections, q: Projections)
    requires TeamInvariant(log, p) && WorkShrinks(p, q)
    ensures TeamInvariant(log, q)
  {
    hide LinksHold, StagesExclusive, DependenciesMet, CapacityHolds, WorkShrinks;
    ShrinkKeepsLinks(log, p, q);
    ShrinkKeepsStages(log, p, q);
    ShrinkKeepsDependencies(log, p, q);
    ShrinkKeepsCapacity(log, p, q);
  }

  lemma RuntimeEventShrinksWork(log: Log, e: Event)
    requires RuntimeMayAppend(log, e)
    ensures WorkShrinks(Fold(log), Fold(log + [e]))
  {
    hide Fold, CreatedEvent, AcceptedContract, ProjectRun, MoveAgent;
    FoldAppend(log, e);
  }

  lemma NewContractKeepsInvariant(log: Log, e: Event, p: Projections)
    requires RuntimeMayAppend(log, e) && e.fact.RunCreated? && CreatedEvent(log, e.runId).None?
    requires TeamInvariant(log, p)
    ensures TeamInvariant(log + [e], p)
  {
    hide AcceptedContract, CreatedEvent, Fold, Occupies, CompletedStages;
    forall run
      ensures run != e.runId ==> PersistedContract(log + [e], run) == PersistedContract(log, run)
      ensures run == e.runId ==> PersistedContract(log, run).None? && ActiveLeases(p, run) == {}
    {
      ContractSurvives(log, e, run);
    }
    ContractSurvives(log, e, e.runId);
    NewContractKeepsDependencies(log, e, p);
  }

  lemma NewContractKeepsDependencies(log: Log, e: Event, p: Projections)
    requires e.fact.RunCreated? && CreatedEvent(log, e.runId).None?
    requires LinksHold(log, p) && DependenciesMet(log, p)
    ensures DependenciesMet(log + [e], p)
  {
    hide AcceptedContract, CreatedEvent;
    forall id | Occupies(p, id)
      ensures PersistedContract(log + [e], p.assignments[id].run) == PersistedContract(log, p.assignments[id].run)
    {
      ContractSurvives(log, e, p.assignments[id].run);
    }
  }

  lemma RuntimeEventKeepsInvariant(log: Log, e: Event)
    requires RuntimeMayAppend(log, e) && TeamInvariant(log, Fold(log))
    ensures TeamInvariant(log + [e], Fold(log + [e]))
  {
    hide TeamInvariant, RuntimeMayAppend, WorkShrinks, Fold, CreatedEvent;
    RuntimeEventShrinksWork(log, e);
    ShrinkKeepsInvariant(log, Fold(log), Fold(log + [e]));
    if e.fact.RunCreated? && CreatedEvent(log, e.runId).None? {
      NewContractKeepsInvariant(log, e, Fold(log + [e]));
    } else {
      forall run
        ensures PersistedContract(log + [e], run) == PersistedContract(log, run)
      {
        ContractSurvives(log, e, run);
      }
      InvariantMovesToLog(log, log + [e], Fold(log + [e]));
    }
  }
}
