/** Safety of whole team runs. */
module TeamTheorems {
  import opened Contracts
  import opened Events
  import opened Projection
  import opened TeamGraph
  import opened Orchestration
  import opened PolicyFacts
  import opened Admission
  import opened TeamRuns
  import opened TeamSafety
  import opened TeamPlans

  ghost predicate SameWork(p: Projections, q: Projections) {
    q.agents == p.agents && q.assignments == p.assignments && q.leases == p.leases
  }

  lemma QuietEvent(log: Log, e: Event)
    requires e.fact.CandidateAccepted? || e.fact.PlanPatched? || e.fact.OrchestrationBlocked? || e.fact.ResultRecorded?
      || e.fact.ResultSubmitted?
    ensures SameWork(Fold(log), Fold(log + [e]))
  {
    FoldAppend(log, e);
  }

  lemma SameWorkKeepsInvariant(log: Log, p: Projections, q: Projections)
    requires TeamInvariant(log, p) && SameWork(p, q)
    ensures TeamInvariant(log, q)
  {
    hide TeamInvariant;
    ShrinkKeepsInvariant(log, p, q);
  }

  // ---- an accepted plan ----

  lemma AdmissionGivesAddable(log: Log, p: Projections, run: RunId, patch: PlanPatch)
    requires PersistedContract(log, run).Some? && AcceptedContract(PersistedContract(log, run).value)
    requires Admissible(log, p, run, PersistedContract(log, run), patch)
    ensures AllAddable(log, p, run, patch.assignments, 0) && Fits(log, p, run, patch.assignments)
  {
    hide PatchValidates, DistinctViews, MatchesPlan, LoadsOk, DistinctAssignments, DistinctProposals, CompletedStages, ActiveStages, AcceptedContract;
    forall j | 0 <= j < |patch.assignments|
      ensures Addable(log, p, run, patch.assignments[j])
    {
      assert patch.assignments[j] in patch.assignments;
    }
  }

  lemma SameWorkKeepsPlan(log: Log, p: Projections, q: Projections, run: RunId, proposals: seq<AssignmentProposal>)
    requires SameWork(p, q) && AllAddable(log, p, run, proposals, 0) && Fits(log, p, run, proposals)
    ensures AllAddable(log, q, run, proposals, 0) && Fits(log, q, run, proposals)
  {
    hide DistinctAssignments, DistinctProposals, AcceptedContract, CountAgent;
    assert CompletedStages(p, run) == CompletedStages(q, run);
    assert ActiveStages(p, run) == ActiveStages(q, run);
    assert ActiveLeases(p, run) == ActiveLeases(q, run);
    assert forall g :: AgentLeases(p, g) == AgentLeases(q, g);
  }

  lemma {:induction false} PlanCreatesNoRun(key: Text, run: RunId, task: TaskId, at: int, proposals: seq<AssignmentProposal>)
    ensures NoRunCreated(AllAssignmentEvents(key, run, task, at, proposals))
  {
    if proposals != [] {
      PlanCreatesNoRun(key, run, task, at, proposals[..|proposals| - 1]);
    }
  }

  lemma EventsKeepContracts(log: Log, events: seq<Event>)
    requires NoRunCreated(events)
    ensures SameContracts(log, log + events)
  {
    forall run {
      ContractsUnchanged(log, events, run);
    }
  }

  lemma HeaderIsQuiet(log: Log, key: Text, run: RunId, task: TaskId, at: int, patch: PlanPatch)
    ensures SameWork(Fold(log), Fold(log + PlanHeader(key, run, task, at, patch)))
  {
    hide Fold;
    var header := PlanHeader(key, run, task, at, patch);
    QuietEvent(log, header[0]);
    QuietEvent(log + [header[0]], header[1]);
    assert log + header == log + [header[0]] + [header[1]];
  }

  lemma FooterIsQuiet(log: Log, key: Text, run: RunId, task: TaskId, at: int, patch: PlanPatch)
    ensures SameWork(Fold(log), Fold(log + PlanFooter(key, run, task, at, patch)))
  {
    hide Fold;
    var footer := PlanFooter(key, run, task, at, patch);
    if footer == [] {
      assert log + footer == log;
    } else {
      QuietEvent(log, footer[0]);
      assert log + footer == log + [footer[0]];
    }
  }

  ghost predicate ContractsValidated(log: Log) {
    forall run | PersistedContract(log, run).Some? :: AcceptedContract(PersistedContract(log, run).value)
  }

  lemma PlanKeepsInvariant(log: Log, key: Text, run: RunId, task: TaskId, at: int, patch: PlanPatch)
    requires TeamInvariant(log, Fold(log)) && ContractsValidated(log)
    requires Enabled(log, AcceptPlan(key, run, task, at, patch))
    ensures TeamInvariant(log + PlanEvents(key, run, task, at, patch), Fold(log + PlanEvents(key, run, task, at, patch)))
    ensures SameContracts(log, log + PlanEvents(key, run, task, at, patch))
  {
    hide TeamInvariant, Admissible, Fold, AllAddable, Fits, AllAssignmentEvents, PlanHeader, PlanFooter, SameContracts, SameWork;
    var proposals := patch.assignments;
    AdmissionGivesAddable(log, Fold(log), run, patch);
    var base := log + PlanHeader(key, run, task, at, patch);
    HeaderIsQuiet(log, key, run, task, at, patch);
    SameWorkKeepsInvariant(log, Fold(log), Fold(base));
    SameWorkKeepsPlan(log, Fold(log), Fold(base), run, proposals);
    AddAll(log, base, key, run, task, at, proposals, |proposals|);
    assert proposals[..|proposals|] == proposals;
    var added := base + AllAssignmentEvents(key, run, task, at, proposals);
    PrefixHasInvariant(log, Fold(base), Fold(added), run, proposals);
    FooterIsQuiet(added, key, run, task, at, patch);
    var done := added + PlanFooter(key, run, task, at, patch);
    SameWorkKeepsInvariant(log, Fold(added), Fold(done));
    assert done == log + PlanEvents(key, run, task, at, patch);
    PlanHasNoRun(key, run, task, at, patch);
    EventsKeepContracts(log, PlanEvents(key, run, task, at, patch));
    InvariantMovesToLog(log, done, Fold(done));
  }

  lemma PrefixHasInvariant(log: Log, p: Projections, q: Projections, run: RunId, proposals: seq<AssignmentProposal>)
    requires PrefixAdded(log, p, q, run, proposals, |proposals|)
    ensures TeamInvariant(log, q)
  {}

  lemma PlanHasNoRun(key: Text, run: RunId, task: TaskId, at: int, patch: PlanPatch)
    ensures NoRunCreated(PlanEvents(key, run, task, at, patch))
  {
    PlanCreatesNoRun(key, run, task, at, patch.assignments);
  }

  // ---- an accepted result ----

  ghost predicate Resulted(p: Projections, q: Projections, id: AssignmentId) {
    && id in p.assignments && id in p.leases
    && q.agents == p.agents
    && q.assignments.Keys == p.assignments.Keys && q.leases.Keys == p.leases.Keys
    && (forall x | x in p.assignments && x != id :: q.assignments[x] == p.assignments[x])
    && (forall x | x in p.leases && x != id :: q.leases[x] == p.leases[x])
    && q.assignments[id].run == p.assignments[id].run && q.assignments[id].stage == p.assignments[id].stage
    && (SucceededAssignment(p.assignments[id].status) ==> SucceededAssignment(q.assignments[id].status))
    && q.leases[id].stage == p.leases[id].stage && q.leases[id].run == p.leases[id].run
    && q.leases[id].agent == p.leases[id].agent && q.leases[id].status.ReleasedLease?
  }

  lemma SameWorkKeepsResult(p: Projections, p': Projections, q': Projections, q: Projections, id: AssignmentId)
    requires SameWork(p, p') && Resulted(p', q', id) && SameWork(q', q)
    ensures Resulted(p, q, id)
  {}

  lemma ResultFolds(log: Log, key: Text, run: RunId, task: TaskId, at: int, id: AssignmentId, kind: Text)
    requires id in Fold(log).assignments && id in Fold(log).leases && Fold(log).leases[id].status.ActiveLease?
    ensures Resulted(Fold(log), Fold(log + ResultEvents(Fold(log), key, run, task, id, kind, at)), id)
  {
    hide Fold, Settled, Resulted;
    var events := ResultEvents(Fold(log), key, run, task, id, kind, at);
    QuietEvent(log, events[0]);
    QuietEvent(log + [events[0]], events[1]);
    var base := log + [events[0]] + [events[1]];
    SettleFolds(base, events[2], events[3], id);
    SettledIsResulted(Fold(base), Fold(base + [events[2]] + [events[3]]), id);
    QuietEvent(base + [events[2]] + [events[3]], events[4]);
    assert log + events == base + [events[2]] + [events[3]] + [events[4]];
    SameWorkKeepsResult(Fold(log), Fold(base), Fold(base + [events[2]] + [events[3]]), Fold(log + events), id);
  }

  /** The two projected rows a result changes. */
  ghost predicate Settled(p: Projections, q: Projections, id: AssignmentId)
    requires id in p.assignments && id in p.leases
  {
    && q.agents == p.agents
    && (q.assignments == p.assignments
        || (!TerminalAssignment(p.assignments[id].status)
            && q.assignments == p.assignments[id := p.assignments[id].(status := Succeeded)]))
    && q.leases == p.leases[id := p.leases[id].(status := ReleasedLease)]
  }

  lemma SettledIsResulted(p: Projections, q: Projections, id: AssignmentId)
    requires id in p.assignments && id in p.leases && Settled(p, q, id)
    ensures Resulted(p, q, id)
  {}

  lemma SettleFolds(log: Log, moved: Event, released: Event, id: AssignmentId)
    requires id in Fold(log).assignments && id in Fold(log).leases && Fold(log).leases[id].status.ActiveLease?
    requires moved.fact == AssignmentMoved(id, Succeeded)
    requires released.fact == LeaseMoved(id, LeaseReleased, Fold(log).leases[id].stage, Fold(log).leases[id].agent,
                                         Fold(log).leases[id].expiresAt)
    ensures Settled(Fold(log), Fold(log + [moved] + [released]), id)
  {
    hide Fold, ProjectRun;
    FoldAppend(log, moved);
    FoldAppend(log + [moved], released);
  }

  lemma ResultShrinksOccupation(log: Log, p: Projections, q: Projections, id: AssignmentId, x: AssignmentId)
    requires LinksHold(log, p) && Resulted(p, q, id) && p.leases[id].status.ActiveLease? && Occupies(q, x)
    ensures Occupies(p, x) && q.assignments[x].run == p.assignments[x].run && q.assignments[x].stage == p.assignments[x].stage
  {
    hide AcceptedContract;
  }

  lemma ResultKeepsCompletions(p: Projections, q: Projections, id: AssignmentId, run: RunId)
    requires Resulted(p, q, id)
    ensures CompletedStages(p, run) <= CompletedStages(q, run)
  {
    forall stage | stage in CompletedStages(p, run)
      ensures stage in CompletedStages(q, run)
    {
      var x :| x in p.assignments && RowCompletes(p.assignments[x], run) && p.assignments[x].stage.value == stage;
      assert RowCompletes(q.assignments[x], run);
    }
  }

  lemma ResultKeepsStages(log: Log, p: Projections, q: Projections, id: AssignmentId)
    requires LinksHold(log, p) && StagesExclusive(p) && Resulted(p, q, id) && p.leases[id].status.ActiveLease?
    ensures StagesExclusive(q)
  {
    hide AcceptedContract, LinksHold;
    forall x | Occupies(q, x)
      ensures Occupies(p, x) && q.assignments[x].run == p.assignments[x].run && q.assignments[x].stage == p.assignments[x].stage
    {
      ResultShrinksOccupation(log, p, q, id, x);
    }
  }

  lemma ResultKeepsDependencies(log: Log, p: Projections, q: Projections, id: AssignmentId)
    requires LinksHold(log, p) && DependenciesMet(log, p) && Resulted(p, q, id) && p.leases[id].status.ActiveLease?
    ensures DependenciesMet(log, q)
  {
    hide AcceptedContract, LinksHold, Resulted, CompletedStages;
    forall x | Occupies(q, x)
      ensures Occupies(p, x) && q.assignments[x].run == p.assignments[x].run && q.assignments[x].stage == p.assignments[x].stage
      ensures CompletedStages(p, q.assignments[x].run) <= CompletedStages(q, q.assignments[x].run)
    {
      ResultShrinksOccupation(log, p, q, id, x);
      ResultKeepsCompletions(p, q, id, q.assignments[x].run);
    }
  }

  lemma ResultKeepsLinks(log: Log, p: Projections, q: Projections, id: AssignmentId)
    requires LinksHold(log, p) && Resulted(p, q, id)
    ensures LinksHold(log, q)
  {
    hide AcceptedContract, PersistedContract, StageIds;
    forall x | x in q.assignments
      ensures q.assignments[x].run == p.assignments[x].run && q.assignments[x].stage == p.assignments[x].stage
    {}
  }

  lemma ReleaseShrinksWork(p: Projections, q: Projections, id: AssignmentId)
    requires Resulted(p, q, id)
    ensures WorkShrinks(p, q.(assignments := p.assignments))
  {}

  lemma ResultKeepsCapacity(log: Log, p: Projections, q: Projections, id: AssignmentId)
    requires LinksHold(log, p) && CapacityHolds(log, p) && Resulted(p, q, id)
    ensures CapacityHolds(log, q)
  {
    hide LinksHold, Resulted, WorkShrinks;
    var unsettled := q.(assignments := p.assignments);
    ReleaseShrinksWork(p, q, id);
    ShrinkKeepsCapacity(log, p, unsettled);
    assert forall run :: ActiveLeases(q, run) == ActiveLeases(unsettled, run);
    assert forall agent :: AgentLeases(q, agent) == AgentLeases(unsettled, agent);
  }

  lemma ResultKeepsInvariant(log: Log, key: Text, run: RunId, task: TaskId, at: int, actor: AgentId, id: AssignmentId,
                             kind: Text, now: int)
    requires TeamInvariant(log, Fold(log))
    requires Enabled(log, AcceptResult(key, run, task, at, actor, id, kind, now))
    ensures var log' := log + ResultEvents(Fold(log), key, run, task, id, kind, at);
      TeamInvariant(log', Fold(log')) && SameContracts(log, log')
  {
    hide LinksHold, StagesExclusive, DependenciesMet, CapacityHolds, Fold, SameContracts, Resulted;
    var events := ResultEvents(Fold(log), key, run, task, id, kind, at);
    var q := Fold(log + events);
    ResultFolds(log, key, run, task, at, id, kind);
    ResultKeepsStages(log, Fold(log), q, id);
    ResultKeepsDependencies(log, Fold(log), q, id);
    ResultKeepsLinks(log, Fold(log), q, id);
    ResultKeepsCapacity(log, Fold(log), q, id);
    EventsKeepContracts(log, events);
    InvariantMovesToLog(log, log + events, q);
  }

  // ---- runs ----

  ghost predicate Permitted(log: Log, steps: seq<TeamStep>)
    decreases |steps|
  {
    steps == [] || (Enabled(log, steps[0]) && Permitted(After(log, steps[0]), steps[1..]))
  }

  ghost function AfterAll(log: Log, steps: seq<TeamStep>): Log
    requires Permitted(log, steps)
    decreases |steps|
  {
    if steps == [] then log else AfterAll(After(log, steps[0]), steps[1..])
  }

  ghost predicate TeamState(log: Log) {
    TeamInvariant(log, Fold(log)) && ContractsValidated(log)
  }

  lemma StepKeepsTeamState(log: Log, step: TeamStep)
    requires TeamState(log) && Enabled(log, step)
    ensures TeamState(After(log, step))
  {
    hide TeamInvariant, Fold, AcceptedContract, PlanEvents, ResultEvents, CreatedEvent;
    match step
    case AcceptPlan(key, run, task, at, patch) => PlanKeepsInvariant(log, key, run, task, at, patch);
    case AcceptResult(key, run, task, at, actor, id, kind, now) => ResultKeepsInvariant(log, key, run, task, at, actor, id, kind, now);
    case RuntimeEvent(e) =>
      RuntimeEventKeepsInvariant(log, e);
      RuntimeEventKeepsContracts(log, e);
  }

  lemma RuntimeEventKeepsContracts(log: Log, e: Event)
    requires ContractsValidated(log) && RuntimeMayAppend(log, e)
    ensures ContractsValidated(log + [e])
  {
    hide AcceptedContract, Fold, CreatedEvent;
    forall run | PersistedContract(log + [e], run).Some?
      ensures AcceptedContract(PersistedContract(log + [e], run).value)
    {
      ContractSurvives(log, e, run);
      if CreatedEvent(log, run).None? && e.fact.RunCreated? && run == e.runId {
        assert PersistedContract(log + [e], run) == e.fact.contract;
      } else {
        assert PersistedContract(log + [e], run) == PersistedContract(log, run);
      }
    }
  }

  lemma EmptyTeamState()
    ensures TeamState([])
  {
    assert Fold([]) == EMPTY_PROJECTIONS;
    assert forall run :: ActiveLeases(EMPTY_PROJECTIONS, run) == {};
  }

  /** Every log reached by permitted steps, from any runs, agents and interleavings, satisfies the invariant. */
  lemma {:induction false} TeamRunsAreSafe(log: Log, steps: seq<TeamStep>)
    requires TeamState(log) && Permitted(log, steps)
    ensures TeamState(AfterAll(log, steps))
    decreases |steps|
  {
    hide TeamState, Enabled;
    if steps != [] {
      StepKeepsTeamState(log, steps[0]);
      TeamRunsAreSafe(After(log, steps[0]), steps[1..]);
    }
  }

  /** The capacity and exclusivity guarantees, read off a reachable log. */
  lemma ReachedLogRespectsLimits(steps: seq<TeamStep>)
    requires Permitted([], steps)
    ensures var log := AfterAll([], steps); var p := Fold(log);
      && (forall run | PersistedContract(log, run).Some? ::
            |ActiveLeases(p, run)| <= PersistedContract(log, run).value.maxParallelAssignments)
      && (forall agent | agent in p.agents && AgentLeases(p, agent) != {} ::
            |AgentLeases(p, agent)| <= p.agents[agent].maxConcurrency)
      && (forall a, b | Occupies(p, a) && Occupies(p, b) && a != b && p.assignments[a].run == p.assignments[b].run ::
            p.assignments[a].stage != p.assignments[b].stage)
      && (forall run :: CompletedStages(p, run) !! ActiveStages(p, run))
  {
    hide Fold, AcceptedContract, AfterAll, Permitted, ContractsValidated, DependenciesMet;
    EmptyTeamState();
    TeamRunsAreSafe([], steps);
    var log := AfterAll([], steps);
    forall run
      ensures CompletedStages(Fold(log), run) !! ActiveStages(Fold(log), run)
    {
      CompletedIsNotActive(log, Fold(log), run);
    }
  }

  lemma CompletedIsNotActive(log: Log, p: Projections, run: RunId)
    requires LinksHold(log, p) && StagesExclusive(p)
    ensures CompletedStages(p, run) !! ActiveStages(p, run)
  {
    hide AcceptedContract;
    forall done, active | done in p.assignments && RowCompletes(p.assignments[done], run) && active in ActiveLeases(p, run)
      ensures p.leases[active].stage != p.assignments[done].stage
    {
      assert Occupies(p, done) && Occupies(p, active);
    }
  }

  /** A path of dependencies below an occupied stage is complete, all the way down. */
  lemma {:induction false} TransitiveDependenciesComplete(log: Log, run: RunId, path: seq<StageId>)
    requires TeamState(log) && PersistedContract(log, run).Some? && |path| >= 2
    requires IsPath(DependenciesOf(PersistedContract(log, run).value.stages), path)
    requires path[0] in CompletedStages(Fold(log), run) + ActiveStages(Fold(log), run)
    ensures path[|path| - 1] in CompletedStages(Fold(log), run)
  {
    hide TeamState, IsPath, CompletedStages, ActiveStages, AcceptedContract;
    var last := |path| - 1;
    StepOnPath(log, run, path, last - 1);
    if last > 1 {
      PathPrefix(DependenciesOf(PersistedContract(log, run).value.stages), path);
      TransitiveDependenciesComplete(log, run, path[..last]);
      assert path[..last][last - 1] == path[last - 1];
    }
    OccupiedHasDependencies(log, run, path[last - 1]);
  }

  lemma PathPrefix(deps: Dependencies, path: seq<StageId>)
    requires IsPath(deps, path) && path != []
    ensures IsPath(deps, path[..|path| - 1])
  {
    var front := path[..|path| - 1];
    forall i | 0 <= i < |front|
      ensures front[i] in deps && (i + 1 < |front| ==> front[i + 1] in deps[front[i]])
    {
      assert front[i] == path[i];
    }
  }

  lemma StepOnPath(log: Log, run: RunId, path: seq<StageId>, i: nat)
    requires PersistedContract(log, run).Some? && i + 1 < |path|
    requires IsPath(DependenciesOf(PersistedContract(log, run).value.stages), path)
    ensures path[i] in StageIds(PersistedContract(log, run).value.stages)
    ensures path[i + 1] in Elements(StageOf(PersistedContract(log, run).value.stages, path[i]).dependsOn)
  {}

  lemma OccupiedHasDependencies(log: Log, run: RunId, stage: StageId)
    requires TeamState(log) && PersistedContract(log, run).Some?
    requires stage in CompletedStages(Fold(log), run) + ActiveStages(Fold(log), run)
    requires stage in StageIds(PersistedContract(log, run).value.stages)
    ensures Elements(StageOf(PersistedContract(log, run).value.stages, stage).dependsOn) <= CompletedStages(Fold(log), run)
  {
    hide AcceptedContract, Fold;
    var p := Fold(log);
    var id :| Occupies(p, id) && p.assignments[id].run == run && p.assignments[id].stage == Some(stage);
  }
}
