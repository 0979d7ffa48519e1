/** Accepting a plan patch: every proposed assignment is added and the invariant survives each one. */
module TeamPlans {
  import opened Contracts
  import opened Events
  import opened Projection
  import opened TeamGraph
  import opened Orchestration
  import opened PolicyFacts
  import opened Admission
  import opened TeamRuns
  import opened TeamSafety

  ghost predicate Grown(p: Projections, q: Projections, run: RunId, task: TaskId, at: int, a: AssignmentProposal) {
    && q.agents == p.agents
    && q.assignments == p.assignments[a.assignmentId :=
         AssignmentView(run, task, Some(a.stageId), a.agentId, a.attempt, a.resultKind, AssignmentRunning)]
    && q.leases == p.leases[a.assignmentId :=
         LeaseView(run, task, Some(a.stageId), a.agentId, ActiveLease, at + a.leaseSeconds)]
  }

  lemma AssignmentEventsGrow(log: Log, key: Text, run: RunId, task: TaskId, at: int, a: AssignmentProposal)
    requires a.assignmentId !in Fold(log).assignments && a.assignmentId !in Fold(log).leases
    ensures Grown(Fold(log), Fold(log + AssignmentEvents(key, run, task, at, a)), run, task, at, a)
  {
    hide Fold, ProjectRun;
    var events := AssignmentEvents(key, run, task, at, a);
    FoldAppend(log, events[0]);
    FoldAppend(log + [events[0]], events[1]);
    FoldAppend(log + [events[0]] + [events[1]], events[2]);
    assert log + events == log + [events[0]] + [events[1]] + [events[2]];
  }

  /** What admission established about a proposal, as far as later proposals of the patch cannot disturb it. */
  ghost predicate Addable(log: Log, p: Projections, run: RunId, a: AssignmentProposal) {
    && PersistedContract(log, run).Some?
    && AcceptedContract(PersistedContract(log, run).value)
    && a.stageId in StageIds(PersistedContract(log, run).value.stages)
    && a.stageId !in CompletedStages(p, run)
    && a.stageId !in ActiveStages(p, run)
    && Elements(StageOf(PersistedContract(log, run).value.stages, a.stageId).dependsOn) <= CompletedStages(p, run)
    && a.assignmentId !in p.assignments
    && a.agentId in p.agents
  }

  lemma GrowthOfSets(log: Log, p: Projections, q: Projections, run: RunId, task: TaskId, at: int, a: AssignmentProposal)
    requires LinksHold(log, p) && Addable(log, p, run, a) && Grown(p, q, run, task, at, a)
    ensures ActiveLeases(q, run) == ActiveLeases(p, run) + {a.assignmentId} && a.assignmentId !in ActiveLeases(p, run)
    ensures forall r | r != run :: ActiveLeases(q, r) == ActiveLeases(p, r)
    ensures AgentLeases(q, a.agentId) == AgentLeases(p, a.agentId) + {a.assignmentId}
    ensures a.assignmentId !in AgentLeases(p, a.agentId)
    ensures forall g | g != a.agentId :: AgentLeases(q, g) == AgentLeases(p, g)
  {
    hide AcceptedContract, StageIds;
    assert a.assignmentId !in p.leases;
  }

  lemma GrowthOfStages(log: Log, p: Projections, q: Projections, run: RunId, task: TaskId, at: int, a: AssignmentProposal)
    requires LinksHold(log, p) && Addable(log, p, run, a) && Grown(p, q, run, task, at, a)
    ensures forall r :: CompletedStages(q, r) == CompletedStages(p, r)
    ensures ActiveStages(q, run) == ActiveStages(p, run) + {a.stageId}
  {
    hide AcceptedContract, StageIds;
    assert a.assignmentId !in p.leases;
    forall r
      ensures CompletedStages(q, r) == CompletedStages(p, r)
    {
      assert !RowCompletes(q.assignments[a.assignmentId], r);
      forall id | id in p.assignments
        ensures RowCompletes(q.assignments[id], r) <==> RowCompletes(p.assignments[id], r)
      {}
    }
    assert a.assignmentId in ActiveLeases(q, run);
    forall stage | stage in ActiveStages(p, run)
      ensures stage in ActiveStages(q, run)
    {
      var id :| id in ActiveLeases(p, run) && p.leases[id].stage == Some(stage);
      assert id in ActiveLeases(q, run);
    }
    forall stage | stage in ActiveStages(q, run)
      ensures stage in ActiveStages(p, run) + {a.stageId}
    {
      var id :| id in ActiveLeases(q, run) && q.leases[id].stage == Some(stage);
      if id != a.assignmentId {
        assert id in ActiveLeases(p, run);
      }
    }
  }

  /** The stage of a new assignment is not occupied in its run. */
  lemma OccupiedStageIsTaken(log: Log, p: Projections, id: AssignmentId)
    requires LinksHold(log, p) && Occupies(p, id)
    ensures p.assignments[id].stage.value in CompletedStages(p, p.assignments[id].run) + ActiveStages(p, p.assignments[id].run)
  {
    hide AcceptedContract;
    if SucceededAssignment(p.assignments[id].status) {
      assert RowCompletes(p.assignments[id], p.assignments[id].run);
    } else {
      assert id in ActiveLeases(p, p.assignments[id].run);
    }
  }

  lemma GrowthKeepsStages(log: Log, p: Projections, q: Projections, run: RunId, task: TaskId, at: int, a: AssignmentProposal)
    requires LinksHold(log, p) && StagesExclusive(p) && Addable(log, p, run, a) && Grown(p, q, run, task, at, a)
    ensures StagesExclusive(q)
  {
    hide AcceptedContract, CompletedStages, ActiveStages;
    assert a.assignmentId !in p.leases;
    forall id | Occupies(q, id) && id != a.assignmentId
      ensures Occupies(p, id) && q.assignments[id] == p.assignments[id]
      ensures q.assignments[id].run == run ==> q.assignments[id].stage != Some(a.stageId)
    {
      OccupiedStageIsTaken(log, p, id);
    }
  }

  lemma GrowthKeepsLinks(log: Log, p: Projections, q: Projections, run: RunId, task: TaskId, at: int, a: AssignmentProposal)
    requires LinksHold(log, p) && Addable(log, p, run, a) && Grown(p, q, run, task, at, a)
    ensures LinksHold(log, q)
  {
    hide AcceptedContract, CompletedStages, ActiveStages;
  }

  lemma GrowthKeepsDependencies(log: Log, p: Projections, q: Projections, run: RunId, task: TaskId, at: int, a: AssignmentProposal)
    requires LinksHold(log, p) && DependenciesMet(log, p) && Addable(log, p, run, a) && Grown(p, q, run, task, at, a)
    ensures DependenciesMet(log, q)
  {
    hide AcceptedContract, CompletedStages, ActiveStages;
    GrowthOfStages(log, p, q, run, task, at, a);
    forall id | Occupies(q, id) && id != a.assignmentId
      ensures Occupies(p, id) && q.assignments[id] == p.assignments[id]
    {}
  }

  lemma GrowthKeepsCapacity(log: Log, p: Projections, q: Projections, run: RunId, task: TaskId, at: int, a: AssignmentProposal)
    requires LinksHold(log, p) && CapacityHolds(log, p) && Addable(log, p, run, a) && Grown(p, q, run, task, at, a)
    requires |ActiveLeases(p, run)| < PersistedContract(log, run).value.maxParallelAssignments
    requires |AgentLeases(p, a.agentId)| < p.agents[a.agentId].maxConcurrency
    ensures CapacityHolds(log, q)
    ensures |ActiveLeases(q, run)| == |ActiveLeases(p, run)| + 1
    ensures forall g :: |AgentLeases(q, g)| == |AgentLeases(p, g)| + (if g == a.agentId then 1 else 0)
  {
    hide AcceptedContract, CompletedStages, ActiveStages, ActiveLeases, AgentLeases, LinksHold;
    GrowthOfSets(log, p, q, run, task, at, a);
  }

  lemma GrowthKeepsInvariant(log: Log, p: Projections, q: Projections, run: RunId, task: TaskId, at: int, a: AssignmentProposal)
    requires TeamInvariant(log, p) && Addable(log, p, run, a) && Grown(p, q, run, task, at, a)
    requires |ActiveLeases(p, run)| < PersistedContract(log, run).value.maxParallelAssignments
    requires |AgentLeases(p, a.agentId)| < p.agents[a.agentId].maxConcurrency
    ensures TeamInvariant(log, q)
    ensures |ActiveLeases(q, run)| == |ActiveLeases(p, run)| + 1
    ensures forall g :: |AgentLeases(q, g)| == |AgentLeases(p, g)| + (if g == a.agentId then 1 else 0)
  {
    hide LinksHold, StagesExclusive, DependenciesMet, CapacityHolds, Grown;
    GrowthKeepsLinks(log, p, q, run, task, at, a);
    GrowthKeepsStages(log, p, q, run, task, at, a);
    GrowthKeepsDependencies(log, p, q, run, task, at, a);
    GrowthKeepsCapacity(log, p, q, run, task, at, a);
  }

  lemma OthersStayAddable(log: Log, p: Projections, q: Projections, run: RunId, task: TaskId, at: int,
                          a: AssignmentProposal, b: AssignmentProposal)
    requires LinksHold(log, p) && Addable(log, p, run, a) && Addable(log, p, run, b) && Grown(p, q, run, task, at, a)
    requires a.stageId != b.stageId && a.assignmentId != b.assignmentId
    ensures Addable(log, q, run, b)
  {
    hide AcceptedContract, CompletedStages, ActiveStages, LinksHold;
    GrowthOfStages(log, p, q, run, task, at, a);
  }

  // ---- the whole patch ----

  ghost predicate AllAddable(log: Log, p: Projections, run: RunId, proposals: seq<AssignmentProposal>, from: nat) {
    forall j | from <= j < |proposals| :: Addable(log, p, run, proposals[j])
  }

  /** State after the first n proposals: the invariant, how far each count has grown, what is still to add. */
  ghost predicate PrefixAdded(log: Log, p: Projections, q: Projections, run: RunId, proposals: seq<AssignmentProposal>, n: nat)
    requires n <= |proposals|
  {
    && TeamInvariant(log, q)
    && q.agents == p.agents
    && |ActiveLeases(q, run)| == |ActiveLeases(p, run)| + n
    && (forall g :: |AgentLeases(q, g)| == |AgentLeases(p, g)| + CountAgent(proposals[..n], g))
    && AllAddable(log, q, run, proposals, n)
  }

  ghost predicate Fits(log: Log, p: Projections, run: RunId, proposals: seq<AssignmentProposal>) {
    && DistinctAssignments(proposals) && DistinctProposals(proposals)
    && PersistedContract(log, run).Some?
    && |ActiveLeases(p, run)| + |proposals| <= PersistedContract(log, run).value.maxParallelAssignments
    && LoadsOk(p, proposals)
  }

  lemma {:induction false} CountPrefix(proposals: seq<AssignmentProposal>, n: nat, agent: AgentId)
    requires n < |proposals| && proposals[n].agentId == agent
    ensures CountAgent(proposals[..n], agent) < CountAgent(proposals, agent)
    decreases |proposals|
  {
    var last := |proposals| - 1;
    if n < last {
      assert proposals[..last][..n] == proposals[..n];
      CountPrefix(proposals[..last], n, agent);
    }
  }

  lemma NextFits(log: Log, p: Projections, q: Projections, run: RunId, proposals: seq<AssignmentProposal>, n: nat)
    requires Fits(log, p, run, proposals) && n < |proposals| && PrefixAdded(log, p, q, run, proposals, n)
    ensures Addable(log, q, run, proposals[n])
    ensures |ActiveLeases(q, run)| < PersistedContract(log, run).value.maxParallelAssignments
    ensures |AgentLeases(q, proposals[n].agentId)| < q.agents[proposals[n].agentId].maxConcurrency
  {
    hide TeamInvariant, ActiveLeases, AgentLeases, DistinctAssignments, DistinctProposals;
    CountPrefix(proposals, n, proposals[n].agentId);
    assert Addable(log, q, run, proposals[n]);
  }

  lemma AddOne(log: Log, p: Projections, q: Projections, q': Projections, run: RunId, task: TaskId, at: int,
               proposals: seq<AssignmentProposal>, n: nat)
    requires Fits(log, p, run, proposals) && n < |proposals| && PrefixAdded(log, p, q, run, proposals, n)
    requires Grown(q, q', run, task, at, proposals[n])
    ensures PrefixAdded(log, p, q', run, proposals, n + 1)
  {
    hide TeamInvariant, ActiveLeases, AgentLeases, Addable, Grown, LoadsOk;
    var a := proposals[n];
    NextFits(log, p, q, run, proposals, n);
    GrowthKeepsInvariant(log, q, q', run, task, at, a);
    GrownRoster(q, q', run, task, at, a);
    assert proposals[..n + 1] == proposals[..n] + [a];
    forall g
      ensures CountAgent(proposals[..n + 1], g) == CountAgent(proposals[..n], g) + (if a.agentId == g then 1 else 0)
    {
      CountAgentAppend(proposals[..n], a, g);
    }
    forall j | n + 1 <= j < |proposals|
      ensures Addable(log, q', run, proposals[j])
    {
      InvariantLinks(log, q);
      assert proposals[n].stageId != proposals[j].stageId && proposals[n].assignmentId != proposals[j].assignmentId;
      OthersStayAddable(log, q, q', run, task, at, a, proposals[j]);
    }
  }

  lemma GrownRoster(p: Projections, q: Projections, run: RunId, task: TaskId, at: int, a: AssignmentProposal)
    requires Grown(p, q, run, task, at, a)
    ensures q.agents == p.agents
  {}

  lemma InvariantLinks(log: Log, p: Projections)
    requires TeamInvariant(log, p)
    ensures LinksHold(log, p)
  {}

  lemma FreshIdHasNoLease(log: Log, p: Projections, run: RunId, a: AssignmentProposal)
    requires LinksHold(log, p) && Addable(log, p, run, a)
    ensures a.assignmentId !in p.assignments && a.assignmentId !in p.leases
  {
    hide AcceptedContract;
  }

  lemma {:induction false} AddAll(log: Log, base: Log, key: Text, run: RunId, task: TaskId, at: int,
                                  proposals: seq<AssignmentProposal>, n: nat)
    requires n <= |proposals|
    requires Fits(log, Fold(base), run, proposals) && TeamInvariant(log, Fold(base))
    requires AllAddable(log, Fold(base), run, proposals, 0)
    ensures PrefixAdded(log, Fold(base), Fold(base + AllAssignmentEvents(key, run, task, at, proposals[..n])), run, proposals, n)
  {
    hide TeamInvariant, ActiveLeases, AgentLeases, Addable, Grown, LoadsOk, Fold, Fits, AssignmentEvents;
    if n == 0 {
      assert base + AllAssignmentEvents(key, run, task, at, []) == base;
      assert proposals[..0] == [];
    } else {
      var front := proposals[..n - 1];
      AddAll(log, base, key, run, task, at, proposals, n - 1);
      var before := base + AllAssignmentEvents(key, run, task, at, front);
      var a := proposals[n - 1];
      assert Addable(log, Fold(before), run, a);
      InvariantLinks(log, Fold(before));
      FreshIdHasNoLease(log, Fold(before), run, a);
      AssignmentEventsGrow(before, key, run, task, at, a);
      assert proposals[..n][..n - 1] == front;
      assert before + AssignmentEvents(key, run, task, at, a)
          == base + AllAssignmentEvents(key, run, task, at, proposals[..n]);
      AddOne(log, Fold(base), Fold(before), Fold(before + AssignmentEvents(key, run, task, at, a)), run, task, at, proposals, n - 1);
    }
  }
}
