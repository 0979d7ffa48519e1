/** Capacity and dependency invariants over every run of the kernel and the runtime around it. */
module TeamRuns {
  import opened Contracts
  import opened Events
  import opened Projection
  import opened TeamGraph
  import opened Orchestration
  import opened PolicyFacts
  import opened Admission

  // ---- the events one accepted command adds ----

  /** Events of a command are named after its key; which candidate it was is not kept here. */
  function KernelEvent(key: Text, suffix: CommandSuffix, run: RunId, task: TaskId, at: int, fact: Fact): Event {
    Event(OfCommand(key, suffix), run, task, "control.kernel", fact, Some(OfCommand(key, Accepted)), at)
  }

  function AssignmentEvents(key: Text, run: RunId, task: TaskId, at: int, a: AssignmentProposal): seq<Event> {
    [ KernelEvent(key, CreatedSuffix(a.assignmentId), run, task, at,
        AssignmentCreated(a.assignmentId, Some(a.stageId), a.agentId, a.attempt, a.resultKind)),
      KernelEvent(key, LeaseAcquiredSuffix(a.assignmentId), run, task, at,
        LeaseMoved(a.assignmentId, LeaseAcquired, Some(a.stageId), a.agentId, at + a.leaseSeconds)),
      KernelEvent(key, RunningSuffix(a.assignmentId), run, task, at, AssignmentMoved(a.assignmentId, AssignmentRunning)) ]
  }

  function AllAssignmentEvents(key: Text, run: RunId, task: TaskId, at: int, proposals: seq<AssignmentProposal>): seq<Event> {
    if proposals == [] then []
    else
      AllAssignmentEvents(key, run, task, at, proposals[..|proposals| - 1])
      + AssignmentEvents(key, run, task, at, proposals[|proposals| - 1])
  }

  function PlanHeader(key: Text, run: RunId, task: TaskId, at: int, patch: PlanPatch): seq<Event> {
    [ KernelEvent(key, Accepted, run, task, at, CandidateAccepted(0)),
      KernelEvent(key, PlanPatchedSuffix, run, task, at, PlanPatched(patch.revision)) ]
  }

  function PlanFooter(key: Text, run: RunId, task: TaskId, at: int, patch: PlanPatch): seq<Event> {
    if patch.blockedReason.Some?
    then [KernelEvent(key, FormalSuffix("blocked"), run, task, at, OrchestrationBlocked("blocked"))] else []
  }

  function PlanEvents(key: Text, run: RunId, task: TaskId, at: int, patch: PlanPatch): seq<Event> {
    PlanHeader(key, run, task, at, patch) + AllAssignmentEvents(key, run, task, at, patch.assignments)
    + PlanFooter(key, run, task, at, patch)
  }

  /** The result kind of an assignment that names none. */
  const NO_KIND: Text := ""

  /** `_validate_leased_result`: the assignment and its lease are held, in this run, by the actor. */
  predicate LeasedResultOk(p: Projections, run: RunId, task: TaskId, actor: AgentId, id: AssignmentId, kind: Text, now: int) {
    && id in p.assignments
    && p.assignments[id].run == run
    && p.assignments[id].agent == actor
    && (p.assignments[id].resultKind == NO_KIND || p.assignments[id].resultKind == kind)
    && p.assignments[id].task == task
    && id in p.leases
    && p.leases[id].run == run
    && p.leases[id].status.ActiveLease?
    && p.leases[id].agent == actor
    && p.leases[id].expiresAt > now
  }

  function ResultEvents(p: Projections, key: Text, run: RunId, task: TaskId, id: AssignmentId, kind: Text, at: int): seq<Event>
    requires id in p.leases
  {
    [ KernelEvent(key, Accepted, run, task, at, CandidateAccepted(0)),
      KernelEvent(key, FormalSuffix("recorded"), run, task, at, ResultRecorded(id, kind)),
      KernelEvent(key, FormalSuffix("succeeded"), run, task, at, AssignmentMoved(id, Succeeded)),
      KernelEvent(key, LeaseReleasedSuffix(id), run, task, at,
        LeaseMoved(id, LeaseReleased, p.leases[id].stage, p.leases[id].agent, p.leases[id].expiresAt)),
      KernelEvent(key, FormalSuffix("result"), run, task, at, ResultSubmitted(id)) ]
  }

  // ---- steps ----

  datatype TeamStep =
    | AcceptPlan(key: Text, run: RunId, task: TaskId, at: int, patch: PlanPatch)
    | AcceptResult(key: Text, run: RunId, task: TaskId, at: int, actor: AgentId, assignment: AssignmentId, kind: Text, now: int)
    | RuntimeEvent(event: Event)

  /**
    Events appended outside the kernel. Leases are only renewed, released or expired with the stage and
    agent they were acquired with; assignments outside team plans carry no stage; a registered agent
    keeps its concurrency; a run is created from a validated contract.
   */
  ghost predicate RuntimeMayAppend(log: Log, e: Event) {
    var p := Fold(log);
    match e.fact
    case RunCreated(contract, _) =>
      CreatedEvent(log, e.runId).None? && contract.Some? ==> AcceptedContract(contract.value)
    case AgentRegistered(agent, _, maxConcurrency) =>
      agent in p.agents ==> p.agents[agent].maxConcurrency == maxConcurrency
    case AssignmentCreated(id, stage, _, _, _) => stage.None? && id.Named? && id !in p.assignments
    case AssignmentMoved(id, status) =>
      SucceededAssignment(status) ==> id in p.assignments && p.assignments[id].stage.None?
    case LeaseMoved(id, signal, stage, agent, _) =>
      !signal.LeaseAcquired? && id in p.leases && p.leases[id].stage == stage && p.leases[id].agent == agent
    case PlanPatched(_) => false
    case _ => true
  }

  ghost predicate Enabled(log: Log, step: TeamStep) {
    match step
    case AcceptPlan(_, run, _, _, patch) =>
      PersistedContract(log, run).Some? && Admissible(log, Fold(log), run, PersistedContract(log, run), patch)
    case AcceptResult(_, run, task, _, actor, id, kind, now) => LeasedResultOk(Fold(log), run, task, actor, id, kind, now)
    case RuntimeEvent(e) => RuntimeMayAppend(log, e)
  }

  ghost function After(log: Log, step: TeamStep): Log
    requires Enabled(log, step)
  {
    match step
    case AcceptPlan(key, run, task, at, patch) => log + PlanEvents(key, run, task, at, patch)
    case AcceptResult(key, run, task, at, _, id, kind, _) => log + ResultEvents(Fold(log), key, run, task, id, kind, at)
    case RuntimeEvent(e) => log + [e]
  }

  // ---- the invariant ----

  ghost predicate LinksHold(log: Log, p: Projections) {
    && (forall id | id in p.leases ::
          && id in p.assignments
          && p.leases[id].stage.Some?
          && p.leases[id].stage == p.assignments[id].stage
          && p.leases[id].run == p.assignments[id].run
          && p.leases[id].agent in p.agents)
    && (forall id | id in p.assignments && p.assignments[id].stage.Some? ::
          && PersistedContract(log, p.assignments[id].run).Some?
          && AcceptedContract(PersistedContract(log, p.assignments[id].run).value)
          && p.assignments[id].stage.value in StageIds(PersistedContract(log, p.assignments[id].run).value.stages))
  }

  /** An active lease or a success; the two ways an assignment occupies its stage. */
  predicate Occupies(p: Projections, id: AssignmentId) {
    && id in p.assignments
    && p.assignments[id].stage.Some?
    && ((id in p.leases && p.leases[id].status.ActiveLease?) || SucceededAssignment(p.assignments[id].status))
  }

  /** A stage of a run is occupied by one assignment only, and never both actively and successfully. */
  ghost predicate StagesExclusive(p: Projections) {
    && (forall a, b | Occupies(p, a) && Occupies(p, b) && a != b && p.assignments[a].run == p.assignments[b].run ::
          p.assignments[a].stage != p.assignments[b].stage)
    && (forall a | a in p.leases && p.leases[a].status.ActiveLease? && a in p.assignments ::
          !SucceededAssignment(p.assignments[a].status))
  }

  ghost predicate DependenciesMet(log: Log, p: Projections) {
    forall id | Occupies(p, id)
      && PersistedContract(log, p.assignments[id].run).Some?
      && p.assignments[id].stage.value in StageIds(PersistedContract(log, p.assignments[id].run).value.stages) ::
      Elements(StageOf(PersistedContract(log, p.assignments[id].run).value.stages, p.assignments[id].stage.value).dependsOn)
        <= CompletedStages(p, p.assignments[id].run)
  }

  ghost predicate CapacityHolds(log: Log, p: Projections) {
    && (forall run | PersistedContract(log, run).Some? ::
          |ActiveLeases(p, run)| <= PersistedContract(log, run).value.maxParallelAssignments)
    && (forall agent | agent in p.agents && AgentLeases(p, agent) != {} ::
          |AgentLeases(p, agent)| <= p.agents[agent].maxConcurrency)
  }

  ghost predicate TeamInvariant(log: Log, p: Projections) {
    LinksHold(log, p) && StagesExclusive(p) && DependenciesMet(log, p) && CapacityHolds(log, p)
  }

  // ---- contracts are immutable ----

  ghost predicate NoRunCreated(events: seq<Event>) {
    forall e | e in events :: !e.fact.RunCreated?
  }

  lemma {:induction false} ContractsUnchanged(log: Log, events: seq<Event>, run: RunId)
    requires NoRunCreated(events)
    ensures CreatedEvent(log + events, run) == CreatedEvent(log, run)
  {
    if events == [] {
      assert log + events == log;
    } else {
      var last := |events| - 1;
      assert events[last] in events;
      assert forall e | e in events[..last] :: e in events;
      ContractsUnchanged(log, events[..last], run);
      assert (log + events)[..|log| + last] == log + events[..last];
    }
  }

  lemma ContractSurvives(log: Log, e: Event, run: RunId)
    ensures CreatedEvent(log, run).Some? ==> CreatedEvent(log + [e], run) == CreatedEvent(log, run)
    ensures !(e.fact.RunCreated? && e.runId == run) ==> CreatedEvent(log + [e], run) == CreatedEvent(log, run)
    ensures CreatedEvent(log, run).None? && e.fact.RunCreated? && e.runId == run ==> CreatedEvent(log + [e], run) == Some(e)
  {
    assert (log + [e])[..|log|] == log;
  }

  lemma {:induction false} CreatedEventCreates(log: Log, run: RunId)
    ensures CreatedEvent(log, run).Some? ==> CreatedEvent(log, run).value.fact.RunCreated?
  {
    if log != [] {
      CreatedEventCreates(log[..|log| - 1], run);
    }
  }

  ghost predicate SameContracts(log: Log, log': Log) {
    forall run :: PersistedContract(log', run) == PersistedContract(log, run)
  }

  lemma InvariantMovesToLog(log: Log, log': Log, p: Projections)
    requires SameContracts(log, log') && TeamInvariant(log, p)
    ensures TeamInvariant(log', p)
  {}
}
