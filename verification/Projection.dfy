/** Read models maintained incrementally beside the log, one event at a time. */
module Projection {
  import opened Contracts
  import opened Events

  datatype RunStatus = RunIsRunning | RunIsPaused | RunIsSucceeded | RunIsFailed | RunIsCancelling | RunIsCancelled

  datatype RunView = RunView(
    status: RunStatus,
    phase: Text,
    budget: ModelBudget,
    gate: Option<bool>,
    barrier: Option<nat>,
    barrierExpiresAt: Option<int>,
    eventCount: nat,
    lastCursor: nat)

  datatype AgentView = AgentView(
    status: AgentStatus,
    capabilities: set<Capability>,
    maxConcurrency: int,
    mailboxPending: nat)

  datatype AssignmentView = AssignmentView(
    run: RunId,
    task: TaskId,
    stage: Option<StageId>,
    agent: AgentId,
    attempt: nat,
    resultKind: Text,
    status: AssignmentStatus)

  datatype LeaseStatus = ActiveLease | ReleasedLease | ExpiredLease

  datatype LeaseView = LeaseView(
    run: RunId,
    task: TaskId,
    stage: Option<StageId>,
    agent: AgentId,
    status: LeaseStatus,
    expiresAt: int)

  datatype Projections = Projections(
    runs: map<RunId, RunView>,
    agents: map<AgentId, AgentView>,
    assignments: map<AssignmentId, AssignmentView>,
    leases: map<AssignmentId, LeaseView>)

  const EMPTY_PROJECTIONS := Projections(map[], map[], map[], map[])

  predicate TerminalRun(status: RunStatus) {
    status.RunIsSucceeded? || status.RunIsFailed? || status.RunIsCancelled?
  }

  predicate TerminalAssignment(status: AssignmentStatus) {
    status.Succeeded? || status.Completed? || status.AssignmentFailed? || status.AssignmentExpired?
    || status.AssignmentCancelled?
  }

  predicate SucceededAssignment(status: AssignmentStatus) {
    status.Succeeded? || status.Completed?
  }

  predicate RunIsWithdrawn(projections: Projections, run: RunId) {
    run in projections.runs
    && (projections.runs[run].status.RunIsCancelling? || projections.runs[run].status.RunIsCancelled?)
  }

  function NewRun(budget: ModelBudget): RunView {
    RunView(RunIsRunning, "intake", budget, None, None, None, 0, 0)
  }

  function MoveRun(run: RunView, fact: Fact): RunView {
    var open := !TerminalRun(run.status) && !run.status.RunIsCancelling?;
    match fact
    case RunPhaseChanged(phase) => if open then run.(phase := phase) else run
    case RunSucceeded => if open then run.(status := RunIsSucceeded, phase := "complete") else run
    case RunFailed => if open then run.(status := RunIsFailed, phase := "failed") else run
    case RunPaused => if open then run.(status := RunIsPaused) else run
    case BarrierAcquired(barrier, expiresAt) => run.(barrier := Some(barrier), barrierExpiresAt := Some(expiresAt))
    case BarrierReleased(barrier) =>
      if run.barrier == Some(barrier) then run.(barrier := None, barrierExpiresAt := None) else run
    case RunCancelRequested =>
      if TerminalRun(run.status) then run else run.(status := RunIsCancelling, phase := "cancelling")
    case RunCancelled =>
      if TerminalRun(run.status) then run else run.(status := RunIsCancelled, phase := "cancelled")
    case GateDecided(passed) => run.(gate := Some(passed))
    case _ => run
  }

  function ProjectRun(runs: map<RunId, RunView>, e: Event, cursor: nat): map<RunId, RunView> {
    if e.runId in runs then
      var run := runs[e.runId];
      runs[e.runId := MoveRun(run.(eventCount := run.eventCount + 1, lastCursor := cursor), e.fact)]
    else if e.fact.RunCreated? then
      runs[e.runId := NewRun(e.fact.budget).(eventCount := 1, lastCursor := cursor)]
    else runs
  }

  /** A busy, idle or waiting signal never revives an agent marked degraded or offline. */
  function MoveAgent(status: AgentStatus, signal: RuntimeSignal): AgentStatus {
    var unavailable := status.Degraded? || status.Offline?;
    match signal
    case AgentBusy => if unavailable then status else Busy
    case AgentIdle => if unavailable then status else Idle
    case AgentWaiting => if unavailable then status else Waiting
    case AgentDegraded => Degraded
    case AgentCrashed => Degraded
    case AgentOffline => Offline
    case AgentRecovered => Idle
    case AgentHeartbeat => status
  }

  function ProjectAgent(agents: map<AgentId, AgentView>, e: Event): map<AgentId, AgentView> {
    match e.fact
    case AgentRegistered(agent, capabilities, maxConcurrency) =>
      var current := if agent in agents then agents[agent] else AgentView(Idle, {}, 1, 0);
      agents[agent := current.(capabilities := capabilities, maxConcurrency := maxConcurrency)]
    case AgentSignalled(agent, signal) =>
      if agent in agents then
        agents[agent := agents[agent].(status := MoveAgent(agents[agent].status, signal))]
      else agents
    case DeliverySent(mailbox) =>
      if mailbox in agents then
        agents[mailbox := agents[mailbox].(mailboxPending := agents[mailbox].mailboxPending + 1)]
      else agents
    case DeliveryAcked(mailbox, _) =>
      if mailbox in agents && agents[mailbox].mailboxPending > 0 then
        agents[mailbox := agents[mailbox].(mailboxPending := agents[mailbox].mailboxPending - 1)]
      else agents
    case _ => agents
  }

  function ProjectAssignment(assignments: map<AssignmentId, AssignmentView>, e: Event)
    : map<AssignmentId, AssignmentView>
  {
    match e.fact
    case AssignmentCreated(id, stage, agent, attempt, kind) =>
      assignments[id := AssignmentView(e.runId, e.taskId, stage, agent, attempt, kind, Queued)]
    case AssignmentMoved(id, status) =>
      if id in assignments && !TerminalAssignment(assignments[id].status) then
        assignments[id := assignments[id].(status := status)]
      else assignments
    case _ => assignments
  }

  function LeaseStatusAfter(signal: LeaseSignal): LeaseStatus {
    match signal
    case LeaseAcquired => ActiveLease
    case LeaseRenewed => ActiveLease
    case LeaseReleased => ReleasedLease
    case LeaseExpired => ExpiredLease
  }

  function ProjectLease(leases: map<AssignmentId, LeaseView>, e: Event): map<AssignmentId, LeaseView> {
    match e.fact
    case LeaseMoved(id, signal, stage, agent, expiresAt) =>
      if id !in leases then
        leases[id := LeaseView(e.runId, e.taskId, stage, agent, LeaseStatusAfter(signal), expiresAt)]
      else if leases[id].status.ActiveLease? then
        leases[id := leases[id].(stage := stage, agent := agent, status := LeaseStatusAfter(signal), expiresAt := expiresAt)]
      else leases
    case _ => leases
  }

  function Project(p: Projections, e: Event, cursor: nat): Projections {
    Projections(
      ProjectRun(p.runs, e, cursor),
      ProjectAgent(p.agents, e),
      ProjectAssignment(p.assignments, e),
      ProjectLease(p.leases, e))
  }

  /** The whole read model as one left fold over the log. */
  function Fold(log: Log): Projections {
    if log == [] then EMPTY_PROJECTIONS
    else Project(Fold(log[..|log| - 1]), log[|log| - 1], |log|)
  }

  lemma FoldAppend(log: Log, e: Event)
    ensures Fold(log + [e]) == Project(Fold(log), e, |log| + 1)
  {
    assert (log + [e])[..|log|] == log;
  }

  // ---- what no later event can undo ----

  /** A finished run keeps its verdict; a cancelling run can only become cancelled. */
  predicate RunAdvanced(before: RunStatus, after: RunStatus) {
    && (TerminalRun(before) ==> after == before)
    && (before.RunIsCancelling? ==> after.RunIsCancelling? || after.RunIsCancelled?)
  }

  lemma ProjectRunAdvances(runs: map<RunId, RunView>, e: Event, cursor: nat, run: RunId)
    requires run in runs
    ensures run in ProjectRun(runs, e, cursor)
    ensures RunAdvanced(runs[run].status, ProjectRun(runs, e, cursor)[run].status)
    ensures ProjectRun(runs, e, cursor)[run].budget == runs[run].budget
  {}

  lemma {:induction false} RunVerdictIsFinal(log: Log, later: Log, run: RunId)
    requires run in Fold(log).runs
    ensures run in Fold(log + later).runs
    ensures RunAdvanced(Fold(log).runs[run].status, Fold(log + later).runs[run].status)
    ensures Fold(log + later).runs[run].budget == Fold(log).runs[run].budget
  {
    hide MoveRun, ProjectRun;
    if later == [] {
      assert log + later == log;
    } else {
      var last := |later| - 1;
      var middle := log + later[..last];
      RunVerdictIsFinal(log, later[..last], run);
      assert log + later == middle + [later[last]];
      FoldAppend(middle, later[last]);
      ProjectRunAdvances(Fold(middle).runs, later[last], |middle| + 1, run);
    }
  }

  lemma {:induction false} ClosedLeaseIsFinal(log: Log, later: Log, id: AssignmentId)
    requires id in Fold(log).leases && !Fold(log).leases[id].status.ActiveLease?
    ensures id in Fold(log + later).leases && Fold(log + later).leases[id] == Fold(log).leases[id]
  {
    if later == [] {
      assert log + later == log;
    } else {
      var last := |later| - 1;
      ClosedLeaseIsFinal(log, later[..last], id);
      assert log + later == (log + later[..last]) + [later[last]];
      FoldAppend(log + later[..last], later[last]);
    }
  }

  ghost predicate NeverCreated(later: Log, id: AssignmentId) {
    forall e | e in later :: !(e.fact.AssignmentCreated? && e.fact.assignment == id)
  }

  /** An assignment's verdict is final unless its id is created a second time. */
  lemma {:induction false} AssignmentVerdictIsFinal(log: Log, later: Log, id: AssignmentId)
    requires id in Fold(log).assignments && TerminalAssignment(Fold(log).assignments[id].status)
    requires NeverCreated(later, id)
    ensures id in Fold(log + later).assignments
    ensures Fold(log + later).assignments[id] == Fold(log).assignments[id]
  {
    if later == [] {
      assert log + later == log;
    } else {
      var last := |later| - 1;
      assert NeverCreated(later[..last], id) && later[last] in later;
      AssignmentVerdictIsFinal(log, later[..last], id);
      assert log + later == (log + later[..last]) + [later[last]];
      FoldAppend(log + later[..last], later[last]);
    }
  }

  predicate Revives(e: Event, agent: AgentId) {
    e.fact.AgentSignalled? && e.fact.signalled == agent && e.fact.signal.AgentRecovered?
  }

  predicate IsUnavailable(status: AgentStatus) {
    status.Degraded? || status.Offline?
  }

  lemma EventKeepsUnavailable(agents: map<AgentId, AgentView>, e: Event, agent: AgentId)
    requires agent in agents && IsUnavailable(agents[agent].status) && !Revives(e, agent)
    ensures agent in ProjectAgent(agents, e) && IsUnavailable(ProjectAgent(agents, e)[agent].status)
  {}

  /** A degraded or offline agent stays so until it is explicitly recovered; registering again does not revive it. */
  lemma {:induction false} OnlyRecoveryRevives(log: Log, later: Log, agent: AgentId)
    requires agent in Fold(log).agents && IsUnavailable(Fold(log).agents[agent].status)
    requires forall e | e in later :: !Revives(e, agent)
    ensures agent in Fold(log + later).agents && IsUnavailable(Fold(log + later).agents[agent].status)
  {
    hide ProjectRun, ProjectAgent, ProjectAssignment, ProjectLease, IsUnavailable, Revives;
    if later == [] {
      assert log + later == log;
    } else {
      var last := |later| - 1;
      assert later[last] in later && forall e | e in later[..last] :: e in later;
      OnlyRecoveryRevives(log, later[..last], agent);
      assert log + later == (log + later[..last]) + [later[last]];
      FoldAppend(log + later[..last], later[last]);
      EventKeepsUnavailable(Fold(log + later[..last]).agents, later[last], agent);
    }
  }
}
