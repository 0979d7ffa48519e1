/** What each kind of event does to the read models, row by row, and what the log says of a row. */
module ProjectionLaws {
  import opened Contracts
  import opened Events
  import opened Projection

  // ---- runs ----

  predicate IsFinal(status: RunStatus) {
    status == RunIsSucceeded || status == RunIsFailed || status == RunIsCancelled
  }

  /** The verdict of a run: final once given, and only a cancellation reaches a run being cancelled. */
  function VerdictAfter(status: RunStatus, fact: Fact): RunStatus {
    if IsFinal(status) then status
    else if fact == RunCancelled then RunIsCancelled
    else if fact == RunCancelRequested || status == RunIsCancelling then RunIsCancelling
    else if fact == RunSucceeded then RunIsSucceeded
    else if fact == RunFailed then RunIsFailed
    else if fact == RunPaused then RunIsPaused
    else status
  }

  predicate IsOpen(status: RunStatus) {
    status == RunIsRunning || status == RunIsPaused
  }

  /** The phase follows the verdict; while the run is open it can be set freely. */
  function PhaseAfter(run: RunView, fact: Fact): Text {
    if IsFinal(run.status) then run.phase
    else if fact == RunCancelled then "cancelled"
    else if fact == RunCancelRequested then "cancelling"
    else if !IsOpen(run.status) then run.phase
    else if fact == RunSucceeded then "complete"
    else if fact == RunFailed then "failed"
    else if fact.RunPhaseChanged? then fact.phase
    else run.phase
  }

  /** A known run takes exactly one event at a time: it is counted, and moves what its kind concerns. */
  lemma RunTakesEvent(runs: map<RunId, RunView>, e: Event, cursor: nat)
    requires e.runId in runs
    ensures
      var before, after := runs[e.runId], ProjectRun(runs, e, cursor);
      && after.Keys == runs.Keys
      && (forall run | run in runs && run != e.runId :: after[run] == runs[run])
      && var row := after[e.runId];
         && row.eventCount == before.eventCount + 1 && row.lastCursor == cursor && row.budget == before.budget
         && row.status == VerdictAfter(before.status, e.fact)
         && row.gate == (if e.fact.GateDecided? then Some(e.fact.passed) else before.gate)
  {}

  lemma RunPhaseFollows(runs: map<RunId, RunView>, e: Event, cursor: nat)
    requires e.runId in runs
    ensures ProjectRun(runs, e, cursor)[e.runId].phase == PhaseAfter(runs[e.runId], e.fact)
  {}

  /** A barrier stands from its acquisition to its own release; releasing another one changes nothing. */
  lemma BarrierRoundTrip(runs: map<RunId, RunView>, acquire: Event, release: Event, cursor: nat, next: nat)
    requires acquire.runId in runs && release.runId == acquire.runId
    requires acquire.fact.BarrierAcquired? && release.fact.BarrierReleased?
    ensures
      var run := acquire.runId;
      var held := ProjectRun(runs, acquire, cursor);
      var after := ProjectRun(held, release, next);
      && held[run].barrier == Some(acquire.fact.barrier) && held[run].barrierExpiresAt == Some(acquire.fact.barrierExpiresAt)
      && (if release.fact.barrier == acquire.fact.barrier
          then after[run].barrier == None && after[run].barrierExpiresAt == None
          else after[run].barrier == held[run].barrier && after[run].barrierExpiresAt == held[run].barrierExpiresAt)
  {}

  lemma OthersLeaveBarrier(runs: map<RunId, RunView>, e: Event, cursor: nat)
    requires e.runId in runs && !e.fact.BarrierAcquired? && !e.fact.BarrierReleased?
    ensures
      var after := ProjectRun(runs, e, cursor)[e.runId];
      after.barrier == runs[e.runId].barrier && after.barrierExpiresAt == runs[e.runId].barrierExpiresAt
  {}

  /** Only `run.created` makes a run known, running and with its budget; other events of unknown runs are dropped. */
  lemma RunIsBorn(runs: map<RunId, RunView>, e: Event, cursor: nat)
    requires e.runId !in runs
    ensures ProjectRun(runs, e, cursor) ==
      if e.fact.RunCreated?
      then runs[e.runId := RunView(RunIsRunning, "intake", e.fact.budget, None, None, None, 1, cursor)] else runs
  {}

  /** How many events of the run the log holds from its creation on. */
  function EventsSinceBirth(log: Log, run: RunId): nat {
    if log == [] then 0
    else
      var earlier, e := EventsSinceBirth(log[..|log| - 1], run), log[|log| - 1];
      if e.runId == run && (earlier > 0 || e.fact.RunCreated?) then earlier + 1 else earlier
  }

  /** The log alone decides which runs are known and how many events each has seen. */
  lemma {:induction false} RunsCountTheirEvents(log: Log, run: RunId)
    ensures run in Fold(log).runs <==> EventsSinceBirth(log, run) > 0
    ensures run in Fold(log).runs ==> Fold(log).runs[run].eventCount == EventsSinceBirth(log, run)
    ensures run in Fold(log).runs ==>
      && 1 <= Fold(log).runs[run].lastCursor <= |log|
      && log[Fold(log).runs[run].lastCursor - 1].runId == run
      && forall i | Fold(log).runs[run].lastCursor <= i < |log| :: log[i].runId != run
  {
    hide MoveRun, ProjectRun, VerdictAfter, IsOpen;
    if log != [] {
      var last := |log| - 1;
      RunsCountTheirEvents(log[..last], run);
      RunCountsEvent(Fold(log[..last]).runs, log[last], |log|, run);
    }
  }

  lemma RunCountsEvent(runs: map<RunId, RunView>, e: Event, cursor: nat, run: RunId)
    ensures
      var after := ProjectRun(runs, e, cursor);
      && (run in after <==> run in runs || (e.runId == run && e.fact.RunCreated?))
      && (run in runs && e.runId != run ==> after[run] == runs[run])
      && (run in after && e.runId == run ==>
            after[run].lastCursor == cursor && after[run].eventCount == (if run in runs then runs[run].eventCount else 0) + 1)
  {}

  // ---- agents ----

  /** What a signal says of an agent that is neither degraded nor offline; a heartbeat says nothing. */
  function SignalSays(signal: RuntimeSignal, status: AgentStatus): AgentStatus {
    if signal == AgentBusy then Busy
    else if signal == AgentIdle || signal == AgentRecovered then Idle
    else if signal == AgentWaiting then Waiting
    else if signal == AgentDegraded || signal == AgentCrashed then Degraded
    else if signal == AgentOffline then Offline
    else status
  }

  lemma AgentTakesSignal(agents: map<AgentId, AgentView>, e: Event)
    requires e.fact.AgentSignalled?
    ensures
      var id, signal, after := e.fact.signalled, e.fact.signal, ProjectAgent(agents, e);
      if id !in agents then after == agents
      else
        var status := agents[id].status;
        after == agents[id := agents[id].(status :=
          if (status == Degraded || status == Offline) && signal in {AgentBusy, AgentIdle, AgentWaiting} then status
          else SignalSays(signal, status))]
  {}

  /** Registering sets what the agent can do and keeps how it is; a new agent is idle with an empty mailbox. */
  lemma AgentRegisters(agents: map<AgentId, AgentView>, e: Event)
    requires e.fact.AgentRegistered?
    ensures
      var id, after := e.fact.registered, ProjectAgent(agents, e);
      && after.Keys == agents.Keys + {id}
      && after[id] == AgentView(if id in agents then agents[id].status else Idle, e.fact.capabilities, e.fact.maxConcurrency,
           if id in agents then agents[id].mailboxPending else 0)
      && forall other | other in agents && other != id :: after[other] == agents[other]
  {}

  /** A delivery sent and acknowledged leaves the mailbox as it was; the count never goes below zero. */
  lemma MailboxRoundTrip(agents: map<AgentId, AgentView>, sent: Event, acked: Event)
    requires sent.fact.DeliverySent? && acked.fact.DeliveryAcked? && acked.fact.mailbox == sent.fact.mailbox
    ensures ProjectAgent(ProjectAgent(agents, sent), acked) == agents
    ensures sent.fact.mailbox in agents ==>
      ProjectAgent(agents, sent) ==
        agents[sent.fact.mailbox := agents[sent.fact.mailbox].(mailboxPending := agents[sent.fact.mailbox].mailboxPending + 1)]
    ensures sent.fact.mailbox in agents && agents[sent.fact.mailbox].mailboxPending == 0 ==> ProjectAgent(agents, acked) == agents
  {}

  lemma OthersLeaveAgents(agents: map<AgentId, AgentView>, e: Event)
    requires !e.fact.AgentRegistered? && !e.fact.AgentSignalled? && !e.fact.DeliverySent? && !e.fact.DeliveryAcked?
    ensures ProjectAgent(agents, e) == agents
  {}

  // ---- assignments and leases ----

  predicate IsSettledRow(status: AssignmentStatus) {
    status in {Succeeded, Completed, AssignmentFailed, AssignmentExpired, AssignmentCancelled}
  }

  /** An assignment is created queued, as its event says, and then moves until it is settled. */
  lemma AssignmentTakesEvent(rows: map<AssignmentId, AssignmentView>, e: Event)
    ensures
      var after := ProjectAssignment(rows, e);
      match e.fact
      case AssignmentCreated(id, stage, agent, attempt, kind) =>
        && after.Keys == rows.Keys + {id}
        && after[id] == AssignmentView(e.runId, e.taskId, stage, agent, attempt, kind, Queued)
        && forall other | other in rows && other != id :: after[other] == rows[other]
      case AssignmentMoved(id, status) =>
        && after.Keys == rows.Keys
        && forall other | other in rows ::
             after[other] == if other == id && !IsSettledRow(rows[id].status) then rows[id].(status := status) else rows[other]
      case _ => after == rows
  {}

  /** A lease row appears with its first event, follows later ones while active, and is closed by release or expiry. */
  lemma LeaseTakesEvent(rows: map<AssignmentId, LeaseView>, e: Event)
    ensures
      var after := ProjectLease(rows, e);
      match e.fact
      case LeaseMoved(id, signal, stage, agent, expiresAt) =>
        var status := if signal == LeaseReleased then ReleasedLease else if signal == LeaseExpired then ExpiredLease else ActiveLease;
        && after.Keys == rows.Keys + {id}
        && (forall other | other in rows && other != id :: after[other] == rows[other])
        && after[id] ==
             if id !in rows then LeaseView(e.runId, e.taskId, stage, agent, status, expiresAt)
             else if rows[id].status != ActiveLease then rows[id]
             else LeaseView(rows[id].run, rows[id].task, stage, agent, status, expiresAt)
      case _ => after == rows
  {}
}
