/** Durable facts: the identities and payload fields that the control plane branches on. */
module Events {
  import opened Contracts

  /** `{run}:{stage}:attempt:{n}` for proposals of the built-in policy, anything for other proposers. */
  datatype AssignmentId = OfAttempt(run: RunId, stage: StageId, attempt: nat) | Named(name: Text)

  datatype CommandSuffix =
    | Submitted
    | Recovered
    | Accepted
    | Rejected
    | PlanPatchedSuffix
    | CreatedSuffix(assignment: AssignmentId)
    | LeaseAcquiredSuffix(assignment: AssignmentId)
    | RunningSuffix(assignment: AssignmentId)
    | LeaseReleasedSuffix(assignment: AssignmentId)
    | FormalSuffix(name: Text)

  datatype CampaignPart =
    | ScopePart
    | StartedPart(trial: nat)
    | LinkedPart(trial: nat)
    | ReleasedPart(trial: nat)
    | ObservedPart(trial: nat)
    | FailedPart(trial: nat)
    | RetryPart(trial: nat, attempt: nat)
    | CompletedPart
    | CancelledPart

  datatype Arm = Single | Team

  datatype PairPart = RequestedPart | CommittedPart | ArmReleasedPart(arm: Arm) | PairCompletedPart

  /** uuid4 draws are serial numbers; uuid5 names are injective in the name they hash. */
  datatype EventId =
    | Random(serial: nat)
    | OfCommand(key: Text, suffix: CommandSuffix)
    | OfCampaign(campaign: RunId, part: CampaignPart)
    | OfPair(eval: RunId, pairPart: PairPart)

  datatype ModelBudget = ModelBudget(maxTotalTokens: nat, maxCostMicrousd: nat, maxConcurrentCalls: nat)

  datatype RuntimeSignal =
    | AgentBusy | AgentIdle | AgentWaiting | AgentDegraded | AgentOffline | AgentCrashed | AgentRecovered
    | AgentHeartbeat

  datatype AssignmentStatus =
    | Queued | AssignmentRunning | AssignmentWaiting | Reviewing | SubmittedResult
    | Succeeded | Completed | AssignmentFailed | AssignmentExpired | AssignmentCancelled

  datatype LeaseSignal = LeaseAcquired | LeaseRenewed | LeaseReleased | LeaseExpired

  /** A campaign-linked pair names the campaign trial that has to authorise its release. */
  datatype ReleasePolicy = Immediate | CampaignLinked(parent: RunId, trial: nat)

  datatype Fact =
    | RunCreated(contract: Option<TeamContract>, budget: ModelBudget)
    | RunPhaseChanged(phase: Text)
    | RunSucceeded
    | RunFailed
    | RunPaused
    | RunCancelRequested
    | RunCancelled
    | BarrierAcquired(barrier: nat, barrierExpiresAt: int)
    | BarrierReleased(barrier: nat)
    | GateDecided(passed: bool)
    | AgentRegistered(registered: AgentId, capabilities: set<Capability>, maxConcurrency: int)
    | AgentSignalled(signalled: AgentId, signal: RuntimeSignal)
    | DeliverySent(mailbox: AgentId)
    | DeliveryAcked(mailbox: AgentId, delivery: nat)
    | AssignmentCreated(assignment: AssignmentId, stage: Option<StageId>, assignee: AgentId, attempt: nat, resultKind: Text)
    | AssignmentMoved(assignment: AssignmentId, status: AssignmentStatus)
    | LeaseMoved(assignment: AssignmentId, leaseSignal: LeaseSignal, stage: Option<StageId>, assignee: AgentId, expiresAt: int)
    | PlanPatched(revision: nat)
    | OrchestrationBlocked(reason: Text)
    | CandidateSubmitted(candidateId: nat)
    | CandidateRecovered(candidateId: nat)
    | CandidateAccepted(candidateId: nat)
    | CandidateRejected(candidateId: nat, reason: Text)
    | ResultRecorded(assignment: AssignmentId, kind: Text)
    | ResultSubmitted(assignment: AssignmentId)
    | PeerResponded(rootEventId: Option<EventId>, peerReceiver: AgentId, content: Text)
    | AgentRunCreated(runAgent: AgentId, rootTask: TaskId)
    | ScopeBound(fingerprint: nat)
    | TrialStarted(trial: nat)
    | TrialLinked(trial: nat, fingerprint: nat)
    | TrialReleased(trial: nat)
    | TrialObserved(trial: nat, report: nat)
    | TrialCreationFailed(trial: nat)
    | TrialCreationRetryable(trial: nat, creationAttempt: nat)
    | CampaignCompleted(report: nat)
    | CampaignCancelled(report: nat)
    | PairRequested(policy: ReleasePolicy)
    | PairCommitted
    | ArmReleased(arm: Arm)
    | PairCompleted(report: nat)
    | OtherFact(kindName: Text)

  datatype Event = Event(
    id: EventId,
    runId: RunId,
    taskId: TaskId,
    source: Text,
    fact: Fact,
    causation: Option<EventId>,
    createdAt: int)

  type Log = seq<Event>

  /** Replays are compared without their creation time. */
  predicate SameFact(e: Event, f: Event) {
    e.(createdAt := 0) == f.(createdAt := 0)
  }

  function Lookup(log: Log, id: EventId): (found: Option<Event>)
    ensures found.Some? ==> found.value in log && found.value.id == id
    ensures found.None? ==> forall e | e in log :: e.id != id
  {
    if log == [] then None
    else if log[|log| - 1].id == id then Some(log[|log| - 1])
    else
      var found := Lookup(log[..|log| - 1], id);
      assert log == log[..|log| - 1] + [log[|log| - 1]];
      found
  }

  ghost predicate UniqueIds(log: Log) {
    forall i, j | 0 <= i < j < |log| :: log[i].id != log[j].id
  }

  lemma LookupFinds(log: Log, e: Event)
    requires UniqueIds(log) && e in log
    ensures Lookup(log, e.id) == Some(e)
  {
    var found := Lookup(log, e.id);
    assert found.Some?;
    var i :| 0 <= i < |log| && log[i] == e;
    var j :| 0 <= j < |log| && log[j] == found.value;
    assert i < j ==> log[i].id != log[j].id;
    assert j < i ==> log[j].id != log[i].id;
  }
}
