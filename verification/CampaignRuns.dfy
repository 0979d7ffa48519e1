/** Advancers, finalisers and cancellers of one campaign, interleaved with everything else. */
module CampaignRuns {
  import opened Contracts
  import opened Events
  import opened Projection
  import opened Claims
  import opened Tables
  import opened StoreRuns
  import opened CampaignFacts

  datatype Role = Advancer | Finalizer | Canceller

  /** `seen` is the log as the process read it after claiming. */
  datatype Phase =
    | Starting
    | Holding(tokens: Tokens)
    | Deciding(tokens: Tokens, seen: Log)
    | Ready(tokens: Tokens, seen: Log, completed: set<nat>, fact: Fact)
    | Returned(advanced: bool)

  datatype Proc = Proc(role: Role, owner: OwnerId, phase: Phase)

  datatype World = World(store: Store, procs: map<nat, Proc>, advances: nat)

  function KeysOf(role: Role, c: RunId): set<ClaimKey> {
    match role
    case Advancer => {CampaignAdvanceKey(c)}
    case Finalizer => {CampaignTerminalKey(c)}
    case Canceller => {CampaignAdvanceKey(c), CampaignTerminalKey(c)}
  }

  predicate HasTokens(phase: Phase) {
    phase.Holding? || phase.Deciding? || phase.Ready?
  }

  function CampaignEvent(c: RunId, f: Fact, task: TaskId, causation: Option<EventId>, at: int): Event
    requires IsCampaignFact(f)
  {
    Event(OfCampaign(c, PartOf(f)), c, task, "runtime.eval-campaign", f, causation, at)
  }

  // ---- the child pairs ----

  predicate IsPairFact(f: Fact) {
    f.PairRequested? || f.PairCommitted? || f.ArmReleased? || f.PairCompleted?
  }

  function PairPartOf(f: Fact): PairPart
    requires IsPairFact(f)
  {
    match f
    case PairRequested(_) => RequestedPart
    case PairCommitted => CommittedPart
    case ArmReleased(arm) => ArmReleasedPart(arm)
    case PairCompleted(_) => PairCompletedPart
  }

  predicate PairHas(log: Log, eval: RunId, f: Fact) {
    exists e | e in log :: e.runId == eval && e.fact == f
  }

  predicate PairIsCompleted(log: Log, eval: RunId) {
    exists e | e in log :: e.runId == eval && e.fact.PairCompleted?
  }

  predicate TrialIsLinked(log: Log, c: RunId, trial: nat) {
    exists e | e in log :: e.runId == c && e.fact.TrialLinked? && e.fact.trial == trial
  }

  /** The request of a pair allows its release at once, or its parent's link is durable. */
  predicate ReleaseIsAllowed(contract: CampaignContract, log: Log, eval: RunId) {
    || PairHas(log, eval, PairRequested(Immediate))
    || exists e | e in log ::
         && e.runId == eval && e.fact.PairRequested? && e.fact.policy.CampaignLinked?
         && (e.fact.policy.parent == contract.campaign ==>
               && e.fact.policy.trial in Trials(contract) && EvalOf(contract, e.fact.policy.trial) == eval
               && TrialIsLinked(log, contract.campaign, e.fact.policy.trial))
  }

  predicate PairMayAppend(contract: CampaignContract, log: Log, e: Event) {
    && IsPairFact(e.fact)
    && e.id == OfPair(e.runId, PairPartOf(e.fact))
    && (e.fact.PairCommitted? ==> exists r | r in log :: r.runId == e.runId && r.fact.PairRequested?)
    && (e.fact.ArmReleased? ==>
          PairHas(log, e.runId, PairCommitted) && ReleaseIsAllowed(contract, log, e.runId))
  }

  /** What the callouts of a step have established by the time its fact is ready to commit. */
  predicate CalloutsHold(contract: CampaignContract, log: Log, f: Fact) {
    match f
    case TrialLinked(t, fingerprint) =>
      && t in Trials(contract)
      && PairHas(log, EvalOf(contract, t), PairRequested(CampaignLinked(contract.campaign, t)))
      && PairHas(log, EvalOf(contract, t), PairCommitted)
      && PairHas(log, contract.campaign, ScopeBound(fingerprint))
    case TrialReleased(t) =>
      && t in Trials(contract)
      && PairHas(log, EvalOf(contract, t), ArmReleased(Single)) && PairHas(log, EvalOf(contract, t), ArmReleased(Team))
    case TrialObserved(t, _) => t in Trials(contract) && PairIsCompleted(log, EvalOf(contract, t))
    case _ => true
  }

  // ---- steps ----

  predicate IsEnded(log: Log, c: RunId) {
    IsCompleted(log, c) || ProgressOf(log, c).cancelled
  }

  /** The fact a process may decide on from the log it read. */
  predicate MayEnd(contract: CampaignContract, role: Role, seen: Log, completed: set<nat>, f: Fact) {
    var p := ProgressOf(seen, contract.campaign);
    && !IsEnded(seen, contract.campaign)
    && match role
       case Advancer => Follows(contract, p, completed, f)
       case Finalizer => f.CampaignCompleted? && |p.observed| + |p.failed| == |contract.evals|
       case Canceller => f.CampaignCancelled?
  }

  datatype CampaignStep =
    | Spawn(pid: nat, role: Role, owner: OwnerId)
    | Claim(pid: nat, ttl: nat, now: int)
    | Read(pid: nat)
    | BindScope(pid: nat, fingerprint: nat, task: TaskId, at: int, now: int)
    | Prepare(pid: nat, completed: set<nat>, fact: Fact)
    | Commit(pid: nat, state: ClaimState, task: TaskId, causation: Option<EventId>, at: int, now: int)
    | Abandon(pid: nat, now: int)
    | Crash(pid: nat)
    | PairStep(event: Event, now: int)
    | Elsewhere(transaction: Transaction)

  /** Other components write neither campaign facts of this campaign nor pair facts. */
  predicate IsForeign(c: RunId, e: Event) {
    && !(e.runId == c && IsCampaignFact(e.fact)) && !(e.id.OfCampaign? && e.id.campaign == c)
    && !IsPairFact(e.fact) && !e.id.OfPair?
  }

  predicate IsForeignTransaction(c: RunId, t: Transaction) {
    match t
    case DoAppend(e, _, _, _) => IsForeign(c, e)
    case DoFinish(_, _, _, _, final, _) => final.Some? ==> IsForeign(c, final.value)
    case DoCommit(_, _, _, events, _, _, _) => forall e | e in events :: IsForeign(c, e)
    case _ => true
  }

  predicate MayStep(contract: CampaignContract, w: World, step: CampaignStep) {
    match step
    case Spawn(pid, _, _) => pid !in w.procs
    case Claim(pid, ttl, _) => pid in w.procs && w.procs[pid].phase.Starting? && ttl >= 1
    case Read(pid) => pid in w.procs && w.procs[pid].phase.Holding?
    case BindScope(pid, _, _, _, _) => pid in w.procs && w.procs[pid].phase.Deciding? && w.procs[pid].role.Advancer?
    case Prepare(pid, completed, f) =>
      && pid in w.procs && w.procs[pid].phase.Deciding?
      && MayEnd(contract, w.procs[pid].role, w.procs[pid].phase.seen, completed, f)
      && CalloutsHold(contract, w.store.log, f)
    case Commit(pid, _, _, _, _, _) => pid in w.procs && w.procs[pid].phase.Ready? && IsCampaignFact(w.procs[pid].phase.fact)
    case Abandon(pid, _) => pid in w.procs && HasTokens(w.procs[pid].phase)
    case Crash(pid) => pid in w.procs
    case PairStep(e, _) => PairMayAppend(contract, w.store.log, e)
    case Elsewhere(t) => IsForeignTransaction(contract.campaign, t)
  }

  function Moved(w: World, pid: nat, phase: Phase): World
    requires pid in w.procs
  {
    w.(procs := w.procs[pid := w.procs[pid].(phase := phase)])
  }

  function FinalEvent(contract: CampaignContract, w: World, step: CampaignStep): Event
    requires step.Commit? && MayStep(contract, w, step)
  {
    CampaignEvent(contract.campaign, w.procs[step.pid].phase.fact, step.task, step.causation, step.at)
  }

  function CommitResultOn(contract: CampaignContract, w: World, step: CampaignStep): FinishResult
    requires step.Commit? && MayStep(contract, w, step)
  {
    FinishResultOf(w.store, w.procs[step.pid].phase.tokens, w.procs[step.pid].owner, step.now,
      Some(FinalEvent(contract, w, step)), false)
  }

  function Next(contract: CampaignContract, w: World, step: CampaignStep): World
    requires MayStep(contract, w, step)
  {
    match step
    case Spawn(pid, role, owner) => w.(procs := w.procs[pid := Proc(role, owner, Starting)])
    case Claim(pid, ttl, now) =>
      var keys := KeysOf(w.procs[pid].role, contract.campaign);
      Moved(w.(store := ClaimWork(w.store, keys, w.procs[pid].owner, ttl, now, None)), pid,
        if CanClaim(w.store, keys, now, None) then Holding(Granted(w.store.claims, keys)) else Returned(false))
    case Read(pid) => Moved(w, pid, Deciding(w.procs[pid].phase.tokens, w.store.log))
    case BindScope(_, fingerprint, task, at, now) =>
      w.(store := Append(w.store, CampaignEvent(contract.campaign, ScopeBound(fingerprint), task, None, at), None, now, now))
    case Prepare(pid, completed, f) =>
      Moved(w, pid, Ready(w.procs[pid].phase.tokens, w.procs[pid].phase.seen, completed, f))
    case Commit(pid, state, task, causation, at, now) =>
      var done := CommitResultOn(contract, w, step).Done?;
      var store := FinishClaims(w.store, w.procs[pid].phase.tokens, w.procs[pid].owner, state, now,
        Some(FinalEvent(contract, w, step)), false);
      var moved := w.(store := store);
      if !done then moved
      else if w.procs[pid].role.Advancer? then Moved(moved.(advances := moved.advances + 1), pid, Returned(true))
      else Moved(moved, pid, Returned(false))
    case Abandon(pid, now) =>
      Moved(w.(store := FinishClaims(w.store, w.procs[pid].phase.tokens, w.procs[pid].owner, ClaimReleased, now, None, false)),
        pid, Returned(false))
    case Crash(pid) => w.(procs := w.procs - {pid})
    case PairStep(e, now) => w.(store := Append(w.store, e, None, now, now))
    case Elsewhere(t) => w.(store := Apply(w.store, t))
  }

  // ---- the invariant ----

  /** The tokens a process holds are still the newest of their keys, on the facts those keys protect. */
  ghost predicate IsFresh(s: Store, c: RunId, tokens: Tokens, seen: Log) {
    && (CampaignAdvanceKey(c) in tokens && tokens[CampaignAdvanceKey(c)] == TokenOf(s.claims, CampaignAdvanceKey(c)) ==>
          ProgressOf(seen, c) == ProgressOf(s.log, c))
    && (CampaignTerminalKey(c) in tokens && tokens[CampaignTerminalKey(c)] == TokenOf(s.claims, CampaignTerminalKey(c)) ==>
          (IsEnded(seen, c) <==> IsEnded(s.log, c)))
  }

  ghost predicate ProcOk(contract: CampaignContract, s: Store, proc: Proc) {
    HasTokens(proc.phase) ==>
      && proc.phase.tokens.Keys == KeysOf(proc.role, contract.campaign)
      && (forall key | key in proc.phase.tokens :: proc.phase.tokens[key] <= TokenOf(s.claims, key))
      && (!proc.phase.Holding? ==>
            && proc.phase.seen <= s.log
            && ProgressOk(contract, ProgressOf(proc.phase.seen, contract.campaign))
            && IsFresh(s, contract.campaign, proc.phase.tokens, proc.phase.seen))
      && (proc.phase.Ready? ==> MayEnd(contract, proc.role, proc.phase.seen, proc.phase.completed, proc.phase.fact))
  }

  ghost predicate TokensDiffer(procs: map<nat, Proc>) {
    forall p, q, key | p in procs && q in procs && p != q && HasTokens(procs[p].phase) && HasTokens(procs[q].phase)
      && key in procs[p].phase.tokens && key in procs[q].phase.tokens ::
      procs[p].phase.tokens[key] != procs[q].phase.tokens[key]
  }

  /** Campaign ids and campaign facts go together, and retryable failures are numbered from one. */
  ghost predicate IdsMatch(log: Log, c: RunId) {
    forall e | e in log ::
      && ((e.id.OfCampaign? && e.id.campaign == c) <==> (e.runId == c && IsCampaignFact(e.fact)))
      && (e.runId == c && IsCampaignFact(e.fact) ==> e.id.part == PartOf(e.fact))
      && (e.runId == c && e.fact.TrialCreationRetryable? ==> e.fact.creationAttempt <= ProgressOf(log, c).retries[e.fact.trial])
  }

  ghost predicate LogOk(contract: CampaignContract, log: Log) {
    && IdsMatch(log, contract.campaign)
    && ProgressOk(contract, ProgressOf(log, contract.campaign))
    && !(IsCompleted(log, contract.campaign) && ProgressOf(log, contract.campaign).cancelled)
    && (IsCompleted(log, contract.campaign) ==> AllSettled(contract, ProgressOf(log, contract.campaign)))
    && CountsMatch(log, contract.campaign)
  }

  ghost predicate WorldOk(contract: CampaignContract, w: World) {
    && Consistent(w.store)
    && LogOk(contract, w.store.log)
    && (forall pid | pid in w.procs :: ProcOk(contract, w.store, w.procs[pid]))
    && TokensDiffer(w.procs)
    && w.advances == TrialTotal(w.store.log, contract.campaign)
  }
}
