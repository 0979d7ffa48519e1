/** Every step keeps the campaign's invariant, so every run does. */
module CampaignTheorems {
  import opened Contracts
  import opened Events
  import opened Projection
  import opened Claims
  import opened Tables
  import opened StoreRuns
  import opened CampaignFacts
  import opened CampaignRuns
  import opened CampaignSafety

  // ---- every step is one transaction, or none ----

  function TransactionOf(contract: CampaignContract, w: World, step: CampaignStep): Option<Transaction>
    requires MayStep(contract, w, step)
  {
    match step
    case Claim(pid, ttl, now) => Some(DoClaim(KeysOf(w.procs[pid].role, contract.campaign), w.procs[pid].owner, ttl, now, None))
    case BindScope(_, fingerprint, task, at, now) =>
      Some(DoAppend(CampaignEvent(contract.campaign, ScopeBound(fingerprint), task, None, at), None, now, now))
    case Commit(pid, state, _, _, _, now) =>
      Some(DoFinish(w.procs[pid].phase.tokens, w.procs[pid].owner, state, now, Some(FinalEvent(contract, w, step)), false))
    case Abandon(pid, now) => Some(DoFinish(w.procs[pid].phase.tokens, w.procs[pid].owner, ClaimReleased, now, None, false))
    case PairStep(e, now) => Some(DoAppend(e, None, now, now))
    case Elsewhere(t) => Some(t)
    case _ => None
  }

  lemma StepIsTransaction(contract: CampaignContract, w: World, step: CampaignStep)
    requires MayStep(contract, w, step)
    ensures Next(contract, w, step).store
      == if TransactionOf(contract, w, step).Some? then Apply(w.store, TransactionOf(contract, w, step).value) else w.store
  {
    hide FinishClaims, Append, ClaimWork, CanClaim, MayEnd, CalloutsHold, PairMayAppend, IsForeignTransaction;
    match step
    case Commit(pid, _, _, _, _, _) =>
    case _ =>
  }

  lemma StepIsConsistent(contract: CampaignContract, w: World, step: CampaignStep)
    requires Consistent(w.store) && MayStep(contract, w, step)
    ensures Consistent(Next(contract, w, step).store) && w.store.log <= Next(contract, w, step).store.log
  {
    hide Apply, Next, MayStep, TransactionOf;
    StepIsTransaction(contract, w, step);
    if TransactionOf(contract, w, step).Some? {
      TransactionIsConsistent(w.store, TransactionOf(contract, w, step).value);
    }
  }

  // ---- quiet steps ----

  predicate IsCommit(contract: CampaignContract, w: World, step: CampaignStep)
    requires MayStep(contract, w, step)
  {
    step.Commit? && CommitResultOn(contract, w, step).Done?
  }

  lemma FailedFinishChangesNothing(s: Store, tokens: Tokens, owner: OwnerId, state: ClaimState, now: int, final: Option<Event>)
    ensures !FinishResultOf(s, tokens, owner, now, final, false).Done? ==> FinishClaims(s, tokens, owner, state, now, final, false) == s
    ensures final.None? ==> FinishClaims(s, tokens, owner, state, now, final, false).log == s.log
    ensures TokensGrow(s.claims, FinishClaims(s, tokens, owner, state, now, final, false).claims)
  {
    hide AreCurrent, Appending, RunIsWithdrawn, AppendOutcome;
    if final.Some? {
      AppendingKeepsClaims(s, final.value);
    }
  }

  lemma AppendingKeepsClaims(s: Store, e: Event)
    ensures Appending(s, e).claims == s.claims
  {}

  lemma ScopeLeavesTables(c: RunId, fingerprint: nat, task: TaskId, at: int)
    ensures LeavesTables(c, CampaignEvent(c, ScopeBound(fingerprint), task, None, at))
  {}

  lemma PairEventLeavesTables(contract: CampaignContract, log: Log, e: Event)
    requires PairMayAppend(contract, log, e)
    ensures LeavesTables(contract.campaign, e)
  {
    hide ReleaseIsAllowed, PairHas;
    ForeignLeavesTables(contract.campaign, e);
  }

  lemma AppendIsQuiet(s: Store, c: RunId, e: Event, now: int)
    requires LeavesTables(c, e)
    ensures IsQuiet(c, s, Append(s, e, None, now, now))
  {
    hide Appending, IsQuiet, LeavesTables, AppendResultOf;
    SameIsQuiet(s, c);
    AppendingIsQuiet(s, c, e);
  }

  lemma ClaimIsQuiet(s: Store, c: RunId, keys: set<ClaimKey>, owner: OwnerId, ttl: nat, now: int)
    ensures IsQuiet(c, s, ClaimWork(s, keys, owner, ttl, now, None))
  {
    hide IsQuiet, CanClaim;
    ClaimsOnlyIsQuiet(s, c, ClaimWork(s, keys, owner, ttl, now, None));
  }

  lemma QuietStep(contract: CampaignContract, w: World, step: CampaignStep)
    requires Consistent(w.store) && MayStep(contract, w, step) && !IsCommit(contract, w, step)
    ensures IsQuiet(contract.campaign, w.store, Next(contract, w, step).store)
  {
    hide IsQuiet, FinishClaims, FinishResultOf, Append, ClaimWork, CanClaim, MayEnd, CalloutsHold, PairMayAppend,
      IsForeignTransaction, Apply, LeavesTables, Consistent;
    var c := contract.campaign;
    SameIsQuiet(w.store, c);
    match step
    case Claim(pid, ttl, now) => ClaimIsQuiet(w.store, c, KeysOf(w.procs[pid].role, c), w.procs[pid].owner, ttl, now);
    case BindScope(_, fingerprint, task, at, now) =>
      ScopeLeavesTables(c, fingerprint, task, at);
      AppendIsQuiet(w.store, c, CampaignEvent(c, ScopeBound(fingerprint), task, None, at), now);
    case Commit(pid, state, _, _, _, now) =>
      FailedFinishChangesNothing(w.store, w.procs[pid].phase.tokens, w.procs[pid].owner, state, now, Some(FinalEvent(contract, w, step)));
    case Abandon(pid, now) =>
      FailedFinishChangesNothing(w.store, w.procs[pid].phase.tokens, w.procs[pid].owner, ClaimReleased, now, None);
      ClaimsOnlyIsQuiet(w.store, c, Next(contract, w, step).store);
    case PairStep(e, now) =>
      PairEventLeavesTables(contract, w.store.log, e);
      AppendIsQuiet(w.store, c, e, now);
    case Elsewhere(t) => ElsewhereIsQuiet(w.store, c, t);
    case _ =>
  }

  // ---- processes over a quiet step ----

  lemma ClaimedProcOk(contract: CampaignContract, s: Store, role: Role, owner: OwnerId, ttl: nat, now: int)
    requires CanClaim(s, KeysOf(role, contract.campaign), now, None)
    ensures
      var keys := KeysOf(role, contract.campaign);
      ProcOk(contract, ClaimWork(s, keys, owner, ttl, now, None), Proc(role, owner, Holding(Granted(s.claims, keys))))
  {
    hide ProgressOf, IsEnded, KeysOf;
  }

  lemma ReadProcOk(contract: CampaignContract, s: Store, proc: Proc)
    requires ProcOk(contract, s, proc) && proc.phase.Holding? && LogOk(contract, s.log)
    ensures ProcOk(contract, s, proc.(phase := Deciding(proc.phase.tokens, s.log)))
  {
    hide ProgressOf, IsEnded, ProgressOk, IdsMatch, CountsMatch;
  }

  /** The process that takes a quiet step ends in a phase the new store supports. */
  lemma QuietStepKeepsProc(contract: CampaignContract, w: World, step: CampaignStep, pid: nat)
    requires WorldOk(contract, w) && MayStep(contract, w, step) && !IsCommit(contract, w, step)
    requires pid in Next(contract, w, step).procs
    ensures ProcOk(contract, Next(contract, w, step).store, Next(contract, w, step).procs[pid])
  {
    hide LogOk, TokensDiffer, IsQuiet, FinishClaims, FinishResultOf, Append, ClaimWork, CanClaim, MayEnd, CalloutsHold, PairMayAppend,
      IsForeignTransaction, Apply, Consistent, ProcOk;
    QuietStep(contract, w, step);
    var next := Next(contract, w, step);
    if pid in w.procs && next.procs[pid] == w.procs[pid] {
      QuietKeepsProc(contract, w.store, next.store, w.procs[pid]);
    } else {
      match step
      case Claim(_, ttl, now) =>
        if CanClaim(w.store, KeysOf(w.procs[pid].role, contract.campaign), now, None) {
          ClaimedProcOk(contract, w.store, w.procs[pid].role, w.procs[pid].owner, ttl, now);
        } else {
          TokenlessIsOk(contract, next.store, next.procs[pid]);
        }
      case Read(_) => ReadProcOk(contract, w.store, w.procs[pid]);
      case Prepare(_, completed, f) => PreparedIsOk(contract, w.store, w.procs[pid], completed, f);
      case Spawn(_, _, _) => TokenlessIsOk(contract, next.store, next.procs[pid]);
      case Abandon(_, _) => TokenlessIsOk(contract, next.store, next.procs[pid]);
      case _ =>
    }
  }

  lemma TokenlessIsOk(contract: CampaignContract, s: Store, proc: Proc)
    requires !HasTokens(proc.phase)
    ensures ProcOk(contract, s, proc)
  {}

  lemma PreparedIsOk(contract: CampaignContract, s: Store, proc: Proc, completed: set<nat>, f: Fact)
    requires ProcOk(contract, s, proc) && proc.phase.Deciding?
    requires MayEnd(contract, proc.role, proc.phase.seen, completed, f)
    ensures ProcOk(contract, s, proc.(phase := Ready(proc.phase.tokens, proc.phase.seen, completed, f)))
  {
    hide MayEnd, ProgressOk, ProgressOf, IsFresh;
  }

  // ---- tokens stay distinct ----

  /** Moving a process without giving it new tokens keeps tokens distinct. */
  lemma MovingKeepsDistinct(procs: map<nat, Proc>, pid: nat, proc: Proc)
    requires TokensDiffer(procs)
    requires HasTokens(proc.phase) ==> pid in procs && HasTokens(procs[pid].phase) && proc.phase.tokens == procs[pid].phase.tokens
    ensures TokensDiffer(procs[pid := proc])
  {}

  lemma NewTokensAreDistinct(contract: CampaignContract, s: Store, procs: map<nat, Proc>, pid: nat, proc: Proc, keys: set<ClaimKey>)
    requires TokensDiffer(procs) && forall p | p in procs :: ProcOk(contract, s, procs[p])
    requires proc.phase == Holding(Granted(s.claims, keys))
    ensures TokensDiffer(procs[pid := proc])
  {
    hide IsFresh, MayEnd, ProgressOk, KeysOf;
    forall q, key | q in procs && q != pid && HasTokens(procs[q].phase) && key in procs[q].phase.tokens && key in keys
      ensures procs[q].phase.tokens[key] != proc.phase.tokens[key]
    {
      assert procs[q].phase.tokens[key] <= TokenOf(s.claims, key);
    }
  }

  lemma RemovingKeepsDistinct(procs: map<nat, Proc>, pid: nat)
    requires TokensDiffer(procs)
    ensures TokensDiffer(procs - {pid})
  {}

  lemma StepKeepsDistinct(contract: CampaignContract, w: World, step: CampaignStep)
    requires WorldOk(contract, w) && MayStep(contract, w, step)
    ensures TokensDiffer(Next(contract, w, step).procs)
  {
    hide LogOk, TokensDiffer, FinishClaims, FinishResultOf, Append, ClaimWork, CanClaim, MayEnd, CalloutsHold, PairMayAppend,
      IsForeignTransaction, Apply, Consistent, ProcOk, Granted;
    var next := Next(contract, w, step);
    match step
    case Spawn(pid, role, owner) => MovingKeepsDistinct(w.procs, pid, Proc(role, owner, Starting));
    case Claim(pid, _, now) =>
      if CanClaim(w.store, KeysOf(w.procs[pid].role, contract.campaign), now, None) {
        NewTokensAreDistinct(contract, w.store, w.procs, pid, next.procs[pid], KeysOf(w.procs[pid].role, contract.campaign));
      } else {
        MovingKeepsDistinct(w.procs, pid, next.procs[pid]);
      }
    case Read(pid) => MovingKeepsDistinct(w.procs, pid, next.procs[pid]);
    case Prepare(pid, _, _) => MovingKeepsDistinct(w.procs, pid, next.procs[pid]);
    case Commit(pid, _, _, _, _, _) => MovingKeepsDistinct(w.procs, pid, w.procs[pid].(phase := Returned(w.procs[pid].role.Advancer?)));
    case Abandon(pid, _) => MovingKeepsDistinct(w.procs, pid, next.procs[pid]);
    case Crash(pid) => RemovingKeepsDistinct(w.procs, pid);
    case _ =>
  }

  lemma QuietStepKeepsWorld(contract: CampaignContract, w: World, step: CampaignStep)
    requires WorldOk(contract, w) && MayStep(contract, w, step) && !IsCommit(contract, w, step)
    ensures WorldOk(contract, Next(contract, w, step))
  {
    hide LogOk, TokensDiffer, IsQuiet, Consistent, ProcOk, Next, IsCommit, MayStep, TrialTotal;
    QuietStep(contract, w, step);
    StepIsConsistent(contract, w, step);
    StepKeepsDistinct(contract, w, step);
    QuietKeepsLog(contract, w.store, Next(contract, w, step).store);
    QuietKeepsTotal(contract.campaign, w.store, Next(contract, w, step).store);
    QuietStepKeepsAdvances(contract, w, step);
    forall pid | pid in Next(contract, w, step).procs
      ensures ProcOk(contract, Next(contract, w, step).store, Next(contract, w, step).procs[pid])
    {
      QuietStepKeepsProc(contract, w, step, pid);
    }
  }

  lemma QuietKeepsTotal(c: RunId, before: Store, after: Store)
    requires IsQuiet(c, before, after)
    ensures TrialTotal(after.log, c) == TrialTotal(before.log, c)
  {}

  lemma QuietStepKeepsAdvances(contract: CampaignContract, w: World, step: CampaignStep)
    requires MayStep(contract, w, step) && !IsCommit(contract, w, step)
    ensures Next(contract, w, step).advances == w.advances
  {
    hide FinishClaims, FinishResultOf, Append, ClaimWork, CanClaim, MayEnd, CalloutsHold, PairMayAppend, IsForeignTransaction, Apply;
  }

  // ---- a commit ----

  lemma CurrentTokensAreNewest(claims: ClaimTable, tokens: Tokens, owner: OwnerId, now: int)
    requires AreCurrent(claims, tokens, owner, now)
    ensures forall key | key in tokens :: tokens[key] == TokenOf(claims, key)
  {
    forall key | key in tokens
      ensures tokens[key] == TokenOf(claims, key)
    {
      assert KeyIsCurrent(claims, key, tokens[key], owner, now);
    }
  }

  /** A process whose tokens are newest decides on a log that has not changed in what they protect. */
  lemma FreshMayEnd(contract: CampaignContract, s: Store, proc: Proc)
    requires ProcOk(contract, s, proc) && proc.phase.Ready? && LogOk(contract, s.log)
    requires forall key | key in proc.phase.tokens :: proc.phase.tokens[key] == TokenOf(s.claims, key)
    ensures !IsEnded(s.log, contract.campaign)
    ensures proc.role.Advancer? ==>
      Follows(contract, ProgressOf(s.log, contract.campaign), proc.phase.completed, proc.phase.fact)
    ensures proc.role.Finalizer? ==> proc.phase.fact.CampaignCompleted? && AllSettled(contract, ProgressOf(s.log, contract.campaign))
    ensures proc.role.Canceller? ==> proc.phase.fact.CampaignCancelled?
  {
    hide ProgressOf, IsCompleted, ProgressOk, IdsMatch, CountsMatch, Follows, AllSettled;
    var c := contract.campaign;
    match proc.role
    case Advancer =>
      var p := ProgressOf(s.log, c);
      assert CampaignAdvanceKey(c) in proc.phase.tokens;
      if AllSettled(contract, p) {
        SettledIsQuiet(contract, p, proc.phase.completed, proc.phase.fact);
        assert false;
      }
    case Finalizer =>
      assert CampaignTerminalKey(c) in proc.phase.tokens;
      CountedIsSettled(contract, ProgressOf(proc.phase.seen, c));
      var rest := s.log[|proc.phase.seen|..];
      assert s.log == proc.phase.seen + rest;
      ProgressGrows(proc.phase.seen, rest, c);
      SettledStays(contract, ProgressOf(proc.phase.seen, c), ProgressOf(s.log, c));
    case Canceller =>
      assert CampaignTerminalKey(c) in proc.phase.tokens;
  }

  lemma SettledStays(contract: CampaignContract, p: Progress, q: Progress)
    requires AllSettled(contract, p) && Grows(p, q)
    ensures AllSettled(contract, q)
  {
    hide Trials;
  }

  /** The committed fact was not in the log: it is appended, and the log stays well formed. */
  lemma CommitAppends(contract: CampaignContract, s: Store, proc: Proc, e: Event)
    requires ProcOk(contract, s, proc) && proc.phase.Ready? && LogOk(contract, s.log)
    requires forall key | key in proc.phase.tokens :: proc.phase.tokens[key] == TokenOf(s.claims, key)
    requires IsCampaignFact(proc.phase.fact) && e.fact == proc.phase.fact && e.runId == contract.campaign
    requires e.id == OfCampaign(contract.campaign, PartOf(e.fact))
    ensures Appending(s, e).log == s.log + [e] && Appending(s, e).claims == s.claims
    ensures LogOk(contract, s.log + [e])
    ensures proc.role.Advancer? <==> IsTrialFact(e.fact)
    ensures proc.role.Advancer? ==> !IsEnded(s.log + [e], contract.campaign)
    ensures proc.role.Finalizer? ==> ProgressOf(s.log + [e], contract.campaign) == ProgressOf(s.log, contract.campaign)
    ensures !IsEnded(s.log, contract.campaign)
  {
    hide ProgressOf, ProcOk, LogOk, Follows, AllSettled, IsCompleted, PartOf, Lookup, Project, IsNews;
    FreshMayEnd(contract, s, proc);
    LogIdsMatch(contract, s.log);
    if proc.role.Advancer? {
      TrialFactKeepsLog(contract, s.log, proc.phase.completed, e);
      NewsIsTrialFact(ProgressOf(s.log, contract.campaign), e.fact);
      NewsHasNewId(contract, s.log, e.fact);
    } else {
      EndingKeepsLog(contract, s.log, e);
      EndingHasNewId(contract, s.log, e.fact);
      ProgressAppend(s.log, e, contract.campaign);
      CompletionMovesNoTable(ProgressOf(s.log, contract.campaign), e.fact);
    }
    NewIdIsInserted(s, e);
  }

  lemma LogIdsMatch(contract: CampaignContract, log: Log)
    requires LogOk(contract, log)
    ensures IdsMatch(log, contract.campaign)
  {}

  lemma CompletionMovesNoTable(p: Progress, f: Fact)
    ensures f.CampaignCompleted? ==> Advance(p, f) == p
  {}

  lemma NewIdIsInserted(s: Store, e: Event)
    requires forall f | f in s.log :: f.id != e.id
    ensures Appending(s, e).log == s.log + [e] && Appending(s, e).claims == s.claims
  {}

  /** Processes other than the committing one: stale on the keys it held, untouched on the others. */
  lemma OthersStayOk(contract: CampaignContract, s: Store, after: Store, committer: Proc, other: Proc, e: Event)
    requires ProcOk(contract, s, other)
    requires HasTokens(committer.phase) && committer.phase.tokens.Keys == KeysOf(committer.role, contract.campaign)
    requires forall key | key in committer.phase.tokens :: committer.phase.tokens[key] == TokenOf(s.claims, key)
    requires HasTokens(other.phase) ==> forall key | key in committer.phase.tokens && key in other.phase.tokens ::
      committer.phase.tokens[key] != other.phase.tokens[key]
    requires after.log == s.log + [e] && forall key :: TokenOf(after.claims, key) == TokenOf(s.claims, key)
    requires committer.role.Advancer? ==> !IsEnded(s.log, contract.campaign) && !IsEnded(after.log, contract.campaign)
    requires committer.role.Finalizer? ==> ProgressOf(after.log, contract.campaign) == ProgressOf(s.log, contract.campaign)
    ensures ProcOk(contract, after, other)
  {
    hide ProgressOf, IsEnded, ProgressOk, MayEnd;
  }

  lemma FinishedKeepsTokens(claims: ClaimTable, tokens: Tokens, owner: OwnerId, state: ClaimState)
    ensures forall key :: TokenOf(Finished(claims, tokens, owner, state), key) == TokenOf(claims, key)
  {}

  lemma CommittedStore(contract: CampaignContract, w: World, step: CampaignStep)
    requires WorldOk(contract, w) && MayStep(contract, w, step) && IsCommit(contract, w, step)
    ensures
      var proc := w.procs[step.pid];
      var e := FinalEvent(contract, w, step);
      var after := Next(contract, w, step).store;
      && (forall key | key in proc.phase.tokens :: proc.phase.tokens[key] == TokenOf(w.store.claims, key))
      && after.log == w.store.log + [e]
      && (forall key :: TokenOf(after.claims, key) == TokenOf(w.store.claims, key))
      && LogOk(contract, after.log)
      && (proc.role.Advancer? <==> IsTrialFact(e.fact))
      && !IsEnded(w.store.log, contract.campaign)
      && (proc.role.Advancer? ==> !IsEnded(after.log, contract.campaign))
      && (proc.role.Finalizer? ==> ProgressOf(after.log, contract.campaign) == ProgressOf(w.store.log, contract.campaign))
  {
    hide LogOk, ProcOk, TokensDiffer, Consistent, AreCurrent, Appending, IsEnded, ProgressOf, MayEnd, CalloutsHold, RunIsWithdrawn,
      PartOf, AppendOutcome, Finished;
    var proc := w.procs[step.pid];
    var e := FinalEvent(contract, w, step);
    CurrentTokensAreNewest(w.store.claims, proc.phase.tokens, proc.owner, step.now);
    CommitAppends(contract, w.store, proc, e);
    FinishedKeepsTokens(w.store.claims, proc.phase.tokens, proc.owner, step.state);
  }

  lemma CommitMoves(contract: CampaignContract, w: World, step: CampaignStep)
    requires MayStep(contract, w, step) && IsCommit(contract, w, step)
    ensures
      var role := w.procs[step.pid].role;
      && Next(contract, w, step).procs == w.procs[step.pid := w.procs[step.pid].(phase := Returned(role.Advancer?))]
      && Next(contract, w, step).advances == w.advances + (if role.Advancer? then 1 else 0)
  {
    hide FinishClaims, MayEnd, CalloutsHold, FinishResultOf;
  }

  lemma CommitKeepsWorld(contract: CampaignContract, w: World, step: CampaignStep)
    requires WorldOk(contract, w) && MayStep(contract, w, step) && IsCommit(contract, w, step)
    ensures WorldOk(contract, Next(contract, w, step))
  {
    hide LogOk, Consistent, Next, IsEnded, ProgressOf, CalloutsHold, CommitResultOn, TrialTotal, IsTrialFact, MayEnd, ProcOk, TokensDiffer;
    var next := Next(contract, w, step);
    var proc := w.procs[step.pid];
    var e := FinalEvent(contract, w, step);
    CommittedStore(contract, w, step);
    CommitMoves(contract, w, step);
    StepIsConsistent(contract, w, step);
    StepKeepsDistinct(contract, w, step);
    CountsAppend(w.store.log, e, contract.campaign);
    forall pid | pid in next.procs
      ensures ProcOk(contract, next.store, next.procs[pid])
    {
      if pid == step.pid {
        TokenlessIsOk(contract, next.store, next.procs[pid]);
      } else {
        CommitterKeys(contract, w, step.pid, pid);
        OthersStayOk(contract, w.store, next.store, proc, w.procs[pid], e);
      }
    }
  }

  lemma CommitterKeys(contract: CampaignContract, w: World, pid: nat, other: nat)
    requires WorldOk(contract, w) && pid in w.procs && other in w.procs && pid != other && HasTokens(w.procs[pid].phase)
    ensures w.procs[pid].phase.tokens.Keys == KeysOf(w.procs[pid].role, contract.campaign)
    ensures HasTokens(w.procs[other].phase) ==>
      forall key | key in w.procs[pid].phase.tokens && key in w.procs[other].phase.tokens ::
        w.procs[pid].phase.tokens[key] != w.procs[other].phase.tokens[key]
  {
    hide LogOk, Consistent, IsFresh, MayEnd, KeysOf, ProgressOk;
    assert ProcOk(contract, w.store, w.procs[pid]);
  }

  lemma StepKeepsWorld(contract: CampaignContract, w: World, step: CampaignStep)
    requires WorldOk(contract, w) && MayStep(contract, w, step)
    ensures WorldOk(contract, Next(contract, w, step))
  {
    hide WorldOk, MayStep, IsCommit, Next;
    if IsCommit(contract, w, step) {
      CommitKeepsWorld(contract, w, step);
    } else {
      QuietStepKeepsWorld(contract, w, step);
    }
  }

  // ---- runs ----

  ghost predicate Reaches(contract: CampaignContract, w: World, steps: seq<CampaignStep>, reached: World)
    decreases |steps|
  {
    if steps == [] then reached == w
    else MayStep(contract, w, steps[0]) && Reaches(contract, Next(contract, w, steps[0]), steps[1..], reached)
  }

  const EMPTY_WORLD := World(EMPTY_STORE, map[], 0)

  lemma EmptyWorldOk(contract: CampaignContract)
    ensures WorldOk(contract, EMPTY_WORLD)
  {}

  lemma {:induction false} RunsKeepWorld(contract: CampaignContract, w: World, steps: seq<CampaignStep>, reached: World)
    requires WorldOk(contract, w) && Reaches(contract, w, steps, reached)
    ensures WorldOk(contract, reached)
    decreases |steps|
  {
    hide WorldOk, MayStep, Next;
    if steps != [] {
      StepKeepsWorld(contract, w, steps[0]);
      RunsKeepWorld(contract, Next(contract, w, steps[0]), steps[1..], reached);
    }
  }

  /** A commit on a campaign that has ended never succeeds, whichever clock it brings. */
  lemma NothingFollowsTheEnd(contract: CampaignContract, before: seq<CampaignStep>, w: World, step: CampaignStep)
    requires Reaches(contract, EMPTY_WORLD, before, w) && MayStep(contract, w, step) && IsEnded(w.store.log, contract.campaign)
    ensures !IsCommit(contract, w, step)
    ensures ProgressOf(Next(contract, w, step).store.log, contract.campaign) == ProgressOf(w.store.log, contract.campaign)
    ensures TrialTotal(Next(contract, w, step).store.log, contract.campaign) == TrialTotal(w.store.log, contract.campaign)
  {
    hide Reaches, MayStep, Next, IsCommit, ProgressOf, TrialTotal, IsEnded, WorldOk;
    EmptyWorldOk(contract);
    RunsKeepWorld(contract, EMPTY_WORLD, before, w);
    if IsCommit(contract, w, step) {
      CommittedStore(contract, w, step);
      assert false;
    }
    WorldIsConsistent(contract, w);
    QuietStep(contract, w, step);
    QuietKeepsTables(contract.campaign, w.store, Next(contract, w, step).store);
  }

  lemma WorldIsConsistent(contract: CampaignContract, w: World)
    requires WorldOk(contract, w)
    ensures Consistent(w.store)
  {}

  lemma QuietKeepsTables(c: RunId, before: Store, after: Store)
    requires IsQuiet(c, before, after)
    ensures ProgressOf(after.log, c) == ProgressOf(before.log, c) && TrialTotal(after.log, c) == TrialTotal(before.log, c)
  {}

  /** At most one of completed and cancelled, and at most one event of either. */
  lemma CampaignEndsAtMostOnce(contract: CampaignContract, steps: seq<CampaignStep>, reached: World, i: nat, j: nat)
    requires Reaches(contract, EMPTY_WORLD, steps, reached) && i < j < |reached.store.log|
    requires reached.store.log[i].runId == contract.campaign && reached.store.log[j].runId == contract.campaign
    requires reached.store.log[i].fact.CampaignCompleted? || reached.store.log[i].fact.CampaignCancelled?
    ensures !reached.store.log[j].fact.CampaignCompleted? && !reached.store.log[j].fact.CampaignCancelled?
  {
    hide Reaches, ProgressOf, ProgressOk, CountsMatch, AllSettled, Fold;
    EmptyWorldOk(contract);
    RunsKeepWorld(contract, EMPTY_WORLD, steps, reached);
    var log := reached.store.log;
    assert log[i] in log && log[j] in log;
    EventsAreTabled(log, contract.campaign);
    assert log[i].id != log[j].id;
  }

  /** The bounds of a running campaign, read off any reached state. */
  lemma CampaignRespectsBounds(contract: CampaignContract, steps: seq<CampaignStep>, reached: World)
    requires Reaches(contract, EMPTY_WORLD, steps, reached)
    ensures var p := ProgressOf(reached.store.log, contract.campaign);
      && |p.started - p.observed - p.failed| <= contract.maxParallel
      && |p.started - p.linked - p.failed| <= 1
      && (forall t :: p.retries[t] <= 2)
      && p.observed !! p.failed
      && (IsCompleted(reached.store.log, contract.campaign) ==> p.observed + p.failed == Trials(contract))
  {
    hide Reaches, ProgressOf, CountsMatch, Consistent, IdsMatch, Trials;
    EmptyWorldOk(contract);
    RunsKeepWorld(contract, EMPTY_WORLD, steps, reached);
    CountedIsSettled(contract, ProgressOf(reached.store.log, contract.campaign));
  }

  /** Each successful advance adds one new trial event; a trial takes at most six of them. */
  lemma AdvancesAreBounded(contract: CampaignContract, steps: seq<CampaignStep>, reached: World)
    requires Reaches(contract, EMPTY_WORLD, steps, reached)
    ensures reached.advances == TrialTotal(reached.store.log, contract.campaign)
    ensures reached.advances <= 6 * |contract.evals|
    ensures forall t :: TrialCount(reached.store.log, contract.campaign, t) <= 6
  {
    hide Reaches, ProgressOf, Consistent, IdsMatch, TrialCount, TrialTotal, SumUpTo, TrialWork, ProcOk, TokensDiffer;
    EmptyWorldOk(contract);
    RunsKeepWorld(contract, EMPTY_WORLD, steps, reached);
    var log, c := reached.store.log, contract.campaign;
    forall t
      ensures TrialWork(ProgressOf(log, c), t) <= 6
    {
      TrialWorkIsBounded(contract, ProgressOf(log, c), t);
    }
    forall e | e in log && e.runId == c && IsTrialFact(e.fact)
      ensures 1 <= e.fact.trial <= |contract.evals|
    {
      TrialIsPlanned(contract, log, e);
    }
    TotalIsSum(log, c, |contract.evals|);
    SumIsBounded(contract, log, |contract.evals|);
  }

  lemma TrialIsPlanned(contract: CampaignContract, log: Log, e: Event)
    requires ProgressOk(contract, ProgressOf(log, contract.campaign)) && e in log && e.runId == contract.campaign && IsTrialFact(e.fact)
    ensures e.fact.trial in Trials(contract)
  {
    hide ProgressOf, Trials;
    EventsAreTabled(log, contract.campaign);
  }
}
