/** Safety of the store over every history of transactions, whatever clocks the callers pass. */
module StoreRuns {
  import opened Contracts
  import opened Events
  import opened Projection
  import opened Claims
  import opened Tables

  datatype Transaction =
    | DoAppend(event: Event, dispatch: Option<Dispatch>, now: int, ackNow: int)
    | DoClaim(keys: set<ClaimKey>, owner: OwnerId, ttl: nat, now: int, run: Option<RunId>)
    | DoFinish(tokens: Tokens, owner: OwnerId, finalState: ClaimState, now: int, final: Option<Event>, allowCancelledRun: bool)
    | DoRenew(tokens: Tokens, owner: OwnerId, ttl: nat, now: int)
    | DoFailBundle(claimKey: ClaimKey)
    | DoBegin(key: Text, candidate: Candidate)
    | DoCommit(key: Text, state: CommandState, decision: Decision, events: seq<Event>, rejection: Option<Text>,
               guard: Option<Guard>, now: int)
    | DoRebuild

  function Apply(s: Store, t: Transaction): Store {
    match t
    case DoAppend(event, dispatch, now, ackNow) => Append(s, event, dispatch, now, ackNow)
    case DoClaim(keys, owner, ttl, now, run) => ClaimWork(s, keys, owner, ttl, now, run)
    case DoFinish(tokens, owner, state, now, final, allow) => FinishClaims(s, tokens, owner, state, now, final, allow)
    case DoRenew(tokens, owner, ttl, now) => RenewClaims(s, tokens, owner, ttl, now)
    case DoFailBundle(key) => FailBundle(s, key)
    case DoBegin(key, candidate) => BeginCommand(s, key, candidate)
    case DoCommit(key, state, decision, events, rejection, guard, now) =>
      CommitCommand(s, key, state, decision, events, rejection, guard, now)
    case DoRebuild => Rebuild(s)
  }

  function ApplyAll(s: Store, history: seq<Transaction>): Store {
    if history == [] then s
    else Apply(ApplyAll(s, history[..|history| - 1]), history[|history| - 1])
  }

  // ---- one transaction ----

  lemma TransactionIsConsistent(s: Store, t: Transaction)
    requires Consistent(s)
    ensures Consistent(Apply(s, t)) && s.log <= Apply(s, t).log
  {
    hide Fold, Project, UniqueIds, Claimed, Finished, Renewed, BundleFailed, RunIsWithdrawn;
    match t
    case DoAppend(event, _, _, _) => AppendingKeepsConsistency(s, event);
    case DoFinish(_, _, _, _, final, _) =>
      if final.Some? {
        AppendingKeepsConsistency(s, final.value);
      }
    case DoCommit(_, _, _, events, _, _, _) => AppendingAllKeepsConsistency(s, events);
    case _ =>
  }

  lemma TransactionGrowsTokens(s: Store, t: Transaction)
    requires Consistent(s)
    ensures TokensGrow(s.claims, Apply(s, t).claims)
  {
    hide Fold, Project, UniqueIds, RunIsWithdrawn, AppendOutcome;
    match t
    case DoAppend(event, _, _, _) => AppendingKeepsConsistency(s, event);
    case DoFinish(_, _, _, _, final, _) =>
      if final.Some? {
        AppendingKeepsConsistency(s, final.value);
      }
    case DoCommit(_, _, _, events, _, _, _) => AppendingAllKeepsConsistency(s, events);
    case _ =>
  }

  // ---- histories ----

  /** Fold equals index: after any history `rebuild_projections` has nothing to change. */
  lemma {:induction false} IndexIsFoldOfLog(history: seq<Transaction>)
    ensures Consistent(ApplyAll(EMPTY_STORE, history))
    ensures Rebuild(ApplyAll(EMPTY_STORE, history)) == ApplyAll(EMPTY_STORE, history)
  {
    HistoryIsConsistent(EMPTY_STORE, history);
  }

  lemma {:induction false} HistoryIsConsistent(s: Store, history: seq<Transaction>)
    requires Consistent(s)
    ensures Consistent(ApplyAll(s, history)) && s.log <= ApplyAll(s, history).log
  {
    if history != [] {
      var last := |history| - 1;
      HistoryIsConsistent(s, history[..last]);
      TransactionIsConsistent(ApplyAll(s, history[..last]), history[last]);
    }
  }

  lemma {:induction false} HistoryGrowsTokens(s: Store, history: seq<Transaction>)
    requires Consistent(s)
    ensures TokensGrow(s.claims, ApplyAll(s, history).claims)
  {
    if history != [] {
      var last := |history| - 1;
      HistoryIsConsistent(s, history[..last]);
      HistoryGrowsTokens(s, history[..last]);
      TransactionGrowsTokens(ApplyAll(s, history[..last]), history[last]);
    }
  }

  /** The bundle with which a transaction asks to be let through the fence. */
  function BundleOf(t: Transaction): Option<Tokens> {
    match t
    case DoAppend(_, dispatch, _, _) => if dispatch.Some? then Some(dispatch.value.tokens) else None
    case DoFinish(tokens, _, _, _, _, _) => Some(tokens)
    case DoRenew(tokens, _, _, _) => Some(tokens)
    case DoCommit(_, _, _, _, _, guard, _) => if guard.Some? then Some(guard.value.tokens) else None
    case _ => None
  }

  lemma OvertakenTransactionIsVoid(s: Store, t: Transaction)
    requires BundleOf(t).Some? && Overtaken(s.claims, BundleOf(t).value)
    ensures Apply(s, t) == s
  {
    match t
    case DoAppend(_, dispatch, now, _) =>
      OvertakenIsNotCurrent(s.claims, dispatch.value.tokens, dispatch.value.owner, now);
    case DoFinish(tokens, owner, _, now, _, _) => OvertakenIsNotCurrent(s.claims, tokens, owner, now);
    case DoRenew(tokens, owner, _, now) => OvertakenIsNotCurrent(s.claims, tokens, owner, now);
    case DoCommit(_, _, _, _, _, guard, now) =>
      OvertakenIsNotCurrent(s.claims, guard.value.tokens, guard.value.owner, now);
    case _ =>
  }

  /**
    Fencing: a bundle is granted, then some key of it is claimed again. After any further history no
    transaction that presents the old bundle changes the store, and every such call reports the loss.
   */
  lemma ReclaimedBundleIsFencedForever(
      s: Store, older: Tokens, keys: set<ClaimKey>, owner: OwnerId, ttl: nat, now: int, run: Option<RunId>,
      key: ClaimKey, history: seq<Transaction>, t: Transaction)
    requires Consistent(s) && CanClaim(s, keys, now, run)
    requires key in older && key in keys && older[key] <= TokenOf(s.claims, key)
    requires BundleOf(t) == Some(older)
    ensures
      var later := ApplyAll(ClaimWork(s, keys, owner, ttl, now, run), history);
      && Apply(later, t) == later
      && (t.DoFinish? ==>
            FinishResultOf(later, older, t.owner, t.now, t.final, t.allowCancelledRun).ClaimsLost?)
      && (t.DoRenew? ==> !RenewsClaims(later, older, t.owner, t.now))
      && (t.DoAppend? ==> AppendResultOf(later, t.event, t.dispatch, t.now, t.ackNow).AppendClaimLost?)
      && (t.DoCommit? ==>
            CommitResultOf(later, t.key, t.state, t.decision, t.events, t.rejection, t.guard, t.now).CommitClaimLost?)
  {
    var reclaimed := ClaimWork(s, keys, owner, ttl, now, run);
    var later := ApplyAll(reclaimed, history);
    ReclaimOvertakes(s.claims, keys, owner, ttl, now, older, key);
    TransactionIsConsistent(s, DoClaim(keys, owner, ttl, now, run));
    HistoryGrowsTokens(reclaimed, history);
    OvertakenStays(reclaimed.claims, later.claims, older);
    OvertakenTransactionIsVoid(later, t);
    VoidTransactionReportsLoss(later, t);
  }

  lemma VoidTransactionReportsLoss(s: Store, t: Transaction)
    requires BundleOf(t).Some? && Overtaken(s.claims, BundleOf(t).value)
    ensures t.DoFinish? ==> FinishResultOf(s, t.tokens, t.owner, t.now, t.final, t.allowCancelledRun).ClaimsLost?
    ensures t.DoRenew? ==> !RenewsClaims(s, t.tokens, t.owner, t.now)
    ensures t.DoAppend? ==> AppendResultOf(s, t.event, t.dispatch, t.now, t.ackNow).AppendClaimLost?
    ensures t.DoCommit? ==>
      CommitResultOf(s, t.key, t.state, t.decision, t.events, t.rejection, t.guard, t.now).CommitClaimLost?
  {
    match t
    case DoAppend(_, dispatch, now, _) =>
      OvertakenIsNotCurrent(s.claims, dispatch.value.tokens, dispatch.value.owner, now);
    case DoFinish(tokens, owner, _, now, _, _) => OvertakenIsNotCurrent(s.claims, tokens, owner, now);
    case DoRenew(tokens, owner, _, now) => OvertakenIsNotCurrent(s.claims, tokens, owner, now);
    case DoCommit(_, _, _, _, _, guard, now) =>
      OvertakenIsNotCurrent(s.claims, guard.value.tokens, guard.value.owner, now);
    case _ =>
  }

  /** A command leaves `processing` at most once; its row never changes afterwards. */
  lemma {:induction false} FinalizedCommandIsFinal(s: Store, history: seq<Transaction>, key: Text)
    requires Consistent(s) && key in s.commands && !s.commands[key].state.Processing?
    ensures key in ApplyAll(s, history).commands && ApplyAll(s, history).commands[key] == s.commands[key]
  {
    if history != [] {
      var last := |history| - 1;
      var middle := ApplyAll(s, history[..last]);
      FinalizedCommandIsFinal(s, history[..last], key);
      HistoryIsConsistent(s, history[..last]);
      FinalizedRowSurvives(middle, history[last], key);
    }
  }

  lemma FinalizedRowSurvives(s: Store, t: Transaction, key: Text)
    requires Consistent(s) && key in s.commands && !s.commands[key].state.Processing?
    ensures key in Apply(s, t).commands && Apply(s, t).commands[key] == s.commands[key]
  {
    hide Fold, Project, UniqueIds, RunIsWithdrawn, AppendOutcome, Claimed, Finished, Renewed, BundleFailed;
    match t
    case DoAppend(event, _, _, _) => AppendingKeepsConsistency(s, event);
    case DoFinish(_, _, _, _, final, _) =>
      if final.Some? {
        AppendingKeepsConsistency(s, final.value);
      }
    case DoCommit(_, _, _, events, _, _, _) => AppendingAllKeepsConsistency(s, events);
    case _ =>
  }
}
