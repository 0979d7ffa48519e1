/**
  What claims mean to their holders, told on the rows of the table: who is kept out, for how long, and
  what ends a claim. Nothing here mentions how the store decides.
 */
module ClaimLaws {
  import opened Contracts
  import opened Events
  import opened Projection
  import opened Claims
  import opened Tables
  import opened StoreRuns

  /** A live claim: active, and its time is not up. */
  predicate IsHeld(claims: ClaimTable, key: ClaimKey, now: int) {
    key in claims && claims[key].state == Active && now < claims[key].expiresAt
  }

  /** The run is under a checkpoint barrier whose deadline is still ahead. */
  predicate IsBarred(p: Projections, run: Option<RunId>, now: int) {
    && run.Some? && run.value in p.runs && p.runs[run.value].barrierExpiresAt.Some?
    && now < p.runs[run.value].barrierExpiresAt.value
  }

  /** A claim is refused exactly when one of its keys is held or its run is barred, and then changes nothing. */
  lemma ClaimIsRefusedIff(s: Store, keys: set<ClaimKey>, owner: OwnerId, ttl: nat, now: int, run: Option<RunId>)
    ensures CanClaim(s, keys, now, run) <==> !IsBarred(s.projections, run, now) && forall key | key in keys :: !IsHeld(s.claims, key, now)
    ensures !CanClaim(s, keys, now, run) ==> ClaimWork(s, keys, owner, ttl, now, run) == s
  {}

  /** A granted claim lasts until exactly its time is up, for its holder and for everybody else. */
  lemma GrantLastsUntilExpiry(s: Store, keys: set<ClaimKey>, owner: OwnerId, ttl: nat, now: int, run: Option<RunId>, key: ClaimKey, later: int)
    requires CanClaim(s, keys, now, run) && key in keys
    ensures
      var after := ClaimWork(s, keys, owner, ttl, now, run);
      && (AreCurrent(after.claims, Granted(s.claims, keys), owner, later) <==> later < now + ttl)
      && (CanClaim(after, {key}, later, None) <==> later >= now + ttl)
      && after.claims[key].owner == owner
      && after.claims[key].claimedAt == now
      && after.claims[key].token == (if key in s.claims then s.claims[key].token + 1 else 1)
      && after == s.(claims := after.claims)
  {
    var after := ClaimWork(s, keys, owner, ttl, now, run);
    assert key in after.claims && key in Granted(s.claims, keys);
    if CanClaim(after, {key}, later, None) {
      assert key in {key};
    }
  }

  lemma OtherRowsStay(s: Store, keys: set<ClaimKey>, owner: OwnerId, ttl: nat, now: int, run: Option<RunId>, key: ClaimKey)
    requires key !in keys
    ensures
      var after := ClaimWork(s, keys, owner, ttl, now, run);
      (key in after.claims <==> key in s.claims) && (key in s.claims ==> after.claims[key] == s.claims[key])
  {}

  /** The bundle is presented by the owner of every row, with the row's token, while every row is live. */
  predicate Holds(claims: ClaimTable, tokens: Tokens, owner: OwnerId, now: int) {
    forall key | key in tokens :: IsHeld(claims, key, now) && claims[key].owner == owner && claims[key].token == tokens[key]
  }

  lemma CurrentMeansHeld(claims: ClaimTable, tokens: Tokens, owner: OwnerId, now: int)
    ensures AreCurrent(claims, tokens, owner, now) <==> Holds(claims, tokens, owner, now)
  {
    if AreCurrent(claims, tokens, owner, now) {
      assert forall key | key in tokens :: KeyIsCurrent(claims, key, tokens[key], owner, now);
    } else {
      var key :| key in tokens && !KeyIsCurrent(claims, key, tokens[key], owner, now);
    }
  }

  /** Renewing moves the end of the holder's time, and nothing else, exactly when the bundle is held. */
  lemma RenewalExtends(s: Store, tokens: Tokens, owner: OwnerId, ttl: nat, now: int, later: int)
    requires tokens != map[]
    ensures
      var after := RenewClaims(s, tokens, owner, ttl, now);
      && (RenewsClaims(s, tokens, owner, now) <==> Holds(s.claims, tokens, owner, now))
      && (!Holds(s.claims, tokens, owner, now) ==> after == s)
      && (Holds(s.claims, tokens, owner, now) ==>
            && (Holds(after.claims, tokens, owner, later) <==> later < now + ttl)
            && after == s.(claims := after.claims) && after.claims.Keys == s.claims.Keys
            && forall key | key in s.claims ::
                 after.claims[key] == if key in tokens then s.claims[key].(expiresAt := now + ttl) else s.claims[key])
  {
    hide Holds;
    CurrentMeansHeld(s.claims, tokens, owner, now);
    if Holds(s.claims, tokens, owner, now) {
      RenewedRows(s.claims, tokens, owner, ttl, now);
      RenewedHolds(s.claims, tokens, owner, ttl, now, later);
    }
  }

  lemma RenewedRows(claims: ClaimTable, tokens: Tokens, owner: OwnerId, ttl: nat, now: int)
    requires Holds(claims, tokens, owner, now)
    ensures Renewed(claims, tokens, owner, ttl, now).Keys == claims.Keys
    ensures forall key | key in claims ::
      Renewed(claims, tokens, owner, ttl, now)[key]
        == if key in tokens then claims[key].(expiresAt := now + ttl) else claims[key]
  {}

  lemma RenewedHolds(claims: ClaimTable, tokens: Tokens, owner: OwnerId, ttl: nat, now: int, later: int)
    requires tokens != map[] && Holds(claims, tokens, owner, now)
    ensures Holds(Renewed(claims, tokens, owner, ttl, now), tokens, owner, later) <==> later < now + ttl
  {
    RenewedRows(claims, tokens, owner, ttl, now);
    var key :| key in tokens;
    assert key in claims;
  }

  /** A finished bundle is over at every clock: nobody holds its keys, and whoever asks next gets them. */
  lemma FinishFreesKeys(s: Store, tokens: Tokens, owner: OwnerId, state: ClaimState, now: int, key: ClaimKey, later: int)
    requires Holds(s.claims, tokens, owner, now) && key in tokens && state != Active
    ensures
      var after := FinishClaims(s, tokens, owner, state, now, None, false);
      && !IsHeld(after.claims, key, later) && CanClaim(after, {key}, later, None)
      && after.claims[key] == s.claims[key].(state := state)
      && forall other | other in s.claims && other !in tokens :: other in after.claims && after.claims[other] == s.claims[other]
  {
    hide Holds;
    CurrentMeansHeld(s.claims, tokens, owner, now);
    FinishedRows(s.claims, tokens, owner, state, now);
    ClaimIsRefusedIff(FinishClaims(s, tokens, owner, state, now, None, false), {key}, owner, 1, later, None);
    assert key in s.claims by { HeldRowExists(s.claims, tokens, owner, now, key); }
  }

  lemma HeldRowExists(claims: ClaimTable, tokens: Tokens, owner: OwnerId, now: int, key: ClaimKey)
    requires Holds(claims, tokens, owner, now) && key in tokens
    ensures key in claims
  {}

  lemma FinishedRows(claims: ClaimTable, tokens: Tokens, owner: OwnerId, state: ClaimState, now: int)
    requires Holds(claims, tokens, owner, now)
    ensures Finished(claims, tokens, owner, state).Keys == claims.Keys
    ensures forall key | key in claims ::
      Finished(claims, tokens, owner, state)[key] == if key in tokens then claims[key].(state := state) else claims[key]
  {}

  /** Finishing is refused exactly when the bundle is not held, the run is withdrawn, or the final fact clashes with the log. */
  lemma FinishIsRefusedIff(s: Store, tokens: Tokens, owner: OwnerId, now: int, final: Option<Event>, allowCancelledRun: bool)
    requires Consistent(s)
    ensures
      var result := FinishResultOf(s, tokens, owner, now, final, allowCancelledRun);
      var withdrawn := final.Some? && !allowCancelledRun && IsStopping(s.projections, final.value.runId);
      && (result.ClaimsLost? <==> withdrawn || !Holds(s.claims, tokens, owner, now))
      && (result.FinishConflict? <==>
            !withdrawn && Holds(s.claims, tokens, owner, now) && final.Some? && Clashes(s.log, final.value))
  {
    CurrentMeansHeld(s.claims, tokens, owner, now);
    if final.Some? {
      ConflictIsClash(s.log, final.value);
    }
  }

  /** The run is being cancelled or was cancelled. */
  predicate IsStopping(p: Projections, run: RunId) {
    run in p.runs && (p.runs[run].status == RunIsCancelling || p.runs[run].status == RunIsCancelled)
  }

  /** Equal but for the time of creation. */
  predicate SaysTheSame(e: Event, f: Event) {
    && e.id == f.id && e.runId == f.runId && e.taskId == f.taskId && e.source == f.source && e.fact == f.fact
    && e.causation == f.causation
  }

  /** The log holds a different event under the same id; when it was created does not matter. */
  predicate Clashes(log: Log, e: Event) {
    exists f | f in log :: f.id == e.id && !SaysTheSame(f, e)
  }

  lemma ConflictIsClash(log: Log, e: Event)
    requires UniqueIds(log)
    ensures AppendOutcome(log, e).IdConflict? <==> Clashes(log, e)
    ensures AppendOutcome(log, e).Inserted? <==> forall f | f in log :: f.id != e.id
    ensures AppendOutcome(log, e).Replayed? ==> AppendOutcome(log, e).existing in log && SaysTheSame(AppendOutcome(log, e).existing, e)
  {
    hide UniqueIds;
    forall f | f in log && f.id == e.id
      ensures Lookup(log, e.id) == Some(f)
    {
      LookupFinds(log, f);
    }
  }

  /** Failing a claim ends exactly the live claims made by its owner at its instant. */
  lemma FailEndsBundle(s: Store, key: ClaimKey, other: ClaimKey)
    requires other in s.claims
    ensures
      var after := FailBundle(s, key);
      && after == s.(claims := after.claims) && after.claims.Keys == s.claims.Keys
      && after.claims[other] ==
           if key in s.claims && s.claims[key].state == Active && s.claims[other].state == Active
              && s.claims[other].owner == s.claims[key].owner && s.claims[other].claimedAt == s.claims[key].claimedAt
           then s.claims[other].(state := ClaimFailed) else s.claims[other]
    ensures other in BundleOfKey(s.claims, key) <==>
      && key in s.claims && s.claims[key].state == Active && s.claims[other].state == Active
      && s.claims[other].owner == s.claims[key].owner && s.claims[other].claimedAt == s.claims[key].claimedAt
  {}

  // ---- a live claim over whole histories ----

  /** The transaction is not one by which the claim may end: its holder's own, a failure, or a claim after its time. */
  predicate Spares(t: Transaction, key: ClaimKey, claim: Claim) {
    match t
    case DoClaim(keys, _, _, now, _) => key in keys ==> now < claim.expiresAt
    case DoFinish(tokens, owner, _, _, _, _) => key in tokens && owner == claim.owner ==> tokens[key] != claim.token
    case DoRenew(tokens, owner, _, _) => key in tokens && owner == claim.owner ==> tokens[key] != claim.token
    case DoFailBundle(_) => false
    case _ => true
  }

  lemma LiveClaimStandsOnce(s: Store, t: Transaction, key: ClaimKey)
    requires Consistent(s) && key in s.claims && s.claims[key].state == Active && Spares(t, key, s.claims[key])
    ensures key in Apply(s, t).claims && Apply(s, t).claims[key] == s.claims[key]
    ensures t.DoClaim? && key in t.keys ==> Apply(s, t) == s
  {
    hide Fold, Project, UniqueIds, RunIsWithdrawn, AppendOutcome, Consistent, AreCurrent, BarrierHolds;
    match t {
      case DoAppend(event, _, _, _) => AppendingKeepsConsistency(s, event);
      case DoFinish(_, _, _, _, final, _) =>
        if final.Some? {
          AppendingKeepsConsistency(s, final.value);
        }
      case DoCommit(_, _, _, events, _, _, _) => AppendingAllKeepsConsistency(s, events);
      case _ =>
    }
  }

  /**
    Mutual exclusion in time: through any history in which nobody claims the key after its time is up, the
    row of a live claim stays what it is, and every attempt to claim the key changes nothing.
   */
  lemma {:induction false} LiveClaimStands(s: Store, history: seq<Transaction>, key: ClaimKey)
    requires Consistent(s) && key in s.claims && s.claims[key].state == Active
    requires forall t | t in history :: Spares(t, key, s.claims[key])
    ensures
      var later := ApplyAll(s, history);
      && key in later.claims && later.claims[key] == s.claims[key]
      && forall keys: set<ClaimKey>, owner, ttl, now, run | key in keys && now < s.claims[key].expiresAt ::
           ClaimWork(later, keys, owner, ttl, now, run) == later
  {
    hide Spares;
    var later := ApplyAll(s, history);
    if history != [] {
      var last := |history| - 1;
      assert history[last] in history && forall t | t in history[..last] :: t in history;
      LiveClaimStands(s, history[..last], key);
      HistoryIsConsistent(s, history[..last]);
      LiveClaimStandsOnce(ApplyAll(s, history[..last]), history[last], key);
    }
    forall keys: set<ClaimKey>, owner, ttl, now, run | key in keys && now < s.claims[key].expiresAt
      ensures ClaimWork(later, keys, owner, ttl, now, run) == later
    {
      ClaimIsRefusedIff(later, keys, owner, ttl, now, run);
    }
  }
}
