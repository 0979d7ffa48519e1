/** The campaign service as it runs: claim, read, call out, then commit one fact under the claim. */
module EvalCampaigns {
  import opened Contracts
  import opened Events
  import opened Projection
  import opened Claims
  import opened Tables
  import opened EventStore
  import opened CampaignFacts
  import opened CampaignRuns
  import opened CampaignLaws
  import opened CampaignSafety
  import CampaignTheorems

  /** What creating and validating the child pair of a trial comes to. */
  datatype Creation = Created(fingerprint: nat) | CreationFails(retryable: bool)

  /** The answers of the callouts during one call; `reports` are the finished pairs' reports. */
  datatype Callouts = Callouts(releaseReturns: bool, reports: map<nat, nat>, creation: Creation)

  datatype AdvanceResult = Advanced | NoStep | ClaimBusy | CalloutRaised | ClaimWasLost

  datatype EndResult = Ended | AlreadyEnded | NotReady | NoCanceller | CancelRaised | EndClaimBusy | EndClaimLost

  /** The clock when claiming and when finishing. */
  datatype Clock = Clock(claimedAt: int, finishedAt: int, stamp: int)

  const ADVANCE_CLAIM_TTL_SECONDS := 300

  /** The claim's time was up when the call tried to finish. */
  predicate HasExpired(clock: Clock) {
    clock.finishedAt >= clock.claimedAt + ADVANCE_CLAIM_TTL_SECONDS
  }

  lemma GrantStands(claims: ClaimTable, keys: set<ClaimKey>, owner: OwnerId, clock: Clock)
    ensures HasExpired(clock)
      || AreCurrent(Claimed(claims, keys, owner, ADVANCE_CLAIM_TTL_SECONDS, clock.claimedAt), Granted(claims, keys), owner, clock.finishedAt)
  {}

  /** How a bundle ends: its keys in this state if it was still held, and no row changed otherwise. */
  ghost predicate EndsAs(before: ClaimTable, after: ClaimTable, tokens: Tokens, owner: OwnerId, now: int, state: ClaimState) {
    if AreCurrent(before, tokens, owner, now) then forall key | key in tokens :: key in after && after[key].state == state
    else after == before
  }

  /** Whoever asks for the keys at this time gets them. */
  ghost predicate AreFree(claims: ClaimTable, keys: set<ClaimKey>, now: int) {
    forall key | key in keys && key in claims && claims[key].state == Active :: claims[key].expiresAt <= now
  }

  lemma FinishEnds(s: Store, tokens: Tokens, owner: OwnerId, state: ClaimState, now: int, final: Option<Event>)
    ensures
      var done := FinishResultOf(s, tokens, owner, now, final, false).Done?;
      var after := FinishClaims(s, tokens, owner, state, now, final, false);
      && (done ==> EndsAs(s.claims, after.claims, tokens, owner, now, state))
      && (!done ==> after == s)
      && (final.None? ==> EndsAs(s.claims, after.claims, tokens, owner, now, state))
  {
    hide Project;
  }

  lemma EndedIsFree(claims: ClaimTable, keys: set<ClaimKey>, owner: OwnerId, clock: Clock, after: ClaimTable, state: ClaimState)
    requires state != Active
    requires EndsAs(Claimed(claims, keys, owner, ADVANCE_CLAIM_TTL_SECONDS, clock.claimedAt), after, Granted(claims, keys), owner,
      clock.finishedAt, state)
    ensures AreFree(after, keys, clock.finishedAt)
  {
    hide AreCurrent;
    GrantStands(claims, keys, owner, clock);
    forall key | key in keys && key in after && after[key].state == Active
      ensures after[key].expiresAt <= clock.finishedAt
    {
      assert key in Granted(claims, keys);
    }
  }

  /** An advance ends its claim as failed when it gave a creation up, for now or for good, and as completed otherwise. */
  function AdvanceState(before: Progress, after: Progress): ClaimState {
    if after.failed != before.failed || after.retries != before.retries then ClaimFailed else ClaimCompleted
  }

  lemma StateTellsOutcome(contract: CampaignContract, before: Progress, completed: set<nat>, f: Fact)
    requires ProgressOk(contract, before) && Follows(contract, before, completed, f)
    ensures StateFor(f) == AdvanceState(before, Advance(before, f))
  {
    hide Decide;
    FollowingIsNews(contract, before, completed, f);
  }

  function CreationFact(p: Progress, t: nat, retryable: bool): Fact {
    var attempt := p.retries[t] + 1;
    if retryable && attempt < MAX_PAIR_CREATION_ATTEMPTS then TrialCreationRetryable(t, attempt) else TrialCreationFailed(t)
  }

  /** The campaign's tables after one fact, or unchanged. */
  ghost predicate MovedBy(contract: CampaignContract, before: Log, after: Log, completed: set<nat>, f: Fact) {
    && Follows(contract, ProgressOf(before, contract.campaign), completed, f)
    && ProgressOf(after, contract.campaign) == Advance(ProgressOf(before, contract.campaign), f)
    && TrialTotal(after, contract.campaign) == TrialTotal(before, contract.campaign) + 1
  }

  ghost predicate SameTables(c: RunId, before: Log, after: Log) {
    && before <= after
    && ProgressOf(after, c) == ProgressOf(before, c) && TrialTotal(after, c) == TrialTotal(before, c)
    && (IsCompleted(after, c) <==> IsCompleted(before, c))
  }

  ghost predicate SameTokens(before: ClaimTable, after: ClaimTable) {
    forall key :: TokenOf(after, key) == TokenOf(before, key)
  }

  /** Every earlier holder of the keys is fenced off. */
  ghost predicate FencesOff(before: ClaimTable, after: ClaimTable, keys: set<ClaimKey>) {
    forall key | key in keys :: TokenOf(after, key) == TokenOf(before, key) + 1
  }

  lemma BothKeysGranted(claims: ClaimTable, campaign: RunId, owner: OwnerId, now: int)
    ensures
      var keys := {CampaignAdvanceKey(campaign), CampaignTerminalKey(campaign)};
      Granted(claims, keys) != map[] && FencesOff(claims, Claimed(claims, keys, owner, ADVANCE_CLAIM_TTL_SECONDS, now), keys)
  {
    assert CampaignAdvanceKey(campaign) in Granted(claims, {CampaignAdvanceKey(campaign), CampaignTerminalKey(campaign)});
  }

  /** The child pairs of the started trials among the first `n`, in contract order. */
  function StartedEvals(contract: CampaignContract, started: set<nat>, n: nat): (pairs: seq<RunId>)
    requires n <= |contract.evals|
    ensures forall pair :: pair in pairs <==> exists t | 1 <= t <= n && t in started :: contract.evals[t - 1] == pair
  {
    if n == 0 then []
    else StartedEvals(contract, started, n - 1) + (if n in started then [contract.evals[n - 1]] else [])
  }

  lemma {:induction false} StartedEvalsGrow(contract: CampaignContract, started: set<nat>, n: nat, m: nat)
    requires n <= m <= |contract.evals|
    ensures StartedEvals(contract, started, n) <= StartedEvals(contract, started, m)
  {
    if n < m {
      StartedEvalsGrow(contract, started, n, m - 1);
    }
  }

  lemma StartedEvalsEmpty(contract: CampaignContract, started: set<nat>)
    ensures StartedEvals(contract, started, |contract.evals|) == [] <==> forall t | 1 <= t <= |contract.evals| :: t !in started
  {
    var pairs := StartedEvals(contract, started, |contract.evals|);
    if t: nat :| 1 <= t <= |contract.evals| && t in started {
      assert contract.evals[t - 1] in pairs;
    }
    if pairs != [] {
      assert pairs[0] in pairs;
    }
  }

  /** Which pairs a cancellation asked to be cancelled, by how it ended. */
  ghost predicate CancelAsks(contract: CampaignContract, started: set<nat>, cancelPair: Option<RunId -> bool>, result: EndResult, asked: seq<RunId>) {
    var pairs := StartedEvals(contract, started, |contract.evals|);
    match result
    case Ended => asked == pairs && forall pair | pair in asked :: cancelPair.Some? && cancelPair.value(pair)
    case EndClaimLost => asked == pairs
    case NoCanceller => asked == [] && pairs != [] && cancelPair.None?
    case CancelRaised =>
      && [] < asked <= pairs && cancelPair.Some?
      && !cancelPair.value(asked[|asked| - 1]) && forall pair | pair in asked[..|asked| - 1] :: cancelPair.value(pair)
    case _ => asked == []
  }

  lemma FencingStays(before: ClaimTable, claimed: ClaimTable, after: ClaimTable, keys: set<ClaimKey>)
    requires SameTokens(claimed, after)
    ensures FencesOff(before, claimed, keys) ==> FencesOff(before, after, keys)
  {}

  /** How creating a pair comes out: it is linked unless the campaign is bound to another scope or the creation failed. */
  function OutcomeOf(creation: Creation, log: Log, c: RunId): CreationOutcome {
    match creation
    case Created(fingerprint) =>
      if exists e | e in log :: e.runId == c && e.fact.ScopeBound? && e.fact.fingerprint != fingerprint then FailsForGood else Links
    case CreationFails(retryable) => if retryable then FailsForNow else FailsForGood
  }

  ghost predicate HasEnd(log: Log, c: RunId) {
    exists e | e in log :: e.runId == c && (e.fact.CampaignCompleted? || e.fact.CampaignCancelled?)
  }

  lemma EndedMeansEnd(log: Log, c: RunId)
    ensures IsEnded(log, c) <==> HasEnd(log, c)
  {
    hide ProgressOf;
    TablesTellTheLog(log, c, StartedTable, 0);
  }

  class EvalCampaignService {
    const store: SQLiteEventStore
    const contract: CampaignContract

    constructor (store: SQLiteEventStore, contract: CampaignContract)
      ensures this.store == store && this.contract == contract
    {
      this.store, this.contract := store, contract;
    }

    ghost predicate Valid()
      reads store
    {
      store.Valid() && LogOk(contract, store.events)
    }

    /** Releases the claims; whether they were still held makes no difference to the log. */
    method Release(tokens: Tokens, owner: OwnerId, now: int)
      requires Valid() && tokens != map[]
      modifies store
      ensures Valid() && store.events == old(store.events)
      ensures SameTokens(old(store.claims), store.claims) && store.projections == old(store.projections)
      ensures EndsAs(old(store.claims), store.claims, tokens, owner, now, ClaimReleased)
    {
      hide LogOk, AreCurrent, RunIsWithdrawn, AppendOutcome, Finished, EndsAs;
      ghost var log, projections := store.View().log, store.View().projections;
      FinishEnds(store.View(), tokens, owner, ClaimReleased, now, None);
      CampaignTheorems.FinishedKeepsTokens(store.claims, tokens, owner, ClaimReleased);
      var released := store.FinishWorkClaims(tokens, owner, ClaimReleased, now, None, false);
      assert store.View().log == log && store.View().projections == projections;
    }

    /** Appends the fact and ends the claims, if the tokens still stand; a new fact is never a replay. */
    method Commit(tokens: Tokens, owner: OwnerId, state: ClaimState, e: Event, now: int) returns (done: bool)
      requires store.Valid() && tokens != map[] && forall f | f in store.events :: f.id != e.id
      requires LogOk(contract, store.events + [e]) && LogOk(contract, store.events)
      modifies store
      ensures Valid()
      ensures store.events == if done then old(store.events) + [e] else old(store.events)
      ensures SameTokens(old(store.claims), store.claims)
      ensures !done ==> !AreCurrent(old(store.claims), tokens, owner, now) || RunIsWithdrawn(store.projections, e.runId)
      ensures done ==> EndsAs(old(store.claims), store.claims, tokens, owner, now, state)
      ensures !done ==> store.claims == old(store.claims)
    {
      hide LogOk, AreCurrent, RunIsWithdrawn, Lookup, Project, Finished, EndsAs;
      FinishEnds(store.View(), tokens, owner, state, now, Some(e));
      CampaignTheorems.FinishedKeepsTokens(store.claims, tokens, owner, state);
      NewIsInserted(store.View(), e);
      ghost var before := store.View();
      var result := store.FinishWorkClaims(tokens, owner, state, now, Some(e), false);
      done := result.Done?;
      assert store.View().log == if done then before.log + [e] else before.log;
    }

    /** Binds the scope once; a different scope later is refused. */
    method BindOrValidateScope(fingerprint: nat, task: TaskId, at: int, now: int) returns (bound: bool)
      requires Valid()
      modifies store
      ensures Valid() && SameTables(contract.campaign, old(store.events), store.events)
      ensures bound <==> PairHas(store.events, contract.campaign, ScopeBound(fingerprint))
      ensures bound <==> OutcomeOf(Created(fingerprint), old(store.events), contract.campaign) == Links
      ensures !bound ==> store.events == old(store.events)
      ensures store.claims == old(store.claims)
    {
      hide LogOk, Appending, AppendResultOf, ProgressOf, IsCompleted, TrialTotal, UniqueIds, Fold;
      SameLogSameTables(contract.campaign, store.events);
      for i := 0 to |store.events|
        invariant store.View() == old(store.View()) && Valid()
        invariant forall j | 0 <= j < i :: !(store.events[j].runId == contract.campaign && store.events[j].fact.ScopeBound?)
      {
        var e := store.events[i];
        if e.runId == contract.campaign && e.fact.ScopeBound? {
          ScopeIsThe(contract, store.View(), e);
          assert e in store.events;
          return e.fact.fingerprint == fingerprint;
        }
      }
      var e := CampaignEvent(contract.campaign, ScopeBound(fingerprint), task, None, at);
      ScopeIsNew(contract, store.events, e);
      ScopeLeaves(contract.campaign, e);
      AppendingIsQuiet(store.View(), contract.campaign, e);
      QuietKeepsLog(contract, store.View(), Appending(store.View(), e));
      QuietIsSame(contract.campaign, store.View(), Appending(store.View(), e));
      NewIsInserted(store.View(), e);
      ghost var before := store.View();
      var appended := store.Append(e, None, now, now);
      PersistsNew(before, e, now);
      assert store.View() == Appending(before, e);
      assert e in store.events;
      return true;
    }

    /** Advances the campaign by one durable boundary. */
    method AdvanceOne(owner: OwnerId, callouts: Callouts, task: TaskId, causation: Option<EventId>, clock: Clock)
      returns (result: AdvanceResult)
      requires Valid()
      modifies store
      ensures Valid() && old(store.events) <= store.events
      ensures result.Advanced? ==> !IsEnded(old(store.events), contract.campaign)
      ensures result.Advanced? ==> exists f :: MovedBy(contract, old(store.events), store.events, callouts.reports.Keys, f)
      ensures result.Advanced? ==>
        AdvancesTo(contract, ProgressOf(old(store.events), contract.campaign), callouts.reports.Keys,
          OutcomeOf(callouts.creation, old(store.events), contract.campaign), ProgressOf(store.events, contract.campaign))
      ensures !result.Advanced? ==> SameTables(contract.campaign, old(store.events), store.events)
      ensures !result.ClaimBusy? ==>
        (result.NoStep? <==>
          || HasEnd(old(store.events), contract.campaign)
          || NothingApplies(contract, ProgressOf(old(store.events), contract.campaign), callouts.reports.Keys))
      ensures result.Advanced? ==> FencesOff(old(store.claims), store.claims, {CampaignAdvanceKey(contract.campaign)})
      ensures result.ClaimBusy? ==>
        !CanClaim(old(store.View()), {CampaignAdvanceKey(contract.campaign)}, clock.claimedAt, None) && store.View() == old(store.View())
      ensures !result.ClaimBusy? ==> AreFree(store.claims, {CampaignAdvanceKey(contract.campaign)}, clock.finishedAt)
      ensures result.NoStep? ==>
        IsEnded(old(store.events), contract.campaign)
        || Decide(contract, ProgressOf(old(store.events), contract.campaign), callouts.reports.Keys).NothingToDo?
      ensures !result.ClaimBusy? ==>
        (result.CalloutRaised? <==>
          && !HasEnd(old(store.events), contract.campaign) && !callouts.releaseReturns
          && var p := ProgressOf(old(store.events), contract.campaign); AnyPlanned(contract, p.linked - p.released))
      ensures result.ClaimWasLost? ==> HasExpired(clock) || RunIsWithdrawn(store.projections, contract.campaign)
    {
      hide LogOk, IsEnded, MovedBy, SameTables, ProgressOf, AreCurrent, Decide, CanClaim, RunIsWithdrawn, HasExpired, HasEnd, NothingApplies,
        AdvancesTo, OutcomeOf, FencesOff, SameTokens, Granted, EndsAs, AreFree, AnyPlanned;
      GrantStands(store.claims, {CampaignAdvanceKey(contract.campaign)}, owner, clock);
      SameLogSameTables(contract.campaign, store.events);
      var outcome := store.ClaimWork({CampaignAdvanceKey(contract.campaign)}, owner, ADVANCE_CLAIM_TTL_SECONDS, clock.claimedAt, None);
      if !outcome.TokensGranted? {
        return ClaimBusy;
      }
      OneKeyGranted(old(store.claims), CampaignAdvanceKey(contract.campaign), owner, clock.claimedAt);
      StoreStaysValid(old(store.View()), store.View());
      ghost var claimed := store.claims;
      result := AdvanceClaimed(outcome.tokens, owner, callouts, task, causation, clock);
      FencingStays(old(store.claims), claimed, store.claims, {CampaignAdvanceKey(contract.campaign)});
      EndedIsFree(old(store.claims), {CampaignAdvanceKey(contract.campaign)}, owner, clock, store.claims,
        if result.Advanced? then AdvanceState(ProgressOf(old(store.events), contract.campaign), ProgressOf(store.events, contract.campaign))
        else ClaimReleased);
    }

    /** The rest of an advance, with the key claimed. */
    method AdvanceClaimed(tokens: Tokens, owner: OwnerId, callouts: Callouts, task: TaskId, causation: Option<EventId>, clock: Clock)
      returns (result: AdvanceResult)
      requires Valid() && tokens != map[]
      modifies store
      ensures Valid() && old(store.events) <= store.events && SameTokens(old(store.claims), store.claims)
      ensures !result.ClaimBusy?
      ensures result.Advanced? ==> !IsEnded(old(store.events), contract.campaign)
      ensures result.Advanced? ==> exists f :: MovedBy(contract, old(store.events), store.events, callouts.reports.Keys, f)
      ensures result.Advanced? ==>
        AdvancesTo(contract, ProgressOf(old(store.events), contract.campaign), callouts.reports.Keys,
          OutcomeOf(callouts.creation, old(store.events), contract.campaign), ProgressOf(store.events, contract.campaign))
      ensures !result.Advanced? ==> SameTables(contract.campaign, old(store.events), store.events)
      ensures result.NoStep? <==>
        || HasEnd(old(store.events), contract.campaign)
        || NothingApplies(contract, ProgressOf(old(store.events), contract.campaign), callouts.reports.Keys)
      ensures result.NoStep? ==>
        IsEnded(old(store.events), contract.campaign)
        || Decide(contract, ProgressOf(old(store.events), contract.campaign), callouts.reports.Keys).NothingToDo?
      ensures result.CalloutRaised? <==>
        && !HasEnd(old(store.events), contract.campaign) && !callouts.releaseReturns
        && var p := ProgressOf(old(store.events), contract.campaign); AnyPlanned(contract, p.linked - p.released)
      ensures result.ClaimWasLost? ==>
        !AreCurrent(old(store.claims), tokens, owner, clock.finishedAt) || RunIsWithdrawn(store.projections, contract.campaign)
      ensures EndsAs(old(store.claims), store.claims, tokens, owner, clock.finishedAt,
        if result.Advanced? then AdvanceState(ProgressOf(old(store.events), contract.campaign), ProgressOf(store.events, contract.campaign))
        else ClaimReleased)
    {
      hide LogOk, IsEnded, MovedBy, SameTables, ProgressOf, AreCurrent, Follows, Decide, RunIsWithdrawn, HasEnd, NothingApplies,
        AdvancesTo, OutcomeOf, SameTokens, EndsAs, AdvanceState, AnyPlanned;
      ghost var read := store.events;
      SameLogSameTables(contract.campaign, read);
      EndedMeansEnd(read, contract.campaign);
      NothingIsChosenIff(contract, ProgressOf(read, contract.campaign), callouts.reports.Keys);
      ReleaseIsChosenIff(contract, ProgressOf(read, contract.campaign), callouts.reports.Keys);
      var ended := HasEnded();
      if ended {
        Release(tokens, owner, clock.finishedAt);
        return NoStep;
      }
      var step := ChooseStep(contract, store.events, callouts.reports.Keys);
      if step.NothingToDo? {
        Release(tokens, owner, clock.finishedAt);
        return NoStep;
      }
      if step.ReleaseTrial? && !callouts.releaseReturns {
        Release(tokens, owner, clock.finishedAt);
        return CalloutRaised;
      }
      var f := FactOf(step, callouts, task, clock);
      SameEnding(contract.campaign, read, store.events);
      ghost var decided := store.events;
      result := CommitTrialFact(tokens, owner, callouts.reports.Keys, f, task, causation, clock);
      if result.Advanced? {
        MovedFollows(contract, decided, store.events, callouts.reports.Keys, f);
        SameThenMoved(contract, read, decided, store.events, callouts.reports.Keys, f);
        SameProgress(contract.campaign, read, decided);
      }
    }

    /** The fact the chosen step ends in, after its callouts. */
    method FactOf(step: Step, callouts: Callouts, task: TaskId, clock: Clock) returns (f: Fact)
      requires Valid() && step == Decide(contract, ProgressOf(store.events, contract.campaign), callouts.reports.Keys)
      requires !step.NothingToDo?
      modifies store
      ensures Valid() && SameTables(contract.campaign, old(store.events), store.events)
      ensures Follows(contract, ProgressOf(store.events, contract.campaign), callouts.reports.Keys, f)
      ensures AdvancesTo(contract, ProgressOf(store.events, contract.campaign), callouts.reports.Keys,
        OutcomeOf(callouts.creation, old(store.events), contract.campaign), Advance(ProgressOf(store.events, contract.campaign), f))
      ensures f.TrialLinked? ==> PairHas(store.events, contract.campaign, ScopeBound(f.fingerprint))
      ensures store.claims == old(store.claims)
    {
      hide LogOk, SameTables, ProgressOf, PairHas, Decide, AdvancesTo, OutcomeOf, Advance;
      SameLogSameTables(contract.campaign, store.events);
      ghost var p, outcome :=
        ProgressOf(store.events, contract.campaign), OutcomeOf(callouts.creation, store.events, contract.campaign);
      match step {
        case ReleaseTrial(t) => f := TrialReleased(t);
        case ObserveTrial(t) =>
          ObservedIsReported(contract, p, callouts.reports.Keys);
          f := TrialObserved(t, callouts.reports[t]);
        case StartTrial(t) => f := TrialStarted(t);
        case CreatePair(t) =>
          f := CreatePair(t, callouts, task, clock);
      }
      StepAdvancesTo(contract, p, callouts.reports.Keys, outcome, f);
      SameProgress(contract.campaign, old(store.events), store.events);
    }

    /** The callout that creates the pair of a trial, and what comes of it. */
    method CreatePair(t: nat, callouts: Callouts, task: TaskId, clock: Clock) returns (f: Fact)
      requires Valid()
      modifies store
      ensures Valid() && SameTables(contract.campaign, old(store.events), store.events)
      ensures StepEndsIn(ProgressOf(old(store.events), contract.campaign), Step.CreatePair(t),
        OutcomeOf(callouts.creation, old(store.events), contract.campaign), f)
      ensures f.TrialLinked? ==> PairHas(store.events, contract.campaign, ScopeBound(f.fingerprint))
      ensures store.claims == old(store.claims)
    {
      hide LogOk, SameTables, ProgressOf, PairHas;
      SameLogSameTables(contract.campaign, store.events);
      var p := ReadProgress(store.events, contract.campaign);
      if callouts.creation.CreationFails? {
        return CreationFact(p, t, callouts.creation.retryable);
      }
      var bound := BindOrValidateScope(callouts.creation.fingerprint, task, clock.stamp, clock.finishedAt);
      return if bound then TrialLinked(t, callouts.creation.fingerprint) else CreationFact(p, t, false);
    }

    method CommitTrialFact(tokens: Tokens, owner: OwnerId, completed: set<nat>, f: Fact, task: TaskId, causation: Option<EventId>,
                           clock: Clock) returns (result: AdvanceResult)
      requires Valid() && tokens != map[] && !IsEnded(store.events, contract.campaign)
      requires Follows(contract, ProgressOf(store.events, contract.campaign), completed, f)
      modifies store
      ensures Valid() && old(store.events) <= store.events
      ensures result.Advanced? || result.ClaimWasLost?
      ensures result.Advanced? ==> MovedBy(contract, old(store.events), store.events, completed, f)
      ensures result.ClaimWasLost? ==> store.events == old(store.events)
      ensures result.ClaimWasLost? ==>
        !AreCurrent(old(store.claims), tokens, owner, clock.finishedAt) || RunIsWithdrawn(store.projections, contract.campaign)
      ensures SameTokens(old(store.claims), store.claims)
      ensures EndsAs(old(store.claims), store.claims, tokens, owner, clock.finishedAt,
        if result.Advanced? then AdvanceState(ProgressOf(old(store.events), contract.campaign), ProgressOf(store.events, contract.campaign))
        else ClaimReleased)
    {
      hide LogOk, IsEnded, ProgressOf, Follows, MovedBy, PartOf, IsNews, IsTrialFact, IsCampaignFact, AreCurrent, RunIsWithdrawn, EndsAs,
        AdvanceState, StateFor, ProgressOk;
      ghost var log := store.events;
      TrialFactIsCampaignFact(contract, log, completed, f);
      var e := CampaignEvent(contract.campaign, f, task, causation, clock.stamp);
      TrialFactKeepsLog(contract, log, completed, e);
      CampaignTheorems.LogIdsMatch(contract, log);
      NewsHasNewId(contract, log, f);
      MovedByFact(contract, log, completed, e);
      MovedFollows(contract, log, log + [e], completed, f);
      LogProgressOk(contract, log);
      StateTellsOutcome(contract, ProgressOf(log, contract.campaign), completed, f);
      var done := Commit(tokens, owner, StateFor(f), e, clock.finishedAt);
      if done {
        return Advanced;
      }
      Release(tokens, owner, clock.finishedAt);
      return ClaimWasLost;
    }

    method HasEnded() returns (ended: bool)
      requires Valid()
      ensures ended <==> IsEnded(store.events, contract.campaign)
    {
      hide LogOk;
      var p := ReadProgress(store.events, contract.campaign);
      ended := IsCompleted(store.events, contract.campaign) || p.cancelled;
    }

    /** Completes the campaign when the claimed re-read finds every planned trial settled. */
    method Finalize(owner: OwnerId, report: nat, task: TaskId, clock: Clock) returns (result: EndResult)
      requires Valid()
      modifies store
      ensures Valid() && old(store.events) <= store.events
      ensures result.Ended? ==> !IsEnded(old(store.events), contract.campaign) && IsCompleted(store.events, contract.campaign)
      ensures result.Ended? ==> AllSettled(contract, ProgressOf(old(store.events), contract.campaign))
      ensures !result.Ended? ==> store.events == old(store.events)
      ensures result.Ended? ==> FencesOff(old(store.claims), store.claims, {CampaignTerminalKey(contract.campaign)})
      ensures result.NotReady? ==> !AllSettled(contract, ProgressOf(old(store.events), contract.campaign))
      ensures result.AlreadyEnded? ==> IsEnded(old(store.events), contract.campaign)
      ensures result.EndClaimBusy? ==>
        !CanClaim(old(store.View()), {CampaignTerminalKey(contract.campaign)}, clock.claimedAt, None) && store.View() == old(store.View())
      ensures !result.EndClaimBusy? ==> AreFree(store.claims, {CampaignTerminalKey(contract.campaign)}, clock.finishedAt)
      ensures result.EndClaimLost? ==> HasExpired(clock) || RunIsWithdrawn(store.projections, contract.campaign)
    {
      hide LogOk, IsEnded, ProgressOf, AreCurrent, AllSettled, ProgressOk, IsCompleted, CanClaim, RunIsWithdrawn, HasExpired, EndsAs, AreFree;
      GrantStands(store.claims, {CampaignTerminalKey(contract.campaign)}, owner, clock);
      var outcome := store.ClaimWork({CampaignTerminalKey(contract.campaign)}, owner, ADVANCE_CLAIM_TTL_SECONDS, clock.claimedAt, None);
      if !outcome.TokensGranted? {
        return EndClaimBusy;
      }
      assert CampaignTerminalKey(contract.campaign) in outcome.tokens;
      StoreStaysValid(old(store.View()), store.View());
      var ended := HasEnded();
      var p := ReadProgress(store.events, contract.campaign);
      LogProgressOk(contract, store.events);
      CountedIsSettled(contract, p);
      if ended || |p.observed| + |p.failed| != |contract.evals| {
        Release(outcome.tokens, owner, clock.finishedAt);
        EndedIsFree(old(store.claims), {CampaignTerminalKey(contract.campaign)}, owner, clock, store.claims, ClaimReleased);
        return if ended then AlreadyEnded else NotReady;
      }
      result := CommitEnding(outcome.tokens, owner, CampaignCompleted(report), task, clock);
      EndedIsFree(old(store.claims), {CampaignTerminalKey(contract.campaign)}, owner, clock, store.claims,
        if result.Ended? then ClaimCompleted else ClaimReleased);
    }

    /** Asks for the cancellation of the started pairs in contract order, up to the first that raises. */
    method CancelPairs(started: set<nat>, cancelPair: RunId -> bool) returns (allReturned: bool, asked: seq<RunId>)
      ensures asked <= StartedEvals(contract, started, |contract.evals|)
      ensures allReturned ==> asked == StartedEvals(contract, started, |contract.evals|) && forall pair | pair in asked :: cancelPair(pair)
      ensures !allReturned ==> asked != [] && !cancelPair(asked[|asked| - 1]) && forall pair | pair in asked[..|asked| - 1] :: cancelPair(pair)
    {
      allReturned, asked := true, [];
      for i := 0 to |contract.evals|
        invariant allReturned && asked == StartedEvals(contract, started, i) && forall pair | pair in asked :: cancelPair(pair)
      {
        StartedEvalsGrow(contract, started, i + 1, |contract.evals|);
        if i + 1 in started {
          allReturned := cancelPair(contract.evals[i]);
          asked := asked + [contract.evals[i]];
          if !allReturned {
            return;
          }
        }
      }
    }

    /**
      Holds both keys, so no advancer or finaliser that read before can still commit, and ends the campaign
      only after the pair of every started trial was cancelled.
     */
    method Cancel(owner: OwnerId, report: nat, task: TaskId, clock: Clock, cancelPair: Option<RunId -> bool>)
      returns (result: EndResult, asked: seq<RunId>)
      requires Valid()
      modifies store
      ensures Valid() && old(store.events) <= store.events
      ensures result.Ended? ==>
        !IsEnded(old(store.events), contract.campaign) && ProgressOf(store.events, contract.campaign).cancelled
      ensures result.Ended? ==>
        FencesOff(old(store.claims), store.claims, {CampaignAdvanceKey(contract.campaign), CampaignTerminalKey(contract.campaign)})
      ensures !result.Ended? ==> store.events == old(store.events)
      ensures !result.NotReady?
      ensures result.AlreadyEnded? ==> IsEnded(old(store.events), contract.campaign)
      ensures result.EndClaimBusy? ==> !CanClaim(old(store.View()),
        {CampaignAdvanceKey(contract.campaign), CampaignTerminalKey(contract.campaign)}, clock.claimedAt, None)
      ensures result.EndClaimBusy? ==> store.View() == old(store.View())
      ensures !result.EndClaimBusy? ==>
        AreFree(store.claims, {CampaignAdvanceKey(contract.campaign), CampaignTerminalKey(contract.campaign)}, clock.finishedAt)
      ensures result.EndClaimLost? ==> HasExpired(clock) || RunIsWithdrawn(store.projections, contract.campaign)
      ensures CancelAsks(contract, ProgressOf(old(store.events), contract.campaign).started, cancelPair, result, asked)
    {
      hide LogOk, IsEnded, ProgressOf, AreCurrent, IsCompleted, CanClaim, RunIsWithdrawn, HasExpired, StartedEvals, FencesOff, Granted,
        SameTokens, EndsAs, AreFree;
      asked := [];
      var keys := {CampaignAdvanceKey(contract.campaign), CampaignTerminalKey(contract.campaign)};
      GrantStands(store.claims, keys, owner, clock);
      var outcome := store.ClaimWork(keys, owner, ADVANCE_CLAIM_TTL_SECONDS, clock.claimedAt, None);
      if !outcome.TokensGranted? {
        result := EndClaimBusy;
        return;
      }
      BothKeysGranted(old(store.claims), contract.campaign, owner, clock.claimedAt);
      StoreStaysValid(old(store.View()), store.View());
      ghost var claimed := store.claims;
      result, asked := CancelClaimed(outcome.tokens, owner, report, task, clock, cancelPair);
      FencingStays(old(store.claims), claimed, store.claims, keys);
      EndedIsFree(old(store.claims), keys, owner, clock, store.claims, if result.Ended? then ClaimCompleted else ClaimReleased);
    }

    /** The rest of a cancellation, with both keys claimed. */
    method CancelClaimed(tokens: Tokens, owner: OwnerId, report: nat, task: TaskId, clock: Clock, cancelPair: Option<RunId -> bool>)
      returns (result: EndResult, asked: seq<RunId>)
      requires Valid() && tokens != map[]
      modifies store
      ensures Valid() && old(store.events) <= store.events && SameTokens(old(store.claims), store.claims)
      ensures result.Ended? ==>
        !IsEnded(old(store.events), contract.campaign) && ProgressOf(store.events, contract.campaign).cancelled
      ensures !result.Ended? ==> store.events == old(store.events)
      ensures !result.NotReady? && !result.EndClaimBusy?
      ensures result.AlreadyEnded? ==> IsEnded(old(store.events), contract.campaign)
      ensures result.EndClaimLost? ==>
        !AreCurrent(old(store.claims), tokens, owner, clock.finishedAt) || RunIsWithdrawn(store.projections, contract.campaign)
      ensures CancelAsks(contract, ProgressOf(old(store.events), contract.campaign).started, cancelPair, result, asked)
      ensures EndsAs(old(store.claims), store.claims, tokens, owner, clock.finishedAt, if result.Ended? then ClaimCompleted else ClaimReleased)
    {
      hide LogOk, IsEnded, ProgressOf, AreCurrent, IsCompleted, RunIsWithdrawn, StartedEvals, SameTokens, EndsAs;
      asked := [];
      var ended := HasEnded();
      if ended {
        Release(tokens, owner, clock.finishedAt);
        result := AlreadyEnded;
        return;
      }
      var p := ReadProgress(store.events, contract.campaign);
      var first := FirstTrial(p.started, |contract.evals|);
      StartedEvalsEmpty(contract, p.started);
      if first.Some? && cancelPair.None? {
        Release(tokens, owner, clock.finishedAt);
        result := NoCanceller;
        return;
      }
      if first.Some? {
        var allReturned;
        allReturned, asked := CancelPairs(p.started, cancelPair.value);
        if !allReturned {
          Release(tokens, owner, clock.finishedAt);
          result := CancelRaised;
          return;
        }
      }
      result := CommitEnding(tokens, owner, CampaignCancelled(report), task, clock);
    }

    method CommitEnding(tokens: Tokens, owner: OwnerId, f: Fact, task: TaskId, clock: Clock) returns (result: EndResult)
      requires Valid() && tokens != map[] && !IsEnded(store.events, contract.campaign)
      requires f.CampaignCancelled? || (f.CampaignCompleted? && AllSettled(contract, ProgressOf(store.events, contract.campaign)))
      modifies store
      ensures Valid() && old(store.events) <= store.events
      ensures result.Ended? || result.EndClaimLost?
      ensures result.Ended? && f.CampaignCompleted? ==> IsCompleted(store.events, contract.campaign)
      ensures result.Ended? && f.CampaignCancelled? ==> ProgressOf(store.events, contract.campaign).cancelled
      ensures result.EndClaimLost? ==> store.events == old(store.events)
      ensures result.EndClaimLost? ==>
        !AreCurrent(old(store.claims), tokens, owner, clock.finishedAt) || RunIsWithdrawn(store.projections, contract.campaign)
      ensures SameTokens(old(store.claims), store.claims)
      ensures EndsAs(old(store.claims), store.claims, tokens, owner, clock.finishedAt, if result.Ended? then ClaimCompleted else ClaimReleased)
    {
      hide LogOk, IsEnded, ProgressOf, AllSettled, PartOf, Advance, AreCurrent, RunIsWithdrawn, EndsAs;
      ghost var log := store.events;
      var e := CampaignEvent(contract.campaign, f, task, None, clock.stamp);
      EndingKeepsLog(contract, log, e);
      CampaignTheorems.LogIdsMatch(contract, log);
      EndingHasNewId(contract, log, f);
      ProgressAppend(log, e, contract.campaign);
      AdvanceGrows(ProgressOf(log, contract.campaign), f);
      var done := Commit(tokens, owner, ClaimCompleted, e, clock.finishedAt);
      if done {
        return Ended;
      }
      Release(tokens, owner, clock.finishedAt);
      return EndClaimLost;
    }
  }

  /** A failed creation ends the claim as failed, any other fact as completed. */
  function StateFor(f: Fact): ClaimState {
    if f.TrialCreationFailed? || f.TrialCreationRetryable? then ClaimFailed else ClaimCompleted
  }

  lemma StoreStaysValid(before: Store, after: Store)
    requires Consistent(before) && after.log == before.log && after.projections == before.projections
    ensures Consistent(after)
  {}

  lemma NewIsInserted(s: Store, e: Event)
    requires forall f | f in s.log :: f.id != e.id
    ensures AppendOutcome(s.log, e).Inserted? && Appending(s, e).log == s.log + [e] && Appending(s, e).claims == s.claims
  {}

  lemma PersistsNew(s: Store, e: Event, now: int)
    requires AppendOutcome(s.log, e).Inserted? && e.fact.ScopeBound?
    ensures AppendResultOf(s, e, None, now, now).Persisted? && Append(s, e, None, now, now) == Appending(s, e)
  {}

  lemma SameLogSameTables(c: RunId, log: Log)
    ensures SameTables(c, log, log)
  {}

  lemma MovedFollows(contract: CampaignContract, before: Log, after: Log, completed: set<nat>, f: Fact)
    requires MovedBy(contract, before, after, completed, f)
    ensures ProgressOf(after, contract.campaign) == Advance(ProgressOf(before, contract.campaign), f)
  {
    hide ProgressOf;
  }

  lemma OneKeyGranted(claims: ClaimTable, key: ClaimKey, owner: OwnerId, now: int)
    ensures Granted(claims, {key}) != map[]
    ensures FencesOff(claims, Claimed(claims, {key}, owner, ADVANCE_CLAIM_TTL_SECONDS, now), {key})
  {
    assert key in Granted(claims, {key});
  }

  lemma SameProgress(c: RunId, before: Log, after: Log)
    requires SameTables(c, before, after)
    ensures ProgressOf(after, c) == ProgressOf(before, c)
  {}

  lemma SameEnding(c: RunId, before: Log, after: Log)
    requires SameTables(c, before, after)
    ensures before <= after && (IsEnded(after, c) <==> IsEnded(before, c))
  {
    hide ProgressOf, IsCompleted;
  }

  lemma SameThenMoved(contract: CampaignContract, first: Log, before: Log, after: Log, completed: set<nat>, f: Fact)
    requires SameTables(contract.campaign, first, before) && MovedBy(contract, before, after, completed, f)
    ensures MovedBy(contract, first, after, completed, f)
  {
    hide ProgressOf, IsCompleted, TrialTotal, Follows, Advance;
  }

  lemma QuietIsSame(c: RunId, before: Store, after: Store)
    requires IsQuiet(c, before, after)
    ensures SameTables(c, before.log, after.log)
  {}

  lemma LogProgressOk(contract: CampaignContract, log: Log)
    requires LogOk(contract, log)
    ensures ProgressOk(contract, ProgressOf(log, contract.campaign))
  {}

  lemma ScopeLeaves(c: RunId, e: Event)
    requires e.fact.ScopeBound? && e.runId == c && e.id == OfCampaign(c, ScopePart)
    ensures LeavesTables(c, e)
  {}

  /** The scope fact of a campaign is the only one. */
  lemma ScopeIsThe(contract: CampaignContract, s: Store, e: Event)
    requires Consistent(s) && LogOk(contract, s.log) && e in s.log && e.runId == contract.campaign && e.fact.ScopeBound?
    ensures forall f | f in s.log && f.runId == contract.campaign && f.fact.ScopeBound? :: f == e
  {
    hide Fold, ProgressOf, ProgressOk, CountsMatch, AllSettled, IsCompleted;
    forall f | f in s.log && f.runId == contract.campaign && f.fact.ScopeBound?
      ensures f == e
    {
      assert f.id == e.id;
      LookupFinds(s.log, f);
      LookupFinds(s.log, e);
    }
  }

  lemma ScopeIsNew(contract: CampaignContract, log: Log, e: Event)
    requires LogOk(contract, log) && e.id == OfCampaign(contract.campaign, ScopePart)
    requires forall f | f in log :: !(f.runId == contract.campaign && f.fact.ScopeBound?)
    ensures forall f | f in log :: f.id != e.id
  {
    hide ProgressOf, ProgressOk, CountsMatch, AllSettled, IsCompleted;
  }

  lemma ObservedIsReported(contract: CampaignContract, p: Progress, completed: set<nat>)
    ensures Decide(contract, p, completed).ObserveTrial? ==> Decide(contract, p, completed).trial in completed
  {}

  lemma TrialFactIsCampaignFact(contract: CampaignContract, log: Log, completed: set<nat>, f: Fact)
    requires Follows(contract, ProgressOf(log, contract.campaign), completed, f)
    ensures IsCampaignFact(f) && IsTrialFact(f)
  {
    hide ProgressOf, Decide;
  }

  lemma MovedByFact(contract: CampaignContract, log: Log, completed: set<nat>, e: Event)
    requires Follows(contract, ProgressOf(log, contract.campaign), completed, e.fact)
    requires e.runId == contract.campaign && IsTrialFact(e.fact)
    ensures MovedBy(contract, log, log + [e], completed, e.fact)
  {
    hide ProgressOf, TrialTotal, Follows, Advance, IsTrialFact;
    ProgressAppend(log, e, contract.campaign);
    CountsAppend(log, e, contract.campaign);
  }
}
