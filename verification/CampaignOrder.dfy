/** Across the campaign and its child pairs, durable facts come in one order in every history. */
module CampaignOrder {
  import opened Contracts
  import opened Events
  import opened Projection
  import opened Claims
  import opened Tables
  import opened StoreRuns
  import opened CampaignFacts
  import opened CampaignRuns
  import opened CampaignSafety
  import opened CampaignTheorems

  // ---- what precedes each fact ----

  /** The facts that have to be durable before a campaign or pair event can be. */
  ghost predicate IsGrounded(contract: CampaignContract, before: Log, e: Event) {
    && (e.runId == contract.campaign && IsCampaignFact(e.fact) ==> CalloutsHold(contract, before, e.fact))
    && (e.runId == contract.campaign && e.fact.TrialObserved? ==>
          TrialIsReleased(before, contract.campaign, e.fact.trial))
    && (e.runId == contract.campaign && e.fact.TrialReleased? ==>
          TrialIsLinked(before, contract.campaign, e.fact.trial))
    && (e.fact.ArmReleased? ==> ReleaseIsAllowed(contract, before, e.runId))
    && (IsPairFact(e.fact) <==> e.id.OfPair?)
    && (IsPairFact(e.fact) ==> e.id == OfPair(e.runId, PairPartOf(e.fact)))
  }

  predicate TrialIsReleased(log: Log, c: RunId, trial: nat) {
    exists e | e in log :: e.runId == c && e.fact == TrialReleased(trial)
  }

  ghost predicate OrderHolds(contract: CampaignContract, log: Log) {
    forall i | 0 <= i < |log| :: IsGrounded(contract, log[..i], log[i])
  }

  /** A fact that is ready to commit keeps the support its callouts found. */
  ghost predicate ReadyIsSupported(contract: CampaignContract, w: World) {
    forall pid | pid in w.procs && w.procs[pid].phase.Ready? :: CalloutsHold(contract, w.store.log, w.procs[pid].phase.fact)
  }

  ghost predicate OrderedWorld(contract: CampaignContract, w: World) {
    WorldOk(contract, w) && OrderHolds(contract, w.store.log) && ReadyIsSupported(contract, w)
  }

  lemma CalloutsStay(contract: CampaignContract, log: Log, longer: Log, f: Fact)
    requires CalloutsHold(contract, log, f) && log <= longer
    ensures CalloutsHold(contract, longer, f)
  {
    forall e | e in log
      ensures e in longer
    {
      var i :| 0 <= i < |log| && log[i] == e;
      assert longer[i] == e;
    }
  }

  lemma OrderExtends(contract: CampaignContract, log: Log, e: Event)
    requires OrderHolds(contract, log) && IsGrounded(contract, log, e)
    ensures OrderHolds(contract, log + [e])
  {
    hide IsGrounded;
    var after := log + [e];
    forall i | 0 <= i < |after|
      ensures IsGrounded(contract, after[..i], after[i])
    {
      assert i < |log| ==> after[..i] == log[..i];
      assert i == |log| ==> after[..i] == log;
    }
  }

  // ---- appends outside the fence ----

  /** An event that is not of this campaign and not about pairs, or the scope, needs no support. */
  lemma UnrelatedIsGrounded(contract: CampaignContract, before: Log, e: Event)
    requires IsForeign(contract.campaign, e) || (e.runId == contract.campaign && e.fact.ScopeBound? && !e.id.OfPair?)
    ensures IsGrounded(contract, before, e)
  {
    hide ReleaseIsAllowed, TrialIsReleased, TrialIsLinked, PairHas;
  }

  lemma PairEventIsGrounded(contract: CampaignContract, before: Log, e: Event)
    requires PairMayAppend(contract, before, e)
    ensures IsGrounded(contract, before, e)
  {
    hide ReleaseIsAllowed, TrialIsReleased, TrialIsLinked, PairHas;
  }

  lemma AppendingKeepsOrder(contract: CampaignContract, s: Store, e: Event)
    requires OrderHolds(contract, s.log) && IsGrounded(contract, s.log, e)
    ensures OrderHolds(contract, Appending(s, e).log)
  {
    hide OrderHolds, IsGrounded, Project, AppendOutcome;
    OrderExtends(contract, s.log, e);
  }

  lemma {:induction false} AppendingAllKeepsOrder(contract: CampaignContract, s: Store, events: seq<Event>)
    requires OrderHolds(contract, s.log) && forall e | e in events :: IsForeign(contract.campaign, e)
    ensures OrderHolds(contract, AppendingAll(s, events).log)
  {
    hide OrderHolds, IsForeign, Appending;
    if events != [] {
      var last := |events| - 1;
      assert forall e | e in events[..last] :: e in events;
      AppendingAllKeepsOrder(contract, s, events[..last]);
      UnrelatedIsGrounded(contract, AppendingAll(s, events[..last]).log, events[last]);
      AppendingKeepsOrder(contract, AppendingAll(s, events[..last]), events[last]);
    }
  }

  lemma ElsewhereKeepsOrder(contract: CampaignContract, s: Store, t: Transaction)
    requires OrderHolds(contract, s.log) && IsForeignTransaction(contract.campaign, t)
    ensures OrderHolds(contract, Apply(s, t).log)
  {
    hide OrderHolds, IsForeign, IsGrounded, Appending, AppendingAll, AreCurrent, RunIsWithdrawn, AppendOutcome, AllAppend, CanClaim,
      DispatchMayWrite, AckIsUnfenced, Fold;
    match t
    case DoAppend(e, _, _, _) =>
      UnrelatedIsGrounded(contract, s.log, e);
      AppendingKeepsOrder(contract, s, e);
    case DoFinish(_, _, _, _, final, _) =>
      if final.Some? {
        UnrelatedIsGrounded(contract, s.log, final.value);
        AppendingKeepsOrder(contract, s, final.value);
      }
    case DoCommit(_, _, _, events, _, _, _) => AppendingAllKeepsOrder(contract, s, events);
    case _ =>
  }

  lemma AppendKeepsOrder(contract: CampaignContract, s: Store, e: Event, now: int)
    requires OrderHolds(contract, s.log) && IsGrounded(contract, s.log, e)
    ensures OrderHolds(contract, Append(s, e, None, now, now).log)
  {
    hide OrderHolds, IsGrounded, AppendResultOf, Appending;
    AppendingKeepsOrder(contract, s, e);
  }

  lemma ScopeIsGrounded(contract: CampaignContract, before: Log, fingerprint: nat, task: TaskId, at: int)
    ensures IsGrounded(contract, before, CampaignEvent(contract.campaign, ScopeBound(fingerprint), task, None, at))
  {
    hide IsGrounded;
    UnrelatedIsGrounded(contract, before, CampaignEvent(contract.campaign, ScopeBound(fingerprint), task, None, at));
  }

  // ---- commits ----

  /** The tables name only facts the log holds. */
  lemma {:induction false} TabledIsLogged(log: Log, c: RunId, t: nat)
    ensures t in ProgressOf(log, c).linked ==> TrialIsLinked(log, c, t)
    ensures t in ProgressOf(log, c).released ==> TrialIsReleased(log, c, t)
  {
    if log != [] {
      var last := |log| - 1;
      TabledIsLogged(log[..last], c, t);
      assert log == log[..last] + [log[last]];
      LoggedStays(log[..last], log[last], c, t);
      OnlyItsFactTables(ProgressOf(log[..last], c), log[last].fact, t);
    }
  }

  lemma LoggedStays(log: Log, e: Event, c: RunId, t: nat)
    ensures TrialIsLinked(log, c, t) || (e.runId == c && e.fact.TrialLinked? && e.fact.trial == t) ==> TrialIsLinked(log + [e], c, t)
    ensures TrialIsReleased(log, c, t) || (e.runId == c && e.fact == TrialReleased(t)) ==> TrialIsReleased(log + [e], c, t)
  {
    assert forall f | f in log :: f in log + [e];
    assert e in log + [e];
  }

  lemma OnlyItsFactTables(p: Progress, f: Fact, t: nat)
    ensures t in Advance(p, f).linked ==> t in p.linked || (f.TrialLinked? && f.trial == t)
    ensures t in Advance(p, f).released ==> t in p.released || f == TrialReleased(t)
  {}

  lemma DecidedIsGrounded(contract: CampaignContract, log: Log, completed: set<nat>, e: Event)
    requires LogOk(contract, log) && Follows(contract, ProgressOf(log, contract.campaign), completed, e.fact)
    requires CalloutsHold(contract, log, e.fact) && IsTrialFact(e.fact) && e.id.OfCampaign?
    ensures IsGrounded(contract, log, e)
  {
    hide ProgressOf, IdsMatch, CountsMatch, AllSettled, CalloutsHold, ReleaseIsAllowed, TrialIsReleased, TrialIsLinked, PairHas, Decide, Trials;
    var p := ProgressOf(log, contract.campaign);
    DecisionIsPicked(contract, p, completed);
    TabledIsLogged(log, contract.campaign, e.fact.trial);
  }

  lemma EndingIsGrounded(contract: CampaignContract, log: Log, e: Event)
    requires (e.fact.CampaignCompleted? || e.fact.CampaignCancelled?) && e.id.OfCampaign?
    ensures IsGrounded(contract, log, e)
  {}

  lemma CommitKeepsOrder(contract: CampaignContract, w: World, step: CampaignStep)
    requires OrderedWorld(contract, w) && MayStep(contract, w, step) && IsCommit(contract, w, step)
    ensures OrderHolds(contract, Next(contract, w, step).store.log)
  {
    hide OrderHolds, LogOk, ProcOk, TokensDiffer, Consistent, Next, IsEnded, ProgressOf, CommitResultOn, TrialTotal, MayEnd, CalloutsHold,
      Follows, IsGrounded, IsTrialFact, AllSettled, PartOf;
    var proc := w.procs[step.pid];
    var e := FinalEvent(contract, w, step);
    CommittedStore(contract, w, step);
    FreshMayEnd(contract, w.store, proc);
    if proc.role.Advancer? {
      DecidedIsGrounded(contract, w.store.log, proc.phase.completed, e);
    } else {
      EndingIsGrounded(contract, w.store.log, e);
    }
    OrderExtends(contract, w.store.log, e);
  }

  lemma QuietStepKeepsOrder(contract: CampaignContract, w: World, step: CampaignStep)
    requires OrderHolds(contract, w.store.log) && MayStep(contract, w, step) && !IsCommit(contract, w, step)
    ensures OrderHolds(contract, Next(contract, w, step).store.log)
  {
    hide OrderHolds, IsGrounded, FinishClaims, FinishResultOf, Append, ClaimWork, CanClaim, MayEnd, CalloutsHold, PairMayAppend,
      IsForeignTransaction, Apply;
    match step
    case Claim(pid, ttl, now) => ClaimKeepsLog(w.store, KeysOf(w.procs[pid].role, contract.campaign), w.procs[pid].owner, ttl, now);
    case BindScope(_, fingerprint, task, at, now) =>
      ScopeIsGrounded(contract, w.store.log, fingerprint, task, at);
      AppendKeepsOrder(contract, w.store, CampaignEvent(contract.campaign, ScopeBound(fingerprint), task, None, at), now);
    case Commit(pid, state, _, _, _, now) =>
      FailedFinishChangesNothing(w.store, w.procs[pid].phase.tokens, w.procs[pid].owner, state, now, Some(FinalEvent(contract, w, step)));
    case Abandon(pid, now) =>
      FailedFinishChangesNothing(w.store, w.procs[pid].phase.tokens, w.procs[pid].owner, ClaimReleased, now, None);
    case PairStep(e, now) =>
      PairEventIsGrounded(contract, w.store.log, e);
      AppendKeepsOrder(contract, w.store, e, now);
    case Elsewhere(t) => ElsewhereKeepsOrder(contract, w.store, t);
    case _ =>
  }

  lemma ClaimKeepsLog(s: Store, keys: set<ClaimKey>, owner: OwnerId, ttl: nat, now: int)
    ensures ClaimWork(s, keys, owner, ttl, now, None).log == s.log
  {
    hide CanClaim;
  }

  lemma StepKeepsSupport(contract: CampaignContract, w: World, step: CampaignStep)
    requires ReadyIsSupported(contract, w) && Consistent(w.store) && MayStep(contract, w, step)
    ensures ReadyIsSupported(contract, Next(contract, w, step))
  {
    hide FinishClaims, FinishResultOf, Append, ClaimWork, CanClaim, MayEnd, CalloutsHold, PairMayAppend, IsForeignTransaction, Apply,
      Consistent;
    var next := Next(contract, w, step);
    StepIsConsistent(contract, w, step);
    forall pid | pid in next.procs && next.procs[pid].phase.Ready?
      ensures CalloutsHold(contract, next.store.log, next.procs[pid].phase.fact)
    {
      CalloutsStay(contract, w.store.log, next.store.log, next.procs[pid].phase.fact);
    }
  }

  lemma StepKeepsOrderedWorld(contract: CampaignContract, w: World, step: CampaignStep)
    requires OrderedWorld(contract, w) && MayStep(contract, w, step)
    ensures OrderedWorld(contract, Next(contract, w, step))
  {
    hide WorldOk, OrderHolds, ReadyIsSupported, MayStep, Next, IsCommit;
    StepKeepsWorld(contract, w, step);
    WorldIsConsistent(contract, w);
    StepKeepsSupport(contract, w, step);
    if IsCommit(contract, w, step) {
      CommitKeepsOrder(contract, w, step);
    } else {
      QuietStepKeepsOrder(contract, w, step);
    }
  }

  lemma {:induction false} RunsKeepOrder(contract: CampaignContract, w: World, steps: seq<CampaignStep>, reached: World)
    requires OrderedWorld(contract, w) && Reaches(contract, w, steps, reached)
    ensures OrderedWorld(contract, reached)
    decreases |steps|
  {
    hide OrderedWorld, MayStep, Next;
    if steps != [] {
      StepKeepsOrderedWorld(contract, w, steps[0]);
      RunsKeepOrder(contract, Next(contract, w, steps[0]), steps[1..], reached);
    }
  }

  lemma EmptyWorldIsOrdered(contract: CampaignContract)
    ensures OrderedWorld(contract, EMPTY_WORLD)
  {
    EmptyWorldOk(contract);
  }

  lemma ReachedIsOrdered(contract: CampaignContract, steps: seq<CampaignStep>, reached: World)
    requires Reaches(contract, EMPTY_WORLD, steps, reached)
    ensures OrderHolds(contract, reached.store.log) && UniqueIds(reached.store.log)
  {
    hide OrderHolds, Reaches, LogOk, ProcOk, TokensDiffer, ReadyIsSupported, Fold, UniqueIds;
    EmptyWorldIsOrdered(contract);
    RunsKeepOrder(contract, EMPTY_WORLD, steps, reached);
  }

  // ---- the order, position by position ----

  lemma PositionOf(log: Log, e: Event) returns (i: nat)
    requires e in log
    ensures i < |log| && log[i] == e
  {
    i :| 0 <= i < |log| && log[i] == e;
  }

  lemma SameIdSamePlace(log: Log, i: nat, j: nat)
    requires UniqueIds(log) && i < |log| && j < |log| && log[i].id == log[j].id
    ensures i == j
  {}

  /** Whatever pair event asks for an arm of a linked trial's pair, the request is the campaign's own. */
  lemma RequestIsUnique(contract: CampaignContract, log: Log, e: Event, f: Event)
    requires OrderHolds(contract, log) && UniqueIds(log) && e in log && f in log && e.runId == f.runId
    requires e.fact.PairRequested? && f.fact.PairRequested?
    ensures e == f
  {
    hide IsGrounded;
    var i := PositionOf(log, e);
    var j := PositionOf(log, f);
    PairIdOf(contract, log, i);
    PairIdOf(contract, log, j);
    SameIdSamePlace(log, i, j);
  }

  lemma PairIdOf(contract: CampaignContract, log: Log, i: nat)
    requires OrderHolds(contract, log) && i < |log| && IsPairFact(log[i].fact)
    ensures log[i].id == OfPair(log[i].runId, PairPartOf(log[i].fact))
  {
    hide CalloutsHold, ReleaseIsAllowed;
    assert IsGrounded(contract, log[..i], log[i]);
  }

  /** An arm of a linked trial's pair is released only after the link. */
  lemma ArmFollowsLink(contract: CampaignContract, log: Log, trial: nat, arm: nat)
    requires OrderHolds(contract, log) && UniqueIds(log) && trial in Trials(contract) && arm < |log|
    requires log[arm].runId == EvalOf(contract, trial) && log[arm].fact.ArmReleased?
    requires PairHas(log, EvalOf(contract, trial), PairRequested(CampaignLinked(contract.campaign, trial)))
    ensures TrialIsLinked(log[..arm], contract.campaign, trial)
  {
    hide OrderHolds, UniqueIds, CalloutsHold, Trials;
    var eval := EvalOf(contract, trial);
    GroundedAt(contract, log, arm);
    var mine :| mine in log && mine.runId == eval && mine.fact == PairRequested(CampaignLinked(contract.campaign, trial));
    var seen :| seen in log[..arm] && seen.runId == eval && seen.fact.PairRequested?
      && (seen.fact.policy.Immediate?
          || (seen.fact.policy.parent == contract.campaign ==>
                TrialIsLinked(log[..arm], contract.campaign, seen.fact.policy.trial)));
    assert seen in log;
    RequestIsUnique(contract, log, mine, seen);
  }

  lemma GroundedAt(contract: CampaignContract, log: Log, i: nat)
    requires OrderHolds(contract, log) && i < |log|
    ensures IsGrounded(contract, log[..i], log[i])
  {
    hide IsGrounded;
  }

  /** A link comes after the pair's commit, and after the scope it names. */
  lemma LinkFollowsCommit(contract: CampaignContract, log: Log, link: nat)
    requires OrderHolds(contract, log) && link < |log|
    requires log[link].runId == contract.campaign && log[link].fact.TrialLinked?
    ensures var trial := log[link].fact.trial;
      && trial in Trials(contract)
      && PairHas(log[..link], EvalOf(contract, trial), PairCommitted)
      && PairHas(log[..link], EvalOf(contract, trial), PairRequested(CampaignLinked(contract.campaign, trial)))
      && PairHas(log[..link], contract.campaign, ScopeBound(log[link].fact.fingerprint))
  {
    hide OrderHolds, Trials, PairHas, ReleaseIsAllowed, TrialIsReleased, TrialIsLinked;
    GroundedAt(contract, log, link);
  }

  lemma PositionOfPairFact(log: Log, eval: RunId, f: Fact) returns (i: nat)
    requires PairHas(log, eval, f)
    ensures i < |log| && log[i].runId == eval && log[i].fact == f
  {
    var e :| e in log && e.runId == eval && e.fact == f;
    i := PositionOf(log, e);
  }

  lemma PositionOfCompletion(log: Log, eval: RunId) returns (i: nat)
    requires PairIsCompleted(log, eval)
    ensures i < |log| && log[i].runId == eval && log[i].fact.PairCompleted?
  {
    var e :| e in log && e.runId == eval && e.fact.PairCompleted?;
    i := PositionOf(log, e);
  }

  lemma PositionOfLink(log: Log, c: RunId, trial: nat) returns (i: nat)
    requires TrialIsLinked(log, c, trial)
    ensures i < |log| && log[i].runId == c && log[i].fact.TrialLinked? && log[i].fact.trial == trial
  {
    var e :| e in log && e.runId == c && e.fact.TrialLinked? && e.fact.trial == trial;
    i := PositionOf(log, e);
  }

  lemma PositionOfRelease(log: Log, c: RunId, trial: nat) returns (i: nat)
    requires TrialIsReleased(log, c, trial)
    ensures i < |log| && log[i].runId == c && log[i].fact == TrialReleased(trial)
  {
    var e :| e in log && e.runId == c && e.fact == TrialReleased(trial);
    i := PositionOf(log, e);
  }

  lemma LaterHasToo(log: Log, i: nat, eval: RunId, f: Fact)
    requires i <= |log| && PairHas(log[..i], eval, f)
    ensures PairHas(log, eval, f)
  {}

  /** A link of a trial is unique. */
  lemma LinkIsUnique(contract: CampaignContract, log: Log, i: nat, j: nat)
    requires IdsMatch(log, contract.campaign) && UniqueIds(log) && i < |log| && j < |log|
    requires log[i].runId == contract.campaign && log[j].runId == contract.campaign
    requires log[i].fact.TrialLinked? && log[j].fact.TrialLinked? && log[i].fact.trial == log[j].fact.trial
    ensures i == j
  {
    hide ProgressOf;
    assert log[i] in log && log[j] in log;
    SameIdSamePlace(log, i, j);
  }

  /**
    For every observed trial: the pair was committed, then the trial linked, then both arms released, then
    the trial released, then observed; and the pair was completed before that.
   */
  lemma DurableOrder(contract: CampaignContract, steps: seq<CampaignStep>, reached: World, observed: nat)
    returns (committed: nat, linked: nat, single: nat, team: nat, released: nat, completed: nat)
    requires Reaches(contract, EMPTY_WORLD, steps, reached) && observed < |reached.store.log|
    requires reached.store.log[observed].runId == contract.campaign && reached.store.log[observed].fact.TrialObserved?
    ensures var log := reached.store.log; var trial := log[observed].fact.trial;
      && trial in Trials(contract)
      && committed < linked < single < released && linked < team < released < observed
      && log[committed].runId == EvalOf(contract, trial) && log[committed].fact == PairCommitted
      && log[linked].runId == contract.campaign && log[linked].fact.TrialLinked? && log[linked].fact.trial == trial
      && log[single].runId == EvalOf(contract, trial) && log[single].fact == ArmReleased(Single)
      && log[team].runId == EvalOf(contract, trial) && log[team].fact == ArmReleased(Team)
      && log[released].runId == contract.campaign && log[released].fact == TrialReleased(trial)
      && completed < observed && log[completed].runId == EvalOf(contract, trial) && log[completed].fact.PairCompleted?
  {
    hide Reaches, OrderHolds, UniqueIds, PairHas, PairIsCompleted, TrialIsLinked, TrialIsReleased, ReleaseIsAllowed, Trials, IdsMatch;
    ReachedIsOrdered(contract, steps, reached);
    var log := reached.store.log;
    var trial := log[observed].fact.trial;
    GroundedAt(contract, log, observed);
    completed := PositionOfCompletion(log[..observed], EvalOf(contract, trial));
    released := PositionOfRelease(log[..observed], contract.campaign, trial);
    GroundedAt(contract, log, released);
    linked := PositionOfLink(log[..released], contract.campaign, trial);
    LinkFollowsCommit(contract, log, linked);
    committed := PositionOfPairFact(log[..linked], EvalOf(contract, trial), PairCommitted);
    single := PositionOfPairFact(log[..released], EvalOf(contract, trial), ArmReleased(Single));
    team := PositionOfPairFact(log[..released], EvalOf(contract, trial), ArmReleased(Team));
    LaterHasToo(log, linked, EvalOf(contract, trial), PairRequested(CampaignLinked(contract.campaign, trial)));
    ReachedIdsMatch(contract, steps, reached);
    ArmIsAfter(contract, log, trial, linked, single);
    ArmIsAfter(contract, log, trial, linked, team);
  }

  lemma ReachedIdsMatch(contract: CampaignContract, steps: seq<CampaignStep>, reached: World)
    requires Reaches(contract, EMPTY_WORLD, steps, reached)
    ensures IdsMatch(reached.store.log, contract.campaign)
  {
    hide Reaches, ProcOk, TokensDiffer, IdsMatch, ProgressOf, Consistent;
    EmptyWorldOk(contract);
    RunsKeepWorld(contract, EMPTY_WORLD, steps, reached);
  }

  lemma ArmIsAfter(contract: CampaignContract, log: Log, trial: nat, linked: nat, arm: nat)
    requires OrderHolds(contract, log) && UniqueIds(log) && IdsMatch(log, contract.campaign)
    requires trial in Trials(contract) && arm < |log| && linked < |log|
    requires log[arm].runId == EvalOf(contract, trial) && log[arm].fact.ArmReleased?
    requires log[linked].runId == contract.campaign && log[linked].fact.TrialLinked? && log[linked].fact.trial == trial
    requires PairHas(log, EvalOf(contract, trial), PairRequested(CampaignLinked(contract.campaign, trial)))
    ensures linked < arm
  {
    hide OrderHolds, UniqueIds, IdsMatch, PairHas, TrialIsLinked, Trials;
    ArmFollowsLink(contract, log, trial, arm);
    var link := PositionOfLink(log[..arm], contract.campaign, trial);
    LinkIsUnique(contract, log, link, linked);
  }

  /** All linked trials were compared on one and the same scope. */
  lemma LinkedTrialsShareTheScope(contract: CampaignContract, steps: seq<CampaignStep>, reached: World, i: nat, j: nat)
    requires Reaches(contract, EMPTY_WORLD, steps, reached) && i < |reached.store.log| && j < |reached.store.log|
    requires reached.store.log[i].runId == contract.campaign && reached.store.log[i].fact.TrialLinked?
    requires reached.store.log[j].runId == contract.campaign && reached.store.log[j].fact.TrialLinked?
    ensures reached.store.log[i].fact.fingerprint == reached.store.log[j].fact.fingerprint
  {
    hide Reaches, OrderHolds, UniqueIds, PairHas, Trials, IdsMatch;
    var log := reached.store.log;
    ReachedIsOrdered(contract, steps, reached);
    ReachedIdsMatch(contract, steps, reached);
    LinkFollowsCommit(contract, log, i);
    LinkFollowsCommit(contract, log, j);
    var a := PositionOfPairFact(log[..i], contract.campaign, ScopeBound(log[i].fact.fingerprint));
    var b := PositionOfPairFact(log[..j], contract.campaign, ScopeBound(log[j].fact.fingerprint));
    ScopeIsUnique(contract, log, a, b);
  }

  lemma ScopeIsUnique(contract: CampaignContract, log: Log, a: nat, b: nat)
    requires IdsMatch(log, contract.campaign) && UniqueIds(log) && a < |log| && b < |log|
    requires log[a].runId == contract.campaign && log[a].fact.ScopeBound?
    requires log[b].runId == contract.campaign && log[b].fact.ScopeBound?
    ensures a == b
  {
    hide ProgressOf;
    assert log[a] in log && log[b] in log;
    SameIdSamePlace(log, a, b);
  }
}
