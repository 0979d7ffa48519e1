/** One campaign's trials: what its log says of them, and the next step that may follow. */
module CampaignFacts {
  import opened Contracts
  import opened Events

  /** Trial indices run from one to the number of child pairs. */
  datatype CampaignContract = CampaignContract(campaign: RunId, evals: seq<RunId>, maxParallel: nat)

  const MAX_PAIR_CREATION_ATTEMPTS := 3

  function UpTo(n: nat): (indices: set<nat>)
    ensures forall t :: t in indices <==> 1 <= t <= n
    ensures |indices| == n
  {
    if n == 0 then {} else UpTo(n - 1) + {n}
  }

  function Trials(contract: CampaignContract): (trials: set<nat>)
    ensures forall t :: t in trials <==> 1 <= t <= |contract.evals|
    ensures |trials| == |contract.evals|
  {
    UpTo(|contract.evals|)
  }

  function EvalOf(contract: CampaignContract, trial: nat): RunId
    requires trial in Trials(contract)
  {
    contract.evals[trial - 1]
  }

  /** Everything that is only written while holding the advance key. */
  datatype Progress = Progress(
    started: set<nat>,
    linked: set<nat>,
    released: set<nat>,
    observed: set<nat>,
    failed: set<nat>,
    retries: multiset<nat>,
    cancelled: bool)

  const NO_PROGRESS := Progress({}, {}, {}, {}, {}, multiset{}, false)

  predicate IsTrialFact(f: Fact) {
    f.TrialStarted? || f.TrialLinked? || f.TrialReleased? || f.TrialObserved? || f.TrialCreationFailed?
    || f.TrialCreationRetryable?
  }

  predicate IsCampaignFact(f: Fact) {
    IsTrialFact(f) || f.CampaignCompleted? || f.CampaignCancelled? || f.ScopeBound?
  }

  /** The deterministic part of the id of each campaign event. */
  function PartOf(f: Fact): CampaignPart
    requires IsCampaignFact(f)
  {
    match f
    case TrialStarted(t) => StartedPart(t)
    case TrialLinked(t, _) => LinkedPart(t)
    case TrialReleased(t) => ReleasedPart(t)
    case TrialObserved(t, _) => ObservedPart(t)
    case TrialCreationFailed(t) => FailedPart(t)
    case TrialCreationRetryable(t, attempt) => RetryPart(t, attempt)
    case CampaignCompleted(_) => CompletedPart
    case CampaignCancelled(_) => CancelledPart
    case ScopeBound(_) => ScopePart
  }

  function Advance(p: Progress, f: Fact): Progress {
    match f
    case TrialStarted(t) => p.(started := p.started + {t})
    case TrialLinked(t, _) => p.(linked := p.linked + {t})
    case TrialReleased(t) => p.(released := p.released + {t})
    case TrialObserved(t, _) => p.(observed := p.observed + {t})
    case TrialCreationFailed(t) => p.(failed := p.failed + {t})
    case TrialCreationRetryable(t, _) => p.(retries := p.retries + multiset{t})
    case CampaignCancelled(_) => p.(cancelled := true)
    case _ => p
  }

  function ProgressOf(log: Log, c: RunId): Progress {
    if log == [] then NO_PROGRESS
    else
      var p := ProgressOf(log[..|log| - 1], c);
      if log[|log| - 1].runId == c then Advance(p, log[|log| - 1].fact) else p
  }

  predicate IsCompleted(log: Log, c: RunId) {
    exists e | e in log :: e.runId == c && e.fact.CampaignCompleted?
  }

  lemma ProgressAppend(log: Log, e: Event, c: RunId)
    ensures ProgressOf(log + [e], c) == if e.runId == c then Advance(ProgressOf(log, c), e.fact) else ProgressOf(log, c)
    ensures IsCompleted(log + [e], c) <==> IsCompleted(log, c) || (e.runId == c && e.fact.CampaignCompleted?)
  {
    assert (log + [e])[..|log|] == log;
    assert forall f | f in log :: f in log + [e];
    assert e in log + [e];
  }

  // ---- the next step ----

  datatype Step = ReleaseTrial(trial: nat) | ObserveTrial(trial: nat) | CreatePair(trial: nat) | StartTrial(trial: nat) | NothingToDo

  /** The first trial of the contract, from an index on, that is in the set. */
  function FirstIn(candidates: set<nat>, from: nat, planned: nat): (first: Option<nat>)
    requires from >= 1
    ensures first.None? <==> forall t | from <= t <= planned :: t !in candidates
    ensures first.Some? ==>
      from <= first.value <= planned && first.value in candidates && forall t | from <= t < first.value :: t !in candidates
    decreases planned + 1 - from
  {
    if from > planned then None
    else if from in candidates then Some(from)
    else FirstIn(candidates, from + 1, planned)
  }

  /** Release before observing, observe before creating, create before starting; `completed` trials have a finished pair. */
  function Decide(contract: CampaignContract, p: Progress, completed: set<nat>): Step {
    var n := |contract.evals|;
    match FirstIn(p.linked - p.released, 1, n)
    case Some(t) => ReleaseTrial(t)
    case None =>
      match FirstIn((p.linked - p.observed) * completed, 1, n)
      case Some(t) => ObserveTrial(t)
      case None =>
        match FirstIn(p.started - p.linked - p.failed, 1, n)
        case Some(t) => CreatePair(t)
        case None =>
          if |(p.started + p.linked) - p.observed - p.failed| >= contract.maxParallel then NothingToDo
          else
            match FirstIn(Trials(contract) - p.started - p.linked - p.failed, 1, n)
            case Some(t) => StartTrial(t)
            case None => NothingToDo
  }

  /** The facts a step may end in; a failed creation is retryable, exhausted or final. */
  predicate EndsIn(p: Progress, step: Step, f: Fact) {
    match step
    case ReleaseTrial(t) => f == TrialReleased(t)
    case ObserveTrial(t) => f.TrialObserved? && f.trial == t
    case CreatePair(t) =>
      || (f.TrialLinked? && f.trial == t)
      || f == TrialCreationFailed(t)
      || (f == TrialCreationRetryable(t, p.retries[t] + 1) && p.retries[t] + 1 < MAX_PAIR_CREATION_ATTEMPTS)
    case StartTrial(t) => f == TrialStarted(t)
    case NothingToDo => false
  }

  predicate Follows(contract: CampaignContract, p: Progress, completed: set<nat>, f: Fact) {
    EndsIn(p, Decide(contract, p, completed), f)
  }

  // ---- what every campaign log keeps ----

  /** Trials move from started to linked to released to observed; failing excludes being linked. */
  ghost predicate TrialsInOrder(contract: CampaignContract, p: Progress) {
    && p.started <= Trials(contract)
    && p.linked <= p.started && p.released <= p.linked && p.observed <= p.released
    && p.failed <= p.started && p.failed !! p.linked
  }

  ghost predicate RetriesBounded(p: Progress) {
    && (forall t | t in p.retries :: t in p.started)
    && (forall t :: p.retries[t] < MAX_PAIR_CREATION_ATTEMPTS)
  }

  function Unlinked(p: Progress): set<nat> {
    p.started - p.linked - p.failed
  }

  function Unsettled(p: Progress): set<nat> {
    p.started - p.observed - p.failed
  }

  ghost predicate ProgressOk(contract: CampaignContract, p: Progress) {
    && TrialsInOrder(contract, p)
    && RetriesBounded(p)
    && |Unlinked(p)| <= 1
    && |Unsettled(p)| <= contract.maxParallel
  }

  predicate AllSettled(contract: CampaignContract, p: Progress) {
    Trials(contract) <= p.observed + p.failed
  }

  /** What the policy has established about the trial it picks, on a well-formed campaign. */
  ghost predicate Picked(contract: CampaignContract, p: Progress, completed: set<nat>, step: Step) {
    match step
    case ReleaseTrial(t) => t in p.linked && t !in p.released
    case ObserveTrial(t) => t in p.released && t !in p.observed && t in completed
    case CreatePair(t) => t in p.started && t !in p.linked && t !in p.failed
    case StartTrial(t) =>
      t in Trials(contract) && t !in p.started && Unlinked(p) == {} && |Unsettled(p)| < contract.maxParallel
    case NothingToDo => true
  }

  lemma DecisionIsPicked(contract: CampaignContract, p: Progress, completed: set<nat>)
    requires ProgressOk(contract, p)
    ensures Picked(contract, p, completed, Decide(contract, p, completed))
  {
    hide FirstIn, Trials;
    assert p.started + p.linked == p.started;
    assert forall t | t in p.started :: 1 <= t <= |contract.evals|;
    if FirstIn(p.linked - p.released, 1, |contract.evals|).None? {
      assert p.linked - p.released == {};
    }
    if FirstIn(p.started - p.linked - p.failed, 1, |contract.evals|).None? {
      assert p.started - p.linked - p.failed == {};
    }
  }

  /** The effect of each kind of trial fact. */
  lemma AdvanceByKind(p: Progress, f: Fact)
    ensures f.TrialStarted? ==> Advance(p, f) == p.(started := p.started + {f.trial})
    ensures f.TrialLinked? ==> Advance(p, f) == p.(linked := p.linked + {f.trial})
    ensures f.TrialReleased? ==> Advance(p, f) == p.(released := p.released + {f.trial})
    ensures f.TrialObserved? ==> Advance(p, f) == p.(observed := p.observed + {f.trial})
    ensures f.TrialCreationFailed? ==> Advance(p, f) == p.(failed := p.failed + {f.trial})
    ensures f.TrialCreationRetryable? ==> Advance(p, f) == p.(retries := p.retries + multiset{f.trial})
  {}

  /** Appending a new trial's start is the only step that opens a trial; every other settles or moves one. */
  lemma FollowingKeepsProgress(contract: CampaignContract, p: Progress, completed: set<nat>, f: Fact)
    requires ProgressOk(contract, p) && Follows(contract, p, completed, f)
    ensures ProgressOk(contract, Advance(p, f))
  {
    hide Decide, ProgressOk, Advance, Trials;
    DecisionIsPicked(contract, p, completed);
    AdvanceByKind(p, f);
    if f.TrialReleased? {
      ReleasingKeepsProgress(contract, p, f.trial);
    } else if f.TrialObserved? {
      ObservingKeepsProgress(contract, p, f.trial);
    } else if f.TrialLinked? {
      LinkingKeepsProgress(contract, p, f.trial);
    } else if f.TrialCreationFailed? {
      FailingKeepsProgress(contract, p, f.trial);
    } else if f.TrialCreationRetryable? {
      RetryingKeepsProgress(contract, p, f.trial);
    } else {
      StartingKeepsProgress(contract, p, f.trial);
    }
  }

  lemma SubsetIsNotLarger(a: set<nat>, b: set<nat>)
    requires a <= b
    ensures |a| <= |b|
  {
    if a != b {
      assert b == a + (b - a);
    }
  }

  lemma ReleasingKeepsProgress(contract: CampaignContract, p: Progress, t: nat)
    requires ProgressOk(contract, p) && t in p.linked
    ensures ProgressOk(contract, p.(released := p.released + {t}))
  {
    hide Trials;
  }

  lemma ObservingKeepsProgress(contract: CampaignContract, p: Progress, t: nat)
    requires ProgressOk(contract, p) && t in p.released
    ensures ProgressOk(contract, p.(observed := p.observed + {t}))
  {
    hide Trials;
    SubsetIsNotLarger(Unsettled(p.(observed := p.observed + {t})), Unsettled(p));
  }

  lemma LinkingKeepsProgress(contract: CampaignContract, p: Progress, t: nat)
    requires ProgressOk(contract, p) && t in p.started && t !in p.failed
    ensures ProgressOk(contract, p.(linked := p.linked + {t}))
  {
    hide Trials;
    SubsetIsNotLarger(Unlinked(p.(linked := p.linked + {t})), Unlinked(p));
  }

  lemma FailingKeepsProgress(contract: CampaignContract, p: Progress, t: nat)
    requires ProgressOk(contract, p) && t in p.started && t !in p.linked
    ensures ProgressOk(contract, p.(failed := p.failed + {t}))
  {
    hide Trials;
    var q := p.(failed := p.failed + {t});
    SubsetIsNotLarger(Unlinked(q), Unlinked(p));
    SubsetIsNotLarger(Unsettled(q), Unsettled(p));
  }

  lemma RetryingKeepsProgress(contract: CampaignContract, p: Progress, t: nat)
    requires ProgressOk(contract, p) && t in p.started && p.retries[t] + 1 < MAX_PAIR_CREATION_ATTEMPTS
    ensures ProgressOk(contract, p.(retries := p.retries + multiset{t}))
  {
    hide Trials;
  }

  lemma StartingKeepsProgress(contract: CampaignContract, p: Progress, t: nat)
    requires ProgressOk(contract, p) && t in Trials(contract) && t !in p.started
    requires Unlinked(p) == {} && |Unsettled(p)| < contract.maxParallel
    ensures ProgressOk(contract, p.(started := p.started + {t}))
  {
    hide Trials, RetriesBounded;
    var q := p.(started := p.started + {t});
    assert Unlinked(q) == {t};
    assert Unsettled(q) == Unsettled(p) + {t};
    StartingKeepsRetries(p, t);
  }

  lemma StartingKeepsRetries(p: Progress, t: nat)
    requires RetriesBounded(p)
    ensures RetriesBounded(p.(started := p.started + {t}))
  {}

  /** Once every trial is observed or failed no trial fact can follow. */
  lemma SettledIsQuiet(contract: CampaignContract, p: Progress, completed: set<nat>, f: Fact)
    requires ProgressOk(contract, p) && AllSettled(contract, p)
    ensures !Follows(contract, p, completed, f)
  {
    hide Decide, Trials;
    DecisionIsPicked(contract, p, completed);
  }

  /** Counting settled trials is enough, because no trial is both observed and failed. */
  lemma CountedIsSettled(contract: CampaignContract, p: Progress)
    requires ProgressOk(contract, p)
    ensures |p.observed| + |p.failed| == |contract.evals| <==> AllSettled(contract, p)
    ensures p.observed !! p.failed
  {
    assert p.observed !! p.failed;
    assert |p.observed + p.failed| == |p.observed| + |p.failed|;
    if |p.observed| + |p.failed| == |contract.evals| {
      SameSizeSubset(p.observed + p.failed, Trials(contract));
    }
    if AllSettled(contract, p) {
      assert p.observed + p.failed == Trials(contract);
    }
  }

  lemma SameSizeSubset(a: set<nat>, b: set<nat>)
    requires a <= b && |a| == |b|
    ensures a == b
  {
    assert b == a + (b - a);
  }

  // ---- how much can happen ----

  function Has(s: set<nat>, t: nat): nat {
    if t in s then 1 else 0
  }

  function TrialWork(p: Progress, t: nat): nat {
    Has(p.started, t) + Has(p.linked, t) + Has(p.released, t) + Has(p.observed, t) + Has(p.failed, t) + p.retries[t]
  }

  lemma TrialWorkIsBounded(contract: CampaignContract, p: Progress, t: nat)
    requires ProgressOk(contract, p)
    ensures TrialWork(p, t) <= 6
    ensures t !in Trials(contract) ==> TrialWork(p, t) == 0
  {
    hide Trials;
  }

  /** The fact is not yet in the tables. */
  predicate IsNews(p: Progress, f: Fact) {
    && IsTrialFact(f)
    && (f.TrialStarted? ==> f.trial !in p.started)
    && (f.TrialLinked? ==> f.trial !in p.linked)
    && (f.TrialReleased? ==> f.trial !in p.released)
    && (f.TrialObserved? ==> f.trial !in p.observed)
    && (f.TrialCreationFailed? ==> f.trial !in p.failed)
    && (f.TrialCreationRetryable? ==> f.creationAttempt == p.retries[f.trial] + 1)
  }

  lemma EndingIsNews(contract: CampaignContract, p: Progress, completed: set<nat>, step: Step, f: Fact)
    requires TrialsInOrder(contract, p) && Picked(contract, p, completed, step) && EndsIn(p, step, f)
    ensures IsNews(p, f) && f.trial in Trials(contract)
  {
    hide Trials, Unlinked, Unsettled;
    match step
    case ReleaseTrial(t) =>
    case ObserveTrial(t) =>
    case CreatePair(t) =>
    case StartTrial(t) =>
  }

  lemma FollowingIsNews(contract: CampaignContract, p: Progress, completed: set<nat>, f: Fact)
    requires ProgressOk(contract, p) && Follows(contract, p, completed, f)
    ensures IsNews(p, f) && f.trial in Trials(contract)
  {
    hide Decide, Trials, TrialsInOrder, RetriesBounded, Picked, EndsIn, IsNews;
    DecisionIsPicked(contract, p, completed);
    EndingIsNews(contract, p, completed, Decide(contract, p, completed), f);
  }

  /** News adds one to its own trial's work and nothing to any other's. */
  lemma NewsAddsWork(p: Progress, f: Fact, t: nat)
    requires IsNews(p, f)
    ensures TrialWork(Advance(p, f), t) == TrialWork(p, t) + (if f.trial == t then 1 else 0)
  {
    hide Advance;
    AdvanceByKind(p, f);
  }

  /** How many facts about one trial the log holds. */
  function TrialCount(log: Log, c: RunId, t: nat): nat {
    if log == [] then 0
    else
      TrialCount(log[..|log| - 1], c, t)
      + (if log[|log| - 1].runId == c && IsTrialFact(log[|log| - 1].fact) && log[|log| - 1].fact.trial == t then 1 else 0)
  }

  function TrialTotal(log: Log, c: RunId): nat {
    if log == [] then 0
    else
      TrialTotal(log[..|log| - 1], c)
      + (if log[|log| - 1].runId == c && IsTrialFact(log[|log| - 1].fact) then 1 else 0)
  }

  lemma CountsAppend(log: Log, e: Event, c: RunId)
    ensures TrialTotal(log + [e], c) == TrialTotal(log, c) + (if e.runId == c && IsTrialFact(e.fact) then 1 else 0)
    ensures forall t ::
      TrialCount(log + [e], c, t) == TrialCount(log, c, t) + (if e.runId == c && IsTrialFact(e.fact) && e.fact.trial == t then 1 else 0)
  {
    assert (log + [e])[..|log|] == log;
  }

  /** The counts agree with the tables, trial by trial. */
  ghost predicate CountsMatch(log: Log, c: RunId) {
    forall t :: TrialCount(log, c, t) == TrialWork(ProgressOf(log, c), t)
  }

  function SumUpTo(log: Log, c: RunId, n: nat): nat {
    if n == 0 then 0 else SumUpTo(log, c, n - 1) + TrialCount(log, c, n)
  }

  lemma {:induction false} SumAppend(log: Log, e: Event, c: RunId, n: nat)
    ensures SumUpTo(log + [e], c, n)
      == SumUpTo(log, c, n) + (if e.runId == c && IsTrialFact(e.fact) && 1 <= e.fact.trial <= n then 1 else 0)
  {
    hide IsTrialFact, TrialCount;
    CountsAppend(log, e, c);
    if n > 0 {
      SumAppend(log, e, c, n - 1);
    }
  }

  lemma {:induction false} TotalIsSum(log: Log, c: RunId, n: nat)
    requires forall e | e in log && e.runId == c && IsTrialFact(e.fact) :: 1 <= e.fact.trial <= n
    ensures TrialTotal(log, c) == SumUpTo(log, c, n)
  {
    hide IsTrialFact;
    if log == [] {
      NothingToSum(c, n);
    } else {
      var last := |log| - 1;
      assert log == log[..last] + [log[last]];
      assert forall e | e in log[..last] :: e in log;
      TotalIsSum(log[..last], c, n);
      SumAppend(log[..last], log[last], c, n);
      assert log[last] in log;
    }
  }

  lemma {:induction false} NothingToSum(c: RunId, n: nat)
    ensures SumUpTo([], c, n) == 0
  {
    if n > 0 {
      NothingToSum(c, n - 1);
    }
  }

  lemma {:induction false} SumIsBounded(contract: CampaignContract, log: Log, n: nat)
    requires CountsMatch(log, contract.campaign) && ProgressOk(contract, ProgressOf(log, contract.campaign))
    ensures SumUpTo(log, contract.campaign, n) <= 6 * n
  {
    hide ProgressOk, TrialWork;
    if n > 0 {
      SumIsBounded(contract, log, n - 1);
      TrialWorkIsBounded(contract, ProgressOf(log, contract.campaign), n);
    }
  }

  // ---- the scan as it runs ----

  method FirstTrial(candidates: set<nat>, planned: nat) returns (first: Option<nat>)
    ensures first == FirstIn(candidates, 1, planned)
  {
    var t := 1;
    while t <= planned
      invariant 1 <= t <= planned + 1
      invariant FirstIn(candidates, 1, planned) == FirstIn(candidates, t, planned)
    {
      if t in candidates {
        return Some(t);
      }
      t := t + 1;
    }
    return None;
  }

  /** Collects the trial tables in one pass over the campaign's events. */
  method ReadProgress(log: Log, c: RunId) returns (p: Progress)
    ensures p == ProgressOf(log, c)
  {
    p := NO_PROGRESS;
    for i := 0 to |log|
      invariant p == ProgressOf(log[..i], c)
    {
      assert log[..i + 1][..i] == log[..i];
      if log[i].runId == c {
        match log[i].fact
        case TrialStarted(t) => p := p.(started := p.started + {t});
        case TrialLinked(t, _) => p := p.(linked := p.linked + {t});
        case TrialReleased(t) => p := p.(released := p.released + {t});
        case TrialObserved(t, _) => p := p.(observed := p.observed + {t});
        case TrialCreationFailed(t) => p := p.(failed := p.failed + {t});
        case TrialCreationRetryable(t, _) => p := p.(retries := p.retries + multiset{t});
        case CampaignCancelled(_) => p := p.(cancelled := true);
        case _ =>
      }
    }
    assert log[..|log|] == log;
  }

  method ChooseStep(contract: CampaignContract, log: Log, completed: set<nat>) returns (step: Step)
    ensures step == Decide(contract, ProgressOf(log, contract.campaign), completed)
  {
    var p := ReadProgress(log, contract.campaign);
    var n := |contract.evals|;
    var unreleased := FirstTrial(p.linked - p.released, n);
    if unreleased.Some? {
      return ReleaseTrial(unreleased.value);
    }
    var observable := FirstTrial((p.linked - p.observed) * completed, n);
    if observable.Some? {
      return ObserveTrial(observable.value);
    }
    var unlinked := FirstTrial(p.started - p.linked - p.failed, n);
    if unlinked.Some? {
      return CreatePair(unlinked.value);
    }
    if |(p.started + p.linked) - p.observed - p.failed| >= contract.maxParallel {
      return NothingToDo;
    }
    var next := FirstTrial(Trials(contract) - p.started - p.linked - p.failed, n);
    return if next.Some? then StartTrial(next.value) else NothingToDo;
  }
}
