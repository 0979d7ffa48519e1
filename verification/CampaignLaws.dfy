/** Which boundary a campaign crosses next, told on its tables, and what the tables say of its log. */
module CampaignLaws {
  import opened Contracts
  import opened Events
  import opened CampaignFacts

  /** How creating the pair of a trial comes out. */
  datatype CreationOutcome = Links | FailsForGood | FailsForNow

  /** The first planned trial among the candidates. */
  ghost predicate IsFirst(contract: CampaignContract, t: nat, candidates: set<nat>) {
    && 1 <= t <= |contract.evals| && t in candidates
    && forall other | 1 <= other < t :: other !in candidates
  }

  ghost predicate AnyPlanned(contract: CampaignContract, candidates: set<nat>) {
    exists t :: 1 <= t <= |contract.evals| && t in candidates
  }

  ghost predicate IsFirstUnstarted(contract: CampaignContract, t: nat, p: Progress) {
    && 1 <= t <= |contract.evals| && t !in p.started && t !in p.linked && t !in p.failed
    && forall other | 1 <= other < t :: other in p.started || other in p.linked || other in p.failed
  }

  ghost predicate MayStart(contract: CampaignContract, p: Progress) {
    && |(p.started + p.linked) - p.observed - p.failed| < contract.maxParallel
    && exists t :: 1 <= t <= |contract.evals| && t !in p.started && t !in p.linked && t !in p.failed
  }

  /** No linked trial to release or to observe, no started one to create the pair of, and none to start. */
  ghost predicate NothingApplies(contract: CampaignContract, p: Progress, completed: set<nat>) {
    && !AnyPlanned(contract, p.linked - p.released)
    && !AnyPlanned(contract, (p.linked - p.observed) * completed)
    && !AnyPlanned(contract, p.started - p.linked - p.failed)
    && !MayStart(contract, p)
  }

  /**
    Release before observing, observe before creating, create before starting, each time the first trial
    there is; a pair that cannot be created for now is given up with the third failure.
   */
  ghost predicate AdvancesTo(contract: CampaignContract, p: Progress, completed: set<nat>, creation: CreationOutcome, after: Progress) {
    if AnyPlanned(contract, p.linked - p.released) then
      exists t :: IsFirst(contract, t, p.linked - p.released) && after == p.(released := p.released + {t})
    else if AnyPlanned(contract, (p.linked - p.observed) * completed) then
      exists t :: IsFirst(contract, t, (p.linked - p.observed) * completed) && after == p.(observed := p.observed + {t})
    else if AnyPlanned(contract, p.started - p.linked - p.failed) then
      exists t :: IsFirst(contract, t, p.started - p.linked - p.failed)
        && after == (if creation == Links then p.(linked := p.linked + {t})
                     else if creation == FailsForNow && p.retries[t] < 2 then p.(retries := p.retries + multiset{t})
                     else p.(failed := p.failed + {t}))
    else
      MayStart(contract, p) && exists t :: IsFirstUnstarted(contract, t, p) && after == p.(started := p.started + {t})
  }

  /** The fact a chosen step ends in, by how the creation comes out. */
  ghost predicate StepEndsIn(p: Progress, step: Step, creation: CreationOutcome, f: Fact) {
    match step
    case ReleaseTrial(t) => f == TrialReleased(t)
    case ObserveTrial(t) => f.TrialObserved? && f.trial == t
    case CreatePair(t) =>
      (match creation
       case Links => f.TrialLinked? && f.trial == t
       case FailsForGood => f == TrialCreationFailed(t)
       case FailsForNow => f == if p.retries[t] + 1 < 3 then TrialCreationRetryable(t, p.retries[t] + 1) else TrialCreationFailed(t))
    case StartTrial(t) => f == TrialStarted(t)
    case NothingToDo => false
  }

  /** The step chosen, case by case on the tables. */
  lemma ChosenStepIs(contract: CampaignContract, p: Progress, completed: set<nat>)
    ensures
      match Decide(contract, p, completed)
      case ReleaseTrial(t) => IsFirst(contract, t, p.linked - p.released)
      case ObserveTrial(t) => IsFirst(contract, t, (p.linked - p.observed) * completed) && !AnyPlanned(contract, p.linked - p.released)
      case CreatePair(t) =>
        && IsFirst(contract, t, p.started - p.linked - p.failed)
        && !AnyPlanned(contract, p.linked - p.released) && !AnyPlanned(contract, (p.linked - p.observed) * completed)
      case StartTrial(t) =>
        && IsFirstUnstarted(contract, t, p) && MayStart(contract, p)
        && !AnyPlanned(contract, p.linked - p.released) && !AnyPlanned(contract, (p.linked - p.observed) * completed)
        && !AnyPlanned(contract, p.started - p.linked - p.failed)
      case NothingToDo => NothingApplies(contract, p, completed)
  {
    hide FirstIn, Trials;
    assert forall t :: t in Trials(contract) - p.started - p.linked - p.failed <==>
      1 <= t <= |contract.evals| && t !in p.started && t !in p.linked && t !in p.failed;
  }

  lemma NothingIsChosenIff(contract: CampaignContract, p: Progress, completed: set<nat>)
    ensures Decide(contract, p, completed).NothingToDo? <==> NothingApplies(contract, p, completed)
  {
    hide Decide, FirstIn;
    ChosenStepIs(contract, p, completed);
  }

  lemma ReleaseIsChosenIff(contract: CampaignContract, p: Progress, completed: set<nat>)
    ensures Decide(contract, p, completed).ReleaseTrial? <==> AnyPlanned(contract, p.linked - p.released)
  {
    hide Decide, FirstIn;
    ChosenStepIs(contract, p, completed);
  }

  lemma StepAdvancesTo(contract: CampaignContract, p: Progress, completed: set<nat>, creation: CreationOutcome, f: Fact)
    requires StepEndsIn(p, Decide(contract, p, completed), creation, f)
    ensures AdvancesTo(contract, p, completed, creation, Advance(p, f))
  {
    hide Decide, IsFirst, IsFirstUnstarted, MayStart, Advance;
    AdvanceByKind(p, f);
    ChosenStepIs(contract, p, completed);
    match Decide(contract, p, completed)
    case ReleaseTrial(t) => FirstIsAny(contract, t, p.linked - p.released);
    case ObserveTrial(t) => FirstIsAny(contract, t, (p.linked - p.observed) * completed);
    case CreatePair(t) => FirstIsAny(contract, t, p.started - p.linked - p.failed);
    case StartTrial(t) =>
    case NothingToDo =>
  }

  lemma FirstIsAny(contract: CampaignContract, t: nat, candidates: set<nat>)
    requires IsFirst(contract, t, candidates)
    ensures AnyPlanned(contract, candidates)
  {}

  /** No deadlock: when every linked pair has finished and still nothing applies, every trial is settled. */
  lemma QuietCampaignIsSettled(contract: CampaignContract, p: Progress, completed: set<nat>)
    requires ProgressOk(contract, p) && contract.maxParallel >= 1 && p.linked <= completed
    requires NothingApplies(contract, p, completed)
    ensures forall t | 1 <= t <= |contract.evals| :: t in p.observed || t in p.failed
  {
    hide Trials, RetriesBounded, AnyPlanned;
    StartedIsSettled(contract, p, completed);
    assert (p.started + p.linked) - p.observed - p.failed == {};
    assert forall t | 1 <= t <= |contract.evals| :: t in p.started || t in p.linked || t in p.failed;
  }

  lemma StartedIsSettled(contract: CampaignContract, p: Progress, completed: set<nat>)
    requires ProgressOk(contract, p) && p.linked <= completed && NothingApplies(contract, p, completed)
    ensures forall u | u in p.started + p.linked :: u in p.observed || u in p.failed
  {
    hide RetriesBounded, Unsettled;
    forall u | u in p.started + p.linked
      ensures u in p.observed || u in p.failed
    {
      assert u in p.started && u in Trials(contract);
      if u in p.linked {
        assert u !in (p.linked - p.observed) * completed;
      } else {
        assert u !in p.started - p.linked - p.failed;
      }
    }
  }

  // ---- the tables and the log ----

  function RetryCount(log: Log, c: RunId, t: nat): nat {
    if log == [] then 0
    else
      RetryCount(log[..|log| - 1], c, t)
      + (var e := log[|log| - 1]; if e.runId == c && e.fact.TrialCreationRetryable? && e.fact.trial == t then 1 else 0)
  }

  datatype Table = StartedTable | LinkedTable | ReleasedTable | ObservedTable | FailedTable

  predicate IsIn(p: Progress, table: Table, t: nat) {
    match table
    case StartedTable => t in p.started
    case LinkedTable => t in p.linked
    case ReleasedTable => t in p.released
    case ObservedTable => t in p.observed
    case FailedTable => t in p.failed
  }

  predicate PutsIn(f: Fact, table: Table, t: nat) {
    match table
    case StartedTable => f == TrialStarted(t)
    case LinkedTable => f.TrialLinked? && f.trial == t
    case ReleasedTable => f == TrialReleased(t)
    case ObservedTable => f.TrialObserved? && f.trial == t
    case FailedTable => f == TrialCreationFailed(t)
  }

  lemma FactPutsIn(p: Progress, f: Fact, table: Table, t: nat)
    ensures IsIn(Advance(p, f), table, t) <==> IsIn(p, table, t) || PutsIn(f, table, t)
    ensures Advance(p, f).cancelled <==> p.cancelled || f.CampaignCancelled?
    ensures Advance(p, f).retries[t] == p.retries[t] + (if f.TrialCreationRetryable? && f.trial == t then 1 else 0)
  {}

  /** A trial is in a table exactly when the campaign's log holds the fact that puts it there; retries are counted. */
  lemma {:induction false} TablesTellTheLog(log: Log, c: RunId, table: Table, t: nat)
    ensures
      var p := ProgressOf(log, c);
      && (IsIn(p, table, t) <==> exists e | e in log :: e.runId == c && PutsIn(e.fact, table, t))
      && (p.cancelled <==> exists e | e in log :: e.runId == c && e.fact.CampaignCancelled?)
      && p.retries[t] == RetryCount(log, c, t)
  {
    hide IsIn, PutsIn, Advance;
    if log == [] {
      NothingIsInYet(table, t);
    } else {
      var front, last := log[..|log| - 1], log[|log| - 1];
      TablesTellTheLog(front, c, table, t);
      FactPutsIn(ProgressOf(front, c), last.fact, table, t);
      assert log == front + [last];
      assert forall e :: e in log <==> e in front || e == last;
    }
  }

  lemma NothingIsInYet(table: Table, t: nat)
    ensures !IsIn(NO_PROGRESS, table, t)
  {}
}
