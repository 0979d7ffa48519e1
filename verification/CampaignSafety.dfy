/** One campaign ends at most once, nothing follows its end, and its trials stay within their bounds. */
module CampaignSafety {
  import opened Contracts
  import opened Events
  import opened Projection
  import opened Claims
  import opened Tables
  import opened StoreRuns
  import opened CampaignFacts
  import opened CampaignRuns

  // ---- what is in the log is in the tables ----

  predicate IsTabled(p: Progress, f: Fact) {
    && (f.TrialStarted? ==> f.trial in p.started)
    && (f.TrialLinked? ==> f.trial in p.linked)
    && (f.TrialReleased? ==> f.trial in p.released)
    && (f.TrialObserved? ==> f.trial in p.observed)
    && (f.TrialCreationFailed? ==> f.trial in p.failed)
    && (f.TrialCreationRetryable? ==> f.trial in p.retries)
    && (f.CampaignCancelled? ==> p.cancelled)
  }

  ghost predicate Grows(p: Progress, q: Progress) {
    && p.started <= q.started && p.linked <= q.linked && p.released <= q.released && p.observed <= q.observed
    && p.failed <= q.failed && p.retries <= q.retries && (p.cancelled ==> q.cancelled)
  }

  lemma AdvanceGrows(p: Progress, f: Fact)
    ensures Grows(p, Advance(p, f)) && IsTabled(Advance(p, f), f)
  {}

  lemma TabledStays(p: Progress, q: Progress, f: Fact)
    requires IsTabled(p, f) && Grows(p, q)
    ensures IsTabled(q, f)
  {}

  lemma {:induction false} EventsAreTabled(log: Log, c: RunId)
    ensures forall e | e in log && e.runId == c :: IsTabled(ProgressOf(log, c), e.fact)
  {
    hide Advance, IsTabled;
    if log != [] {
      var last := |log| - 1;
      var p := ProgressOf(log[..last], c);
      EventsAreTabled(log[..last], c);
      AdvanceGrows(p, log[last].fact);
      forall e | e in log && e.runId == c
        ensures IsTabled(ProgressOf(log, c), e.fact)
      {
        if e in log[..last] {
          TabledStays(p, Advance(p, log[last].fact), e.fact);
        } else {
          assert log == log[..last] + [log[last]];
        }
      }
    }
  }

  lemma {:induction false} ProgressGrows(log: Log, more: Log, c: RunId)
    ensures Grows(ProgressOf(log, c), ProgressOf(log + more, c))
    ensures IsCompleted(log, c) ==> IsCompleted(log + more, c)
  {
    hide Advance;
    if more == [] {
      assert log + more == log;
    } else {
      var last := |more| - 1;
      ProgressGrows(log, more[..last], c);
      assert log + more == log + more[..last] + [more[last]];
      ProgressAppend(log + more[..last], more[last], c);
      AdvanceGrows(ProgressOf(log + more[..last], c), more[last].fact);
    }
  }

  // ---- a committed fact is new ----

  lemma NewsHasNewId(contract: CampaignContract, log: Log, f: Fact)
    requires IdsMatch(log, contract.campaign) && IsNews(ProgressOf(log, contract.campaign), f)
    ensures forall e | e in log :: e.id != OfCampaign(contract.campaign, PartOf(f))
  {
    hide ProgressOf;
    EventsAreTabled(log, contract.campaign);
  }

  lemma EndingHasNewId(contract: CampaignContract, log: Log, f: Fact)
    requires IdsMatch(log, contract.campaign) && !IsEnded(log, contract.campaign)
    requires f.CampaignCompleted? || f.CampaignCancelled?
    ensures forall e | e in log :: e.id != OfCampaign(contract.campaign, PartOf(f))
  {
    hide ProgressOf;
    EventsAreTabled(log, contract.campaign);
  }

  // ---- the log after one fact ----

  lemma IdsMatchAfter(log: Log, c: RunId, e: Event)
    requires IdsMatch(log, c)
    requires (e.id.OfCampaign? && e.id.campaign == c) <==> (e.runId == c && IsCampaignFact(e.fact))
    requires e.runId == c && IsCampaignFact(e.fact) ==> e.id.part == PartOf(e.fact)
    requires e.runId == c && e.fact.TrialCreationRetryable? ==>
      e.fact.creationAttempt <= ProgressOf(log, c).retries[e.fact.trial] + 1
    ensures IdsMatch(log + [e], c)
  {
    hide ProgressOf, Advance, PartOf, IsCampaignFact;
    ProgressAppend(log, e, c);
    AdvanceGrows(ProgressOf(log, c), e.fact);
    AdvanceByKind(ProgressOf(log, c), e.fact);
  }

  lemma TrialFactKeepsLog(contract: CampaignContract, log: Log, completed: set<nat>, e: Event)
    requires LogOk(contract, log) && !IsEnded(log, contract.campaign)
    requires e.runId == contract.campaign && Follows(contract, ProgressOf(log, contract.campaign), completed, e.fact)
    requires IsCampaignFact(e.fact) && e.id == OfCampaign(contract.campaign, PartOf(e.fact))
    ensures LogOk(contract, log + [e]) && !IsEnded(log + [e], contract.campaign)
    ensures IsNews(ProgressOf(log, contract.campaign), e.fact)
  {
    hide ProgressOf, Follows, ProgressOk, Advance, AllSettled, IdsMatch, PartOf, Trials, CountsMatch;
    var p := ProgressOf(log, contract.campaign);
    FollowingIsNews(contract, p, completed, e.fact);
    FollowingKeepsProgress(contract, p, completed, e.fact);
    ProgressAppend(log, e, contract.campaign);
    AdvanceByKind(p, e.fact);
    IdsMatchAfter(log, contract.campaign, e);
    CountsMatchAfter(log, contract.campaign, e);
  }

  lemma CountsMatchAfter(log: Log, c: RunId, e: Event)
    requires CountsMatch(log, c) && e.runId == c && IsNews(ProgressOf(log, c), e.fact)
    ensures CountsMatch(log + [e], c)
  {
    hide ProgressOf, IsNews, TrialCount, TrialWork;
    CountsAppend(log, e, c);
    ProgressAppend(log, e, c);
    NewsIsTrialFact(ProgressOf(log, c), e.fact);
    forall t
      ensures TrialWork(ProgressOf(log + [e], c), t) == TrialWork(ProgressOf(log, c), t) + (if e.fact.trial == t then 1 else 0)
    {
      NewsAddsWork(ProgressOf(log, c), e.fact, t);
    }
  }

  lemma NewsIsTrialFact(p: Progress, f: Fact)
    requires IsNews(p, f)
    ensures IsTrialFact(f)
  {}

  lemma EndingKeepsLog(contract: CampaignContract, log: Log, e: Event)
    requires LogOk(contract, log) && !IsEnded(log, contract.campaign)
    requires e.runId == contract.campaign && (e.fact.CampaignCompleted? || e.fact.CampaignCancelled?)
    requires e.fact.CampaignCompleted? ==> AllSettled(contract, ProgressOf(log, contract.campaign))
    requires e.id == OfCampaign(contract.campaign, PartOf(e.fact))
    ensures LogOk(contract, log + [e])
  {
    hide ProgressOf, IdsMatch, AllSettled, Trials;
    ProgressAppend(log, e, contract.campaign);
    IdsMatchAfter(log, contract.campaign, e);
    EndingTouchesNoTrial(contract, ProgressOf(log, contract.campaign), e.fact);
    CountsAppend(log, e, contract.campaign);
  }

  lemma EndingTouchesNoTrial(contract: CampaignContract, p: Progress, f: Fact)
    requires ProgressOk(contract, p) && (f.CampaignCompleted? || f.CampaignCancelled?)
    ensures ProgressOk(contract, Advance(p, f)) && (AllSettled(contract, p) ==> AllSettled(contract, Advance(p, f)))
    ensures Advance(p, f).cancelled <==> p.cancelled || f.CampaignCancelled?
    ensures forall t :: TrialWork(Advance(p, f), t) == TrialWork(p, t)
  {
    hide Trials;
  }

  // ---- quiet changes ----

  /** The store moved on without touching the campaign. */
  ghost predicate IsQuiet(c: RunId, before: Store, after: Store) {
    && before.log <= after.log
    && TokensGrow(before.claims, after.claims)
    && ProgressOf(after.log, c) == ProgressOf(before.log, c)
    && (IsCompleted(after.log, c) <==> IsCompleted(before.log, c))
    && TrialTotal(after.log, c) == TrialTotal(before.log, c)
    && (CountsMatch(before.log, c) ==> CountsMatch(after.log, c))
    && (IdsMatch(before.log, c) ==> IdsMatch(after.log, c))
  }

  lemma QuietKeepsProc(contract: CampaignContract, before: Store, after: Store, proc: Proc)
    requires ProcOk(contract, before, proc) && IsQuiet(contract.campaign, before, after)
    ensures ProcOk(contract, after, proc)
  {
    hide ProgressOf, IsCompleted, ProgressOk, IdsMatch, MayEnd, CountsMatch, TrialTotal;
    assert forall key :: TokenOf(before.claims, key) <= TokenOf(after.claims, key);
  }

  lemma QuietKeepsLog(contract: CampaignContract, before: Store, after: Store)
    requires LogOk(contract, before.log) && IsQuiet(contract.campaign, before, after)
    ensures LogOk(contract, after.log)
  {
    hide ProgressOf, IsCompleted, ProgressOk, IdsMatch, CountsMatch, TrialTotal;
  }

  lemma QuietTwice(c: RunId, a: Store, b: Store, d: Store)
    requires IsQuiet(c, a, b) && IsQuiet(c, b, d)
    ensures IsQuiet(c, a, d)
  {
    hide ProgressOf, IsCompleted, IdsMatch, CountsMatch, TrialTotal;
    assert forall key :: TokenOf(a.claims, key) <= TokenOf(b.claims, key) <= TokenOf(d.claims, key);
  }

  /** Events that leave the tables alone: foreign ones, pair facts and the scope. */
  predicate LeavesTables(c: RunId, e: Event) {
    && ((e.id.OfCampaign? && e.id.campaign == c) <==> (e.runId == c && IsCampaignFact(e.fact)))
    && (e.runId == c && IsCampaignFact(e.fact) ==> e.fact.ScopeBound? && e.id.part == PartOf(e.fact))
  }

  lemma AppendingIsQuiet(s: Store, c: RunId, e: Event)
    requires LeavesTables(c, e)
    ensures IsQuiet(c, s, Appending(s, e))
  {
    hide ProgressOf, Project, Advance, PartOf, IdsMatch;
    if AppendOutcome(s.log, e).Inserted? {
      ProgressAppend(s.log, e, c);
      UntouchedByKind(ProgressOf(s.log, c), e.fact);
      CountsAppend(s.log, e, c);
      if IdsMatch(s.log, c) {
        IdsMatchAfter(s.log, c, e);
      }
    }
  }

  lemma UntouchedByKind(p: Progress, f: Fact)
    ensures !IsCampaignFact(f) || f.ScopeBound? ==> Advance(p, f) == p
  {}

  lemma {:induction false} AppendingAllIsQuiet(s: Store, c: RunId, events: seq<Event>)
    requires forall e | e in events :: LeavesTables(c, e)
    ensures IsQuiet(c, s, AppendingAll(s, events))
  {
    hide IsQuiet, LeavesTables, Appending;
    if events == [] {
      SameIsQuiet(s, c);
    } else {
      var last := |events| - 1;
      assert forall e | e in events[..last] :: e in events;
      AppendingAllIsQuiet(s, c, events[..last]);
      AppendingIsQuiet(AppendingAll(s, events[..last]), c, events[last]);
      QuietTwice(c, s, AppendingAll(s, events[..last]), AppendingAll(s, events));
    }
  }

  lemma SameIsQuiet(s: Store, c: RunId)
    ensures IsQuiet(c, s, s)
  {}

  lemma ClaimsOnlyIsQuiet(s: Store, c: RunId, after: Store)
    requires after.log == s.log && TokensGrow(s.claims, after.claims)
    ensures IsQuiet(c, s, after)
  {}

  lemma ForeignLeavesTables(c: RunId, e: Event)
    requires IsForeign(c, e) || (IsPairFact(e.fact) && e.id.OfPair?)
    ensures LeavesTables(c, e)
  {}

  lemma ElsewhereIsQuiet(s: Store, c: RunId, t: Transaction)
    requires Consistent(s) && IsForeignTransaction(c, t)
    ensures IsQuiet(c, s, Apply(s, t))
  {
    hide IsQuiet, Appending, AreCurrent, RunIsWithdrawn, AppendOutcome, IsForeign, LeavesTables, AllAppend, CanClaim,
      DispatchMayWrite, AckIsUnfenced, Fold;
    SameIsQuiet(s, c);
    TransactionGrowsTokens(s, t);
    match t
    case DoAppend(e, _, _, _) =>
      ForeignLeavesTables(c, e);
      AppendingIsQuiet(s, c, e);
    case DoFinish(_, _, _, _, final, _) =>
      if final.Some? {
        ForeignLeavesTables(c, final.value);
        AppendingIsQuiet(s, c, final.value);
      }
      FinishIsQuiet(s, c, Apply(s, t), final);
    case DoCommit(_, _, _, events, _, _, _) =>
      forall e | e in events
        ensures LeavesTables(c, e)
      {
        ForeignLeavesTables(c, e);
      }
      AppendingAllIsQuiet(s, c, events);
      CommitIsQuiet(s, c, Apply(s, t), events);
    case _ => ClaimsOnlyIsQuiet(s, c, Apply(s, t));
  }

  lemma FinishIsQuiet(s: Store, c: RunId, after: Store, final: Option<Event>)
    requires final.Some? ==> IsQuiet(c, s, Appending(s, final.value))
    requires TokensGrow(s.claims, after.claims)
    requires after.log == s.log || (final.Some? && after.log == Appending(s, final.value).log)
    ensures IsQuiet(c, s, after)
  {
    hide ProgressOf, IsCompleted, Appending, CountsMatch, TrialTotal;
  }

  lemma CommitIsQuiet(s: Store, c: RunId, after: Store, events: seq<Event>)
    requires IsQuiet(c, s, AppendingAll(s, events))
    requires TokensGrow(s.claims, after.claims)
    requires after.log == s.log || after.log == AppendingAll(s, events).log
    ensures IsQuiet(c, s, after)
  {
    hide ProgressOf, IsCompleted, AppendingAll, CountsMatch, TrialTotal;
  }
}
