/** A plan or a leased result committed through the ledger is one step of a team run: the log grows by exactly its events. */
module TeamCommits {
  import opened Contracts
  import opened Events
  import opened Projection
  import opened Claims
  import opened Tables
  import opened Orchestration
  import opened PolicyFacts
  import opened Admission
  import opened TeamRuns
  import opened TeamTheorems
  import opened Ledger

  ghost predicate DistinctEvents(events: seq<Event>) {
    forall i, j | 0 <= i < j < |events| :: events[i].id != events[j].id
  }

  lemma FreshAppends(s: Store, e: Event)
    requires e.id !in Recorded(s.log)
    ensures AppendOutcome(s.log, e).Inserted? && Appending(s, e).log == s.log + [e]
  {
    assert forall f | f in s.log :: f.id in Recorded(s.log);
  }

  lemma RecordedTogether(log: Log, events: seq<Event>)
    ensures Recorded(log + events) == Recorded(log) + Recorded(events)
  {
    assert forall e :: e in log + events <==> e in log || e in events;
  }

  lemma LastIsUnrecorded(events: seq<Event>)
    requires DistinctEvents(events) && events != []
    ensures DistinctEvents(events[..|events| - 1]) && events[|events| - 1].id !in Recorded(events[..|events| - 1])
  {}

  lemma {:induction false} FreshBatchAppends(s: Store, events: seq<Event>)
    requires DistinctEvents(events) && forall e | e in events :: e.id !in Recorded(s.log)
    ensures AppendingAll(s, events).log == s.log + events && AllAppend(s, events)
  {
    hide Recorded, Appending, AppendOutcome, DistinctEvents;
    if events == [] {
      assert s.log + [] == s.log;
    } else {
      var last := |events| - 1;
      assert events[last] in events && forall e | e in events[..last] :: e in events;
      LastIsUnrecorded(events);
      FreshBatchAppends(s, events[..last]);
      RecordedTogether(s.log, events[..last]);
      FreshAppends(AppendingAll(s, events[..last]), events[last]);
      assert s.log + events == s.log + events[..last] + [events[last]];
    }
  }

  /** The event belongs to one of these assignments of the command. */
  predicate NamedAfter(key: Text, e: Event, id: AssignmentId) {
    e.id == OfCommand(key, CreatedSuffix(id)) || e.id == OfCommand(key, LeaseAcquiredSuffix(id))
    || e.id == OfCommand(key, RunningSuffix(id))
  }

  lemma OneAssignmentIsDistinct(key: Text, run: RunId, task: TaskId, at: int, a: AssignmentProposal)
    ensures DistinctEvents(AssignmentEvents(key, run, task, at, a))
    ensures forall e | e in AssignmentEvents(key, run, task, at, a) :: NamedAfter(key, e, a.assignmentId)
  {}

  lemma NamedApart(key: Text, e: Event, f: Event, a: AssignmentId, b: AssignmentId)
    requires NamedAfter(key, e, a) && NamedAfter(key, f, b) && a != b
    ensures e.id != f.id
  {}

  lemma {:induction false} AssignmentEventsAreDistinct(key: Text, run: RunId, task: TaskId, at: int, proposals: seq<AssignmentProposal>)
    requires DistinctAssignments(proposals)
    ensures DistinctEvents(AllAssignmentEvents(key, run, task, at, proposals))
    ensures forall e | e in AllAssignmentEvents(key, run, task, at, proposals) ::
      exists a :: a in proposals && NamedAfter(key, e, a.assignmentId)
  {
    hide DistinctEvents, AssignmentEvents, NamedAfter;
    if proposals == [] {
      NothingIsDistinct();
    } else {
      var last := |proposals| - 1;
      var front := AllAssignmentEvents(key, run, task, at, proposals[..last]);
      var tail := AssignmentEvents(key, run, task, at, proposals[last]);
      AssignmentEventsAreDistinct(key, run, task, at, proposals[..last]);
      OneAssignmentIsDistinct(key, run, task, at, proposals[last]);
      assert proposals[last] in proposals && forall a | a in proposals[..last] :: a in proposals;
      forall e, f | e in front && f in tail
        ensures e.id != f.id
      {
        var a :| a in proposals[..last] && NamedAfter(key, e, a.assignmentId);
        var i :| 0 <= i < last && proposals[i] == a;
        assert proposals[i].assignmentId != proposals[last].assignmentId;
        NamedApart(key, e, f, a.assignmentId, proposals[last].assignmentId);
      }
      JoinDistinct(front, tail);
    }
  }

  lemma NothingIsDistinct()
    ensures DistinctEvents([])
  {}

  lemma JoinDistinct(front: seq<Event>, tail: seq<Event>)
    requires DistinctEvents(front) && DistinctEvents(tail)
    requires forall e, f | e in front && f in tail :: e.id != f.id
    ensures DistinctEvents(front + tail)
  {
    var all := front + tail;
    forall i, j | 0 <= i < j < |all|
      ensures all[i].id != all[j].id
    {
      if i < |front| <= j {
        assert all[i] in front && all[j] in tail;
      }
    }
  }

  lemma PlanEventsAreDistinct(key: Text, run: RunId, task: TaskId, at: int, patch: PlanPatch)
    requires DistinctAssignments(patch.assignments)
    ensures DistinctEvents(PlanEvents(key, run, task, at, patch))
    ensures forall e | e in PlanEvents(key, run, task, at, patch) ::
      e.id.OfCommand? && e.id.key == key && !IsPreliminary(e.id.suffix)
  {
    hide AllAssignmentEvents, DistinctEvents, DistinctAssignments;
    var middle := AllAssignmentEvents(key, run, task, at, patch.assignments);
    AssignmentEventsAreDistinct(key, run, task, at, patch.assignments);
    EndsAreDistinct(key, run, task, at, patch);
    JoinDistinct(PlanHeader(key, run, task, at, patch), middle);
    JoinDistinct(PlanHeader(key, run, task, at, patch) + middle, PlanFooter(key, run, task, at, patch));
  }

  lemma EndsAreDistinct(key: Text, run: RunId, task: TaskId, at: int, patch: PlanPatch)
    ensures DistinctEvents(PlanHeader(key, run, task, at, patch)) && DistinctEvents(PlanFooter(key, run, task, at, patch))
  {}

  /**
    The kernel's commit of a plan, with the validation repeated inside the transaction, is the team-run
    step of that plan: nothing of it was in the log before, and all of it is afterwards.
   */
  lemma PlanCommitIsTeamStep(s: Store, key: Text, run: RunId, task: TaskId, at: int, patch: PlanPatch, decision: Decision,
                             rejection: Option<Text>, guard: Option<Guard>, now: int)
    requires Consistent(s) && LedgerOk(s)
    requires key in s.commands && s.commands[key].state.Processing?
    requires PersistedContract(s.log, run).Some?
    requires rejection.None? ==> Admissible(s.log, s.projections, run, PersistedContract(s.log, run), patch)
    requires CommitResultOf(s, key, AcceptedCommand, decision, PlanEvents(key, run, task, at, patch), rejection, guard, now).Committed?
    ensures
      var step := AcceptPlan(key, run, task, at, patch);
      && Enabled(s.log, step)
      && CommitCommand(s, key, AcceptedCommand, decision, PlanEvents(key, run, task, at, patch), rejection, guard, now).log
        == After(s.log, step)
  {
    hide Outcomes, PlanEvents, AppendingAll, AllAppend, AreCurrent, RunIsWithdrawn, PersistedContract, UniqueIds, Fold, CapacityOk, LoadsOk,
      ViewsOk, ProposalOk, MatchesPlan, DistinctViews, PatchValidates, DistinctAssignments;
    var events := PlanEvents(key, run, task, at, patch);
    PlanEventsAreDistinct(key, run, task, at, patch);
    assert RowMatchesLog(s, key);
    forall e | e in events
      ensures e.id !in Recorded(s.log)
    {
      NoOutcomeYet(s.log, key, e);
    }
    FreshBatchAppends(s, events);
  }

  lemma ResultEventsAreDistinct(p: Projections, key: Text, run: RunId, task: TaskId, id: AssignmentId, kind: Text, at: int)
    requires id in p.leases
    ensures DistinctEvents(ResultEvents(p, key, run, task, id, kind, at))
    ensures forall e | e in ResultEvents(p, key, run, task, id, kind, at) ::
      e.id.OfCommand? && e.id.key == key && !IsPreliminary(e.id.suffix)
  {}

  /**
    The kernel's commit of a leased result, with the lease checked again inside the transaction, is the
    team-run step of that result.
   */
  lemma ResultCommitIsTeamStep(s: Store, key: Text, run: RunId, task: TaskId, at: int, actor: AgentId, id: AssignmentId, kind: Text,
                               decision: Decision, rejection: Option<Text>, guard: Option<Guard>, now: int)
    requires Consistent(s) && LedgerOk(s)
    requires key in s.commands && s.commands[key].state.Processing?
    requires id in s.projections.leases
    requires rejection.None? ==> LeasedResultOk(s.projections, run, task, actor, id, kind, now)
    requires CommitResultOf(s, key, AcceptedCommand, decision, ResultEvents(s.projections, key, run, task, id, kind, at),
      rejection, guard, now).Committed?
    ensures
      var step := AcceptResult(key, run, task, at, actor, id, kind, now);
      && Enabled(s.log, step)
      && CommitCommand(s, key, AcceptedCommand, decision, ResultEvents(s.projections, key, run, task, id, kind, at),
           rejection, guard, now).log == After(s.log, step)
  {
    hide Outcomes, ResultEvents, AppendingAll, AllAppend, AreCurrent, RunIsWithdrawn, UniqueIds, Fold, LeasedResultOk;
    var events := ResultEvents(s.projections, key, run, task, id, kind, at);
    ResultEventsAreDistinct(s.projections, key, run, task, id, kind, at);
    assert RowMatchesLog(s, key);
    forall e | e in events
      ensures e.id !in Recorded(s.log)
    {
      NoOutcomeYet(s.log, key, e);
    }
    FreshBatchAppends(s, events);
  }

  lemma NoOutcomeYet(log: Log, key: Text, e: Event)
    requires Outcomes(log, key) == {} && e.id.OfCommand? && e.id.key == key && !IsPreliminary(e.id.suffix)
    ensures e.id !in Recorded(log)
  {
    assert e.id in Recorded(log) ==> e.id in Outcomes(log, key);
  }
}
