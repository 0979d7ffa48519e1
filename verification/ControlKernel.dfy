/** One submission as it runs: read, announce, validate, commit, and reject when the commit's own check fails. */
module ControlKernel {
  import opened Contracts
  import opened Events
  import opened Projection
  import opened Claims
  import opened Tables
  import opened EventStore
  import opened Ledger

  /** Where a fault is injected; a fault inside a commit rolls the transaction back. */
  datatype Fault = NoFault | AfterCandidatePersisted | DuringCommandCommit

  datatype SubmitResult =
    | Answered(decision: Decision, reused: bool)
    | KeyBelongsToAnotherCandidate
    | CandidateChanged
    | AnnouncementRefused
    | CommitRefused
    | Crashed

  /** What the kernel derives from one candidate; `recheck` is the validation repeated inside the commit. */
  datatype Submission = Submission(
    key: Text,
    candidate: Candidate,
    submitted: Event,
    recovered: Event,
    validate: Store -> Option<Text>,
    recheck: Store -> Option<Text>,
    materialize: Store -> seq<Event>,
    reject: Text -> seq<Event>)

  ghost predicate WellNamed(sub: Submission) {
    && sub.submitted.id == OfCommand(sub.key, Submitted)
    && sub.recovered.id == OfCommand(sub.key, Recovered)
    && (forall s :: IsAcceptance(sub.key, sub.materialize(s)))
    && (forall reason :: IsRejection(sub.key, sub.reject(reason)))
  }

  ghost predicate HoldsDecision(s: Store, key: Text, decision: Decision) {
    key in s.commands && !s.commands[key].state.Processing? && s.commands[key].decision == Some(decision)
  }

  ghost predicate IsFinal(s: Store, key: Text) {
    key in s.commands && !s.commands[key].state.Processing?
  }

  /** What any submission does to the ledger, whatever its outcome. */
  ghost predicate KeepsLedger(before: Store, after: Store) {
    Consistent(after) && LedgerOk(after) && LedgerAdvances(before, after)
  }

  /** Accepted exactly when both validations pass; otherwise rejected for the first one's reason that fails. */
  predicate Verdict(sub: Submission, s: Store, decision: Decision) {
    match sub.validate(s)
    case Some(reason) => !decision.accepted && decision.reason == reason
    case None =>
      match sub.recheck(s)
      case Some(reason) => !decision.accepted && decision.reason == reason
      case None => decision.accepted
  }

  predicate IsOpenRow(s: Store, key: Text) {
    key in s.commands && s.commands[key].state == Processing
  }

  /** The rejection is recorded with this reason and answered, or the store refuses to record it. */
  ghost predicate ConcludesRejected(sub: Submission, s: Store, after: Store, reason: Text, recovered: bool, guard: Option<Guard>, now: int,
                                    result: SubmitResult)
  {
    var events := sub.reject(reason);
    var decision := RejectDecision(sub.candidate, recovered, reason, events);
    && after == CommitCommand(s, sub.key, RejectedCommand, decision, events, None, guard, now)
    && result == if CommitResultOf(s, sub.key, RejectedCommand, decision, events, None, guard, now).Committed? then Answered(decision, false)
                 else CommitRefused
  }

  /** A candidate that validates is recorded as accepted, one that does not, then or inside the commit, as rejected; or the store refuses. */
  ghost predicate Concludes(sub: Submission, s: Store, after: Store, recovered: bool, guard: Option<Guard>, now: int, result: SubmitResult) {
    match sub.validate(s)
    case Some(reason) => ConcludesRejected(sub, s, after, reason, recovered, guard, now, result)
    case None =>
      var formal := sub.materialize(s);
      var decision := AcceptDecision(sub.candidate, recovered, formal);
      match CommitResultOf(s, sub.key, AcceptedCommand, decision, formal, sub.recheck(s), guard, now)
      case Committed =>
        result == Answered(decision, false)
        && after == CommitCommand(s, sub.key, AcceptedCommand, decision, formal, sub.recheck(s), guard, now)
      case PreconditionFailed(reason) => ConcludesRejected(sub, s, after, reason, recovered, guard, now, result)
      case _ => result == CommitRefused && after == s
  }

  /** An open submission: its row exists, the candidate is announced, and unless a fault strikes the verdict is recorded. */
  ghost predicate GoesOn(sub: Submission, before: Store, after: Store, dispatch: Option<Dispatch>, guard: Option<Guard>, now: int,
                         fault: Fault, result: SubmitResult)
  {
    var recovered := sub.key in before.commands;
    var begun := BeginCommand(before, sub.key, sub.candidate);
    var announcement := if recovered then sub.recovered else sub.submitted;
    var announced := Append(begun, announcement, dispatch, now, now);
    if !AppendResultOf(begun, announcement, dispatch, now, now).Persisted? then result == AnnouncementRefused && after == begun
    else if fault == DuringCommandCommit || (fault == AfterCandidatePersisted && !recovered) then result == Crashed && after == announced
    else Concludes(sub, announced, after, recovered, guard, now, result)
  }

  lemma KeepsLedgerTwice(a: Store, b: Store, c: Store)
    requires KeepsLedger(a, b) && KeepsLedger(b, c)
    ensures KeepsLedger(a, c)
  {
    hide Consistent, LedgerOk;
  }

  lemma CommitKeepsConsistency(s: Store, key: Text, state: CommandState, decision: Decision, events: seq<Event>,
                               rejection: Option<Text>, guard: Option<Guard>, now: int)
    requires Consistent(s)
    ensures Consistent(CommitCommand(s, key, state, decision, events, rejection, guard, now))
  {
    hide Fold, UniqueIds, AppendingAll, AllAppend, AreCurrent, RunIsWithdrawn;
    AppendingAllKeepsConsistency(s, events);
  }

  class Kernel {
    const store: SQLiteEventStore

    constructor (store: SQLiteEventStore)
      ensures this.store == store
    {
      this.store := store;
    }

    method Submit(sub: Submission, dispatch: Option<Dispatch>, guard: Option<Guard>, now: int, fault: Fault)
      returns (result: SubmitResult)
      requires WellNamed(sub) && store.Valid() && LedgerOk(store.View())
      modifies store
      ensures store.Valid() && KeepsLedger(old(store.View()), store.View())
      ensures result.Answered? ==> HoldsDecision(store.View(), sub.key, result.decision)
      ensures result.Answered? ==> (result.reused <==> IsFinal(old(store.View()), sub.key))
      ensures IsFinal(old(store.View()), sub.key) ==> result.Answered? && store.View() == old(store.View())
      ensures result.Answered? && !result.reused ==> (result.decision.recovered <==> sub.key in old(store.commands))
      ensures result.Crashed? || result.CommitRefused? ==> sub.key in store.commands && store.commands[sub.key].state.Processing?
      ensures result.KeyBelongsToAnotherCandidate? || result.CandidateChanged? ==>
        sub.key in old(store.commands) && old(store.commands)[sub.key].candidate != sub.candidate && store.View() == old(store.View())
      ensures result.KeyBelongsToAnotherCandidate? <==>
        IsOpenRow(old(store.View()), sub.key) && old(store.commands)[sub.key].candidate.candidateId != sub.candidate.candidateId
      ensures result.CandidateChanged? <==>
        IsOpenRow(old(store.View()), sub.key)
        && old(store.commands)[sub.key].candidate.candidateId == sub.candidate.candidateId
        && old(store.commands)[sub.key].candidate != sub.candidate
      ensures !IsFinal(old(store.View()), sub.key) && !result.KeyBelongsToAnotherCandidate? && !result.CandidateChanged? ==>
        GoesOn(sub, old(store.View()), store.View(), dispatch, guard, now, fault, result)
    {
      hide Consistent, Outcomes, LedgerAdvances, LedgerOk, Tables.Append, AppendResultOf, Tables.CommitCommand, CommitResultOf,
        IsAcceptance, IsRejection, WellNamed, Concludes;
      SameLedger(store.View());
      if sub.key in store.commands && !store.commands[sub.key].state.Processing? {
        FinalHasDecision(store.View(), sub.key);
        return Answered(store.commands[sub.key].decision.value, true);
      }
      var recovered := sub.key in store.commands;
      if recovered {
        if store.commands[sub.key].candidate.candidateId != sub.candidate.candidateId {
          return KeyBelongsToAnotherCandidate;
        }
        if store.commands[sub.key].candidate != sub.candidate {
          return CandidateChanged;
        }
      } else {
        var _ := store.BeginCommand(sub.key, sub.candidate);
      }
      ghost var begun := store.View();
      BeginStep(old(store.View()), begun, sub);
      var announcement := if recovered then sub.recovered else sub.submitted;
      var announced := store.Append(announcement, dispatch, now, now);
      AnnounceStep(begun, store.View(), sub, announcement, dispatch, now);
      KeepsLedgerTwice(old(store.View()), begun, store.View());
      if !announced.Persisted? {
        return AnnouncementRefused;
      }
      if fault.AfterCandidatePersisted? && !recovered {
        return Crashed;
      }
      result := Decide(sub, recovered, guard, now, fault, old(store.View()));
    }

    /** From validation to the end; entered with the candidate announced and its row still processing. */
    method Decide(sub: Submission, recovered: bool, guard: Option<Guard>, now: int, fault: Fault, ghost before: Store)
      returns (result: SubmitResult)
      requires WellNamed(sub) && store.Valid() && LedgerOk(store.View()) && KeepsLedger(before, store.View())
      requires sub.key in store.commands && store.commands[sub.key].state.Processing?
      modifies store
      ensures store.Valid() && KeepsLedger(before, store.View())
      ensures result.Answered? || result.CommitRefused? || result.Crashed?
      ensures result.Answered? ==> HoldsDecision(store.View(), sub.key, result.decision)
      ensures result.Answered? ==> !result.reused && result.decision.recovered == recovered
      ensures result.Answered? ==> Verdict(sub, old(store.View()), result.decision)
      ensures !result.Answered? ==> store.View() == old(store.View())
      ensures result.Crashed? <==> fault.DuringCommandCommit?
      ensures !result.Crashed? ==> Concludes(sub, old(store.View()), store.View(), recovered, guard, now, result)
    {
      hide Consistent, Outcomes, LedgerAdvances, LedgerOk, IsAcceptance, IsRejection, AllAppend, AreCurrent, AppendingAll, KeepsLedger;
      if fault.DuringCommandCommit? {
        return Crashed;
      }
      var reason := sub.validate(Store(store.events, store.projections, store.claims, store.commands));
      if reason.None? {
        var formal := sub.materialize(Store(store.events, store.projections, store.claims, store.commands));
        var decision := AcceptDecision(sub.candidate, recovered, formal);
        CommitStep(before, store.View(), sub.key, AcceptedCommand, decision, formal, sub.recheck(store.View()), guard, now);
        var committed := store.CommitCommand(sub.key, AcceptedCommand, decision, formal, sub.recheck, guard, now);
        if committed.Committed? {
          return Answered(decision, false);
        }
        if !committed.PreconditionFailed? {
          return CommitRefused;
        }
        reason := Some(committed.reason);
      }
      result := CommitRejection(sub, reason.value, recovered, guard, now, before);
    }

    method CommitRejection(sub: Submission, reason: Text, recovered: bool, guard: Option<Guard>, now: int, ghost before: Store)
      returns (result: SubmitResult)
      requires WellNamed(sub) && store.Valid() && LedgerOk(store.View()) && KeepsLedger(before, store.View())
      modifies store
      ensures store.Valid() && KeepsLedger(before, store.View())
      ensures result.Answered? || result.CommitRefused?
      ensures result.Answered? ==> HoldsDecision(store.View(), sub.key, result.decision)
      ensures result.Answered? ==> !result.reused && result.decision.recovered == recovered
      ensures result.Answered? ==> !result.decision.accepted && result.decision.reason == reason
      ensures result.CommitRefused? ==> store.View() == old(store.View())
      ensures ConcludesRejected(sub, old(store.View()), store.View(), reason, recovered, guard, now, result)
    {
      hide Consistent, Outcomes, LedgerAdvances, LedgerOk, IsAcceptance, IsRejection, AllAppend, AreCurrent, AppendingAll, KeepsLedger;
      var events := sub.reject(reason);
      var decision := RejectDecision(sub.candidate, recovered, reason, events);
      CommitStep(before, store.View(), sub.key, RejectedCommand, decision, events, None, guard, now);
      var committed := store.CommitCommand(sub.key, RejectedCommand, decision, events, _ => None, guard, now);
      return if committed.Committed? then Answered(decision, false) else CommitRefused;
    }
  }

  // ---- the steps of a submission ----

  lemma SameLedger(s: Store)
    requires Consistent(s) && LedgerOk(s)
    ensures KeepsLedger(s, s)
  {
    hide Consistent, LedgerOk;
  }

  lemma FinalHasDecision(s: Store, key: Text)
    requires LedgerOk(s) && IsFinal(s, key)
    ensures s.commands[key].decision.Some?
  {
    hide Outcomes;
    assert RowMatchesLog(s, key);
  }

  lemma BeginStep(before: Store, after: Store, sub: Submission)
    requires Consistent(before) && LedgerOk(before)
    requires (after == before && sub.key in before.commands) || after == BeginCommand(before, sub.key, sub.candidate)
    ensures KeepsLedger(before, after)
  {
    hide LedgerOk, Outcomes, Fold, UniqueIds;
    BeginKeepsLedger(before, sub.key, sub.candidate);
  }

  lemma AnnounceStep(before: Store, after: Store, sub: Submission, announcement: Event, dispatch: Option<Dispatch>, now: int)
    requires Consistent(before) && LedgerOk(before) && WellNamed(sub)
    requires announcement == sub.submitted || announcement == sub.recovered
    requires after == Append(before, announcement, dispatch, now, now)
    ensures KeepsLedger(before, after) && after.commands == before.commands
    ensures !AppendResultOf(before, announcement, dispatch, now, now).Persisted? ==> after == before
  {
    hide LedgerOk, Outcomes, Consistent, AppendResultOf, Appending, IsAcceptance, IsRejection;
    AnnouncementLeavesLedger(before, announcement, dispatch, now);
    AppendingKeepsConsistency(before, announcement);
  }

  lemma CommitStep(first: Store, s: Store, key: Text, state: CommandState, decision: Decision, events: seq<Event>,
                   rejection: Option<Text>, guard: Option<Guard>, now: int)
    requires KeepsLedger(first, s) && decision.eventIds == EventIds(events)
    requires (state.AcceptedCommand? && IsAcceptance(key, events) && decision.accepted)
      || (state.RejectedCommand? && IsRejection(key, events) && !decision.accepted)
    ensures var after := CommitCommand(s, key, state, decision, events, rejection, guard, now);
      && KeepsLedger(first, after) && LedgerOk(after)
      && (CommitResultOf(s, key, state, decision, events, rejection, guard, now).Committed? ==> HoldsDecision(after, key, decision))
  {
    hide LedgerOk, Outcomes, Consistent, CommitCommand, CommitResultOf, IsAcceptance, IsRejection, LedgerAdvances;
    CommitDecides(s, key, state, decision, events, rejection, guard, now);
    CommitKeepsConsistency(s, key, state, decision, events, rejection, guard, now);
    KeepsLedgerTwice(first, s, CommitCommand(s, key, state, decision, events, rejection, guard, now));
  }

  // ---- a submission is a run of the ledger's protocol ----

  lemma {:induction false} OneMore(w: World, steps: seq<SubmitStep>, v: World, step: SubmitStep)
    requires Reaches(w, steps, v) && MayStep(v, step)
    ensures Reaches(w, steps + [step], Next(v, step))
    decreases |steps|
  {
    hide MayStep, Next;
    var more := steps + [step];
    if steps == [] {
      assert more[1..] == [];
    } else {
      assert more[0] == steps[0] && more[1..] == steps[1..] + [step];
      OneMore(Next(w, steps[0]), steps[1..], v, step);
    }
  }

  function EndOf(result: SubmitResult): Phase {
    if result.Answered? then Returned(result.decision, result.reused) else Raised
  }

  /** Up to the announcement: the row is there and the submitter validates, or the store refuses the announcement. */
  lemma AnnouncementIsARun(sub: Submission, w: World, pid: nat, dispatch: Option<Dispatch>, now: int)
    returns (steps: seq<SubmitStep>, reached: World)
    requires WellNamed(sub) && pid in w.procs && w.procs[pid] == Submitter(sub.key, sub.candidate, Reading)
    requires sub.key in w.store.commands ==> w.store.commands[sub.key].state == Processing && w.store.commands[sub.key].candidate == sub.candidate
    ensures Reaches(w, steps, reached)
    ensures
      var recovered := sub.key in w.store.commands;
      var begun := BeginCommand(w.store, sub.key, sub.candidate);
      var announcement := if recovered then sub.recovered else sub.submitted;
      && reached.store == Append(begun, announcement, dispatch, now, now) && pid in reached.procs
      && reached.procs[pid] == Submitter(sub.key, sub.candidate,
           if AppendResultOf(begun, announcement, dispatch, now, now).Persisted? then Validating(recovered) else Raised)
  {
    hide AppendResultOf, Append, IsAcceptance, IsRejection;
    var recovered := sub.key in w.store.commands;
    steps, reached := [], w;
    OneMore(w, steps, reached, Read(pid));
    steps, reached := steps + [Read(pid)], Next(reached, Read(pid));
    if !recovered {
      OneMore(w, steps, reached, Begin(pid));
      steps, reached := steps + [Begin(pid)], Next(reached, Begin(pid));
    }
    var announce := Announce(pid, if recovered then sub.recovered else sub.submitted, dispatch, now);
    OneMore(w, steps, reached, announce);
    steps, reached := steps + [announce], Next(reached, announce);
  }

  lemma RejectionIsARun(sub: Submission, first: World, before: seq<SubmitStep>, w: World, pid: nat, after: Store, reason: Text,
                        recovered: bool, guard: Option<Guard>, now: int, result: SubmitResult)
    returns (steps: seq<SubmitStep>, reached: World)
    requires WellNamed(sub) && pid in w.procs && w.procs[pid] == Submitter(sub.key, sub.candidate, Rejecting(recovered, reason))
    requires Reaches(first, before, w) && ConcludesRejected(sub, w.store, after, reason, recovered, guard, now, result)
    ensures Reaches(first, steps, reached) && reached.store == after && pid in reached.procs && reached.procs[pid].phase == EndOf(result)
  {
    hide CommitCommand, CommitResultOf, IsAcceptance, IsRejection;
    var step := Reject(pid, sub.reject(reason), guard, now);
    OneMore(first, before, w, step);
    steps, reached := before + [step], Next(w, step);
  }

  lemma VerdictIsARun(sub: Submission, first: World, before: seq<SubmitStep>, w: World, pid: nat, after: Store, recovered: bool,
                      guard: Option<Guard>, now: int, result: SubmitResult)
    returns (steps: seq<SubmitStep>, reached: World)
    requires WellNamed(sub) && pid in w.procs && w.procs[pid] == Submitter(sub.key, sub.candidate, Validating(recovered))
    requires Reaches(first, before, w) && Concludes(sub, w.store, after, recovered, guard, now, result)
    ensures Reaches(first, steps, reached) && reached.store == after && pid in reached.procs && reached.procs[pid].phase == EndOf(result)
  {
    hide CommitCommand, CommitResultOf, IsAcceptance, IsRejection, ConcludesRejected;
    var validate := Validate(pid, sub.validate(w.store), sub.materialize(w.store));
    OneMore(first, before, w, validate);
    steps, reached := before + [validate], Next(w, validate);
    if sub.validate(w.store).Some? {
      steps, reached := RejectionIsARun(sub, first, steps, reached, pid, after, sub.validate(w.store).value, recovered, guard, now, result);
      return;
    }
    RefusedCommitKeepsStore(w.store, sub, recovered, guard, now);
    var commit := SubmitStep.Commit(pid, sub.recheck(w.store), guard, now);
    OneMore(first, steps, reached, commit);
    steps, reached := steps + [commit], Next(reached, commit);
    if reached.procs[pid].phase.Rejecting? {
      steps, reached := RejectionIsARun(sub, first, steps, reached, pid, after, reached.procs[pid].phase.reason, recovered, guard, now, result);
    }
  }

  lemma RefusedCommitKeepsStore(s: Store, sub: Submission, recovered: bool, guard: Option<Guard>, now: int)
    ensures var formal := sub.materialize(s);
      var decision := AcceptDecision(sub.candidate, recovered, formal);
      !CommitResultOf(s, sub.key, AcceptedCommand, decision, formal, sub.recheck(s), guard, now).Committed? ==>
        CommitCommand(s, sub.key, AcceptedCommand, decision, formal, sub.recheck(s), guard, now) == s
  {
    hide CommitResultOf;
  }

  /** An undisturbed submission does what its own steps of the racing protocol do, up to the same answer. */
  lemma SubmissionIsARun(sub: Submission, w: World, pid: nat, after: Store, dispatch: Option<Dispatch>, guard: Option<Guard>, now: int,
                         result: SubmitResult)
    returns (steps: seq<SubmitStep>, reached: World)
    requires WellNamed(sub) && pid in w.procs && w.procs[pid] == Submitter(sub.key, sub.candidate, Reading)
    requires sub.key in w.store.commands ==> w.store.commands[sub.key].state == Processing && w.store.commands[sub.key].candidate == sub.candidate
    requires GoesOn(sub, w.store, after, dispatch, guard, now, NoFault, result)
    ensures Reaches(w, steps, reached) && reached.store == after && pid in reached.procs && reached.procs[pid].phase == EndOf(result)
  {
    hide AppendResultOf, Concludes, WellNamed;
    steps, reached := AnnouncementIsARun(sub, w, pid, dispatch, now);
    if reached.procs[pid].phase.Validating? {
      steps, reached := VerdictIsARun(sub, w, steps, reached, pid, after, sub.key in w.store.commands, guard, now, result);
    }
  }
}
