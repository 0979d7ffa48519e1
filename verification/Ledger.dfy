/** The command ledger: racing submitters, crashes between transactions, one decision per key. */
module Ledger {
  import opened Contracts
  import opened Events
  import opened Projection
  import opened Claims
  import opened Tables
  import opened StoreRuns

  // ---- events of a command ----

  predicate IsPreliminary(suffix: CommandSuffix) {
    suffix.Submitted? || suffix.Recovered?
  }

  predicate IsFormal(suffix: CommandSuffix) {
    !IsPreliminary(suffix) && !suffix.Accepted? && !suffix.Rejected?
  }

  function Recorded(log: Log): set<EventId> {
    set e | e in log :: e.id
  }

  function EventIds(events: seq<Event>): (ids: seq<EventId>)
    ensures |ids| == |events| && forall i | 0 <= i < |ids| :: ids[i] == events[i].id
  {
    seq(|events|, i requires 0 <= i < |events| => events[i].id)
  }

  /** What the log holds of a command beyond the note that it was submitted or recovered. */
  function Outcomes(log: Log, key: Text): set<EventId> {
    set id | id in Recorded(log) && id.OfCommand? && id.key == key && !IsPreliminary(id.suffix)
  }

  /** An acceptance and the formal facts it materialises. */
  predicate IsAcceptance(key: Text, events: seq<Event>) {
    && events != []
    && events[0].id == OfCommand(key, Accepted)
    && forall i | 1 <= i < |events| :: events[i].id.OfCommand? && events[i].id.key == key && IsFormal(events[i].id.suffix)
  }

  /** A rejection and the policy denial that may follow it. */
  predicate IsRejection(key: Text, events: seq<Event>) {
    && events != []
    && events[0].id == OfCommand(key, Rejected)
    && forall i | 1 <= i < |events| :: events[i].id.OfCommand? && events[i].id.key == key && IsFormal(events[i].id.suffix)
  }

  // ---- submitters ----

  datatype Phase =
    | Reading
    | Beginning
    | Announcing(recovered: bool)
    | Validating(recovered: bool)
    | Committing(recovered: bool, decision: Decision, events: seq<Event>)
    | Rejecting(recovered: bool, reason: Text)
    | Returned(returned: Decision, reused: bool)
    | Raised

  datatype Submitter = Submitter(key: Text, candidate: Candidate, phase: Phase)

  datatype World = World(store: Store, procs: map<nat, Submitter>)

  datatype SubmitStep =
    | Spawn(pid: nat, key: Text, candidate: Candidate)
    | Crash(pid: nat)
    | Read(pid: nat)
    | Begin(pid: nat)
    | Announce(pid: nat, event: Event, dispatch: Option<Dispatch>, now: int)
    | Validate(pid: nat, rejection: Option<Text>, events: seq<Event>)
    | Commit(pid: nat, rejection: Option<Text>, guard: Option<Guard>, now: int)
    | Reject(pid: nat, events: seq<Event>, guard: Option<Guard>, now: int)
    | Elsewhere(transaction: Transaction)

  /** Only the kernel writes the ledger and events named after commands. */
  predicate LeavesLedger(t: Transaction) {
    match t
    case DoAppend(event, _, _, _) => !event.id.OfCommand?
    case DoFinish(_, _, _, _, final, _) => final.Some? ==> !final.value.id.OfCommand?
    case DoBegin(_, _) => false
    case DoCommit(_, _, _, _, _, _, _) => false
    case _ => true
  }

  predicate MayStep(w: World, step: SubmitStep) {
    match step
    case Spawn(pid, _, _) => pid !in w.procs
    case Crash(pid) => pid in w.procs
    case Read(pid) => pid in w.procs && w.procs[pid].phase.Reading?
    case Begin(pid) => pid in w.procs && w.procs[pid].phase.Beginning?
    case Announce(pid, event, _, _) =>
      && pid in w.procs && w.procs[pid].phase.Announcing?
      && event.id == OfCommand(w.procs[pid].key, if w.procs[pid].phase.recovered then Recovered else Submitted)
    case Validate(pid, _, events) =>
      pid in w.procs && w.procs[pid].phase.Validating? && IsAcceptance(w.procs[pid].key, events)
    case Commit(pid, _, _, _) => pid in w.procs && w.procs[pid].phase.Committing?
    case Reject(pid, events, _, _) =>
      pid in w.procs && w.procs[pid].phase.Rejecting? && IsRejection(w.procs[pid].key, events)
    case Elsewhere(t) => LeavesLedger(t)
  }

  function Moved(w: World, pid: nat, phase: Phase): World
    requires pid in w.procs
  {
    w.(procs := w.procs[pid := w.procs[pid].(phase := phase)])
  }

  function AfterRead(commands: map<Text, CommandRow>, p: Submitter): Phase {
    if p.key !in commands then Beginning
    else
      var row := commands[p.key];
      if !row.state.Processing? && row.decision.Some? then Returned(row.decision.value, true)
      else if row.candidate.candidateId != p.candidate.candidateId then Raised
      else if row.candidate != p.candidate then Raised
      else Announcing(true)
  }

  function AcceptDecision(candidate: Candidate, recovered: bool, events: seq<Event>): Decision {
    Decision(candidate.candidateId, true, "accepted", EventIds(events), recovered)
  }

  function RejectDecision(candidate: Candidate, recovered: bool, reason: Text, events: seq<Event>): Decision {
    Decision(candidate.candidateId, false, reason, EventIds(events), recovered)
  }

  function Next(w: World, step: SubmitStep): World
    requires MayStep(w, step)
  {
    match step
    case Spawn(pid, key, candidate) => w.(procs := w.procs[pid := Submitter(key, candidate, Reading)])
    case Crash(pid) => w.(procs := w.procs - {pid})
    case Read(pid) => Moved(w, pid, AfterRead(w.store.commands, w.procs[pid]))
    case Begin(pid) =>
      var p := w.procs[pid];
      Moved(w.(store := BeginCommand(w.store, p.key, p.candidate)), pid,
        if p.key in w.store.commands then Reading else Announcing(false))
    case Announce(pid, event, dispatch, now) =>
      Moved(w.(store := Append(w.store, event, dispatch, now, now)), pid,
        if AppendResultOf(w.store, event, dispatch, now, now).Persisted? then Validating(w.procs[pid].phase.recovered) else Raised)
    case Validate(pid, rejection, events) =>
      var p := w.procs[pid];
      Moved(w, pid,
        if rejection.Some? then Rejecting(p.phase.recovered, rejection.value)
        else Committing(p.phase.recovered, AcceptDecision(p.candidate, p.phase.recovered, events), events))
    case Commit(pid, rejection, guard, now) =>
      var p := w.procs[pid];
      var phase := p.phase;
      Moved(w.(store := CommitCommand(w.store, p.key, AcceptedCommand, phase.decision, phase.events, rejection, guard, now)), pid,
        match CommitResultOf(w.store, p.key, AcceptedCommand, phase.decision, phase.events, rejection, guard, now)
        case Committed => Returned(phase.decision, false)
        case PreconditionFailed(reason) => Rejecting(phase.recovered, reason)
        case _ => Raised)
    case Reject(pid, events, guard, now) =>
      var p := w.procs[pid];
      var decision := RejectDecision(p.candidate, p.phase.recovered, p.phase.reason, events);
      Moved(w.(store := CommitCommand(w.store, p.key, RejectedCommand, decision, events, None, guard, now)), pid,
        if CommitResultOf(w.store, p.key, RejectedCommand, decision, events, None, guard, now).Committed?
        then Returned(decision, false) else Raised)
    case Elsewhere(t) => w.(store := Apply(w.store, t))
  }

  // ---- the invariant ----

  /** The ledger row of a key tells exactly which of its events the log holds. */
  ghost predicate RowMatchesLog(s: Store, key: Text) {
    if key !in s.commands || s.commands[key].state.Processing? then
      Outcomes(s.log, key) == {} && (key in s.commands ==> s.commands[key].decision.None?)
    else
      var row := s.commands[key];
      && row.decision.Some?
      && Outcomes(s.log, key) == Elements(row.decision.value.eventIds)
      && row.decision.value.accepted == row.state.AcceptedCommand?
      && (OfCommand(key, Accepted) in Outcomes(s.log, key) <==> row.state.AcceptedCommand?)
      && (OfCommand(key, Rejected) in Outcomes(s.log, key) <==> row.state.RejectedCommand?)
  }

  ghost predicate LedgerOk(s: Store) {
    forall key :: RowMatchesLog(s, key)
  }

  ghost predicate SubmitterOk(s: Store, p: Submitter) {
    match p.phase
    case Reading => true
    case Beginning => true
    case Raised => true
    case Announcing(_) => p.key in s.commands
    case Validating(_) => p.key in s.commands
    case Rejecting(_, _) => p.key in s.commands
    case Committing(recovered, decision, events) =>
      p.key in s.commands && IsAcceptance(p.key, events) && decision == AcceptDecision(p.candidate, recovered, events)
    case Returned(decision, _) =>
      p.key in s.commands && !s.commands[p.key].state.Processing? && s.commands[p.key].decision == Some(decision)
  }

  ghost predicate WorldOk(w: World) {
    LedgerOk(w.store) && forall pid | pid in w.procs :: SubmitterOk(w.store, w.procs[pid])
  }

  /** Rows are never removed, keep their candidate, and once decided never change. */
  ghost predicate LedgerAdvances(before: Store, after: Store) {
    forall key | key in before.commands ::
      && key in after.commands
      && after.commands[key].candidate == before.commands[key].candidate
      && (!before.commands[key].state.Processing? ==> after.commands[key] == before.commands[key])
  }

  // ---- what a transaction records ----

  lemma AppendRecords(s: Store, e: Event)
    ensures Recorded(Appending(s, e).log) == Recorded(s.log) + {e.id}
    ensures Appending(s, e).commands == s.commands
    ensures e.id in Recorded(s.log) ==> Appending(s, e) == s
  {
    if e.id in Recorded(s.log) {
      var f :| f in s.log && f.id == e.id;
      assert Lookup(s.log, e.id).Some?;
    } else {
      assert forall f | f in s.log :: f in s.log + [e];
      assert e in s.log + [e];
    }
  }

  lemma {:induction false} AppendAllRecords(s: Store, events: seq<Event>)
    ensures Recorded(AppendingAll(s, events).log) == Recorded(s.log) + Elements(EventIds(events))
    ensures AppendingAll(s, events).commands == s.commands
    ensures Elements(EventIds(events)) <= Recorded(s.log) ==> AppendingAll(s, events) == s
  {
    hide Recorded, Appending;
    if events == [] {
      assert Elements(EventIds(events)) == {};
    } else {
      var last := |events| - 1;
      AppendAllRecords(s, events[..last]);
      AppendRecords(AppendingAll(s, events[..last]), events[last]);
      assert EventIds(events) == EventIds(events[..last]) + [events[last].id];
      assert Elements(EventIds(events)) == Elements(EventIds(events[..last])) + {events[last].id};
    }
  }

  // ---- committing ----

  /** The ids of a verdict: all of this command, none preliminary, and one of the two verdicts. */
  lemma VerdictIds(key: Text, events: seq<Event>)
    requires IsAcceptance(key, events) || IsRejection(key, events)
    ensures forall id | id in EventIds(events) :: id.OfCommand? && id.key == key && !IsPreliminary(id.suffix)
    ensures OfCommand(key, Accepted) in EventIds(events) <==> IsAcceptance(key, events)
    ensures OfCommand(key, Rejected) in EventIds(events) <==> IsRejection(key, events)
    ensures IsAcceptance(key, events) <==> !IsRejection(key, events)
  {
    assert events[0].id == EventIds(events)[0];
  }

  lemma OutcomesGrow(before: Log, after: Log, key: Text, ids: set<EventId>, other: Text)
    requires Recorded(after) == Recorded(before) + ids
    requires forall id | id in ids :: id.OfCommand? && id.key == key && !IsPreliminary(id.suffix)
    ensures Outcomes(after, other) == Outcomes(before, other) + (if other == key then ids else {})
  {
    hide Recorded;
  }

  lemma DecidedRowMatches(s: Store, after: Store, key: Text, state: CommandState, decision: Decision, events: seq<Event>)
    requires LedgerOk(s) && key in s.commands && s.commands[key].state.Processing? && decision.eventIds == EventIds(events)
    requires (state.AcceptedCommand? && IsAcceptance(key, events) && decision.accepted)
      || (state.RejectedCommand? && IsRejection(key, events) && !decision.accepted)
    requires Recorded(after.log) == Recorded(s.log) + Elements(EventIds(events))
    requires after.commands == s.commands[key := CommandRow(s.commands[key].candidate, state, Some(decision))]
    ensures LedgerOk(after)
  {
    hide EventIds, Recorded, Outcomes, IsAcceptance, IsRejection;
    VerdictIds(key, events);
    forall other
      ensures RowMatchesLog(after, other)
    {
      assert RowMatchesLog(s, other);
      OutcomesGrow(s.log, after.log, key, Elements(EventIds(events)), other);
      assert Outcomes(s.log, other) + {} == Outcomes(s.log, other);
    }
  }

  /** A commit of a verdict either changes nothing, or decides a processing row with exactly its events. */
  lemma CommitDecides(s: Store, key: Text, state: CommandState, decision: Decision, events: seq<Event>,
                      rejection: Option<Text>, guard: Option<Guard>, now: int)
    requires LedgerOk(s) && decision.eventIds == EventIds(events)
    requires (state.AcceptedCommand? && IsAcceptance(key, events) && decision.accepted)
      || (state.RejectedCommand? && IsRejection(key, events) && !decision.accepted)
    ensures
      var after := CommitCommand(s, key, state, decision, events, rejection, guard, now);
      && LedgerOk(after) && LedgerAdvances(s, after)
      && (CommitResultOf(s, key, state, decision, events, rejection, guard, now).Committed? ==>
            key in after.commands && !after.commands[key].state.Processing? && after.commands[key].decision == Some(decision))
      && (key in s.commands && !s.commands[key].state.Processing? ==> after == s)
  {
    hide AllAppend, AreCurrent, AppendingAll, EventIds, Recorded, Outcomes, RunIsWithdrawn, IsAcceptance, IsRejection;
    var after := CommitCommand(s, key, state, decision, events, rejection, guard, now);
    AppendAllRecords(s, events);
    if CommitResultOf(s, key, state, decision, events, rejection, guard, now).Committed? {
      assert RowMatchesLog(s, key);
      if s.commands[key].state.Processing? {
        DecidedRowMatches(s, after, key, state, decision, events);
      } else {
        OutcomesAreRecorded(s.log, key);
      }
    }
  }

  lemma OutcomesAreRecorded(log: Log, key: Text)
    ensures Outcomes(log, key) <= Recorded(log)
  {}

  /** Transactions from elsewhere leave the rows and every command's events alone. */
  lemma ElsewhereLeavesLedger(s: Store, t: Transaction)
    requires LedgerOk(s) && LeavesLedger(t)
    ensures LedgerOk(Apply(s, t)) && Apply(s, t).commands == s.commands
  {
    hide Recorded, Appending, AreCurrent, Claimed, Finished, Renewed, BundleFailed, Fold, DispatchMayWrite, AckIsUnfenced, AppendOutcome,
      RunIsWithdrawn, Claimable, BarrierHolds;
    match t {
      case DoAppend(event, _, _, _) => AppendRecords(s, event);
      case DoFinish(_, _, _, _, final, _) =>
        if final.Some? {
          AppendRecords(s, final.value);
        }
      case _ =>
    }
    OthersLeaveOutcomes(s, Apply(s, t));
  }

  lemma OthersLeaveOutcomes(s: Store, after: Store)
    requires LedgerOk(s) && after.commands == s.commands && Recorded(s.log) <= Recorded(after.log)
    requires forall id | id in Recorded(after.log) - Recorded(s.log) :: id.OfCommand? ==> IsPreliminary(id.suffix)
    ensures LedgerOk(after)
  {
    hide Recorded;
    forall key
      ensures RowMatchesLog(after, key)
    {
      assert RowMatchesLog(s, key);
      assert Outcomes(after.log, key) == Outcomes(s.log, key);
    }
  }

  lemma AnnouncementLeavesLedger(s: Store, event: Event, dispatch: Option<Dispatch>, now: int)
    requires LedgerOk(s) && event.id.OfCommand? && IsPreliminary(event.id.suffix)
    ensures LedgerOk(Append(s, event, dispatch, now, now)) && Append(s, event, dispatch, now, now).commands == s.commands
  {
    hide Recorded, Appending, AppendResultOf, LedgerOk;
    AppendRecords(s, event);
    OthersLeaveOutcomes(s, Append(s, event, dispatch, now, now));
  }

  lemma BeginKeepsLedger(s: Store, key: Text, candidate: Candidate)
    requires LedgerOk(s)
    ensures LedgerOk(BeginCommand(s, key, candidate)) && LedgerAdvances(s, BeginCommand(s, key, candidate))
    ensures key in BeginCommand(s, key, candidate).commands
  {
    hide Outcomes;
    forall other
      ensures RowMatchesLog(BeginCommand(s, key, candidate), other)
    {
      assert RowMatchesLog(s, other);
    }
  }

  // ---- steps ----

  lemma SubmitterSurvives(before: Store, after: Store, p: Submitter)
    requires SubmitterOk(before, p) && LedgerAdvances(before, after)
    ensures SubmitterOk(after, p)
  {}

  /** The store part of one step: the ledger stays consistent with the log and only advances. */
  lemma StepKeepsLedger(w: World, step: SubmitStep)
    requires WorldOk(w) && MayStep(w, step)
    ensures LedgerOk(Next(w, step).store) && LedgerAdvances(w.store, Next(w, step).store)
  {
    hide LedgerOk, Apply, LeavesLedger, Append, AppendResultOf, CommitCommand, CommitResultOf, BeginCommand, EventIds, IsAcceptance, IsRejection;
    match step
    case Begin(pid) => BeginKeepsLedger(w.store, w.procs[pid].key, w.procs[pid].candidate);
    case Announce(pid, event, dispatch, now) => AnnouncementLeavesLedger(w.store, event, dispatch, now);
    case Commit(pid, rejection, guard, now) =>
      var p := w.procs[pid];
      assert SubmitterOk(w.store, p);
      CommitDecides(w.store, p.key, AcceptedCommand, p.phase.decision, p.phase.events, rejection, guard, now);
    case Reject(pid, events, guard, now) =>
      var p := w.procs[pid];
      CommitDecides(w.store, p.key, RejectedCommand, RejectDecision(p.candidate, p.phase.recovered, p.phase.reason, events),
        events, None, guard, now);
    case Elsewhere(t) => ElsewhereLeavesLedger(w.store, t);
    case _ =>
  }

  /** The process part: the stepping submitter ends in a state that its new store supports. */
  lemma StepKeepsSubmitter(w: World, step: SubmitStep, pid: nat)
    requires WorldOk(w) && MayStep(w, step) && pid in Next(w, step).procs
    ensures SubmitterOk(Next(w, step).store, Next(w, step).procs[pid])
  {
    hide LedgerOk, Apply, LeavesLedger, Append, AppendResultOf, CommitCommand, CommitResultOf, EventIds, IsAcceptance, IsRejection, Outcomes;
    StepKeepsLedger(w, step);
    if pid in w.procs && Next(w, step).procs[pid] == w.procs[pid] {
      SubmitterSurvives(w.store, Next(w, step).store, w.procs[pid]);
    } else {
      match step
      case Commit(_, rejection, guard, now) =>
        var p := w.procs[pid];
        CommitDecides(w.store, p.key, AcceptedCommand, p.phase.decision, p.phase.events, rejection, guard, now);
      case Reject(_, events, guard, now) =>
        var p := w.procs[pid];
        CommitDecides(w.store, p.key, RejectedCommand, RejectDecision(p.candidate, p.phase.recovered, p.phase.reason, events),
          events, None, guard, now);
      case _ =>
    }
  }

  lemma StepKeepsWorld(w: World, step: SubmitStep)
    requires WorldOk(w) && MayStep(w, step)
    ensures WorldOk(Next(w, step)) && LedgerAdvances(w.store, Next(w, step).store)
  {
    hide LedgerOk, SubmitterOk, MayStep, Next, LedgerAdvances;
    StepKeepsLedger(w, step);
    forall pid | pid in Next(w, step).procs
      ensures SubmitterOk(Next(w, step).store, Next(w, step).procs[pid])
    {
      StepKeepsSubmitter(w, step, pid);
    }
  }

  // ---- runs ----

  ghost predicate Reaches(w: World, steps: seq<SubmitStep>, reached: World)
    decreases |steps|
  {
    if steps == [] then reached == w
    else MayStep(w, steps[0]) && Reaches(Next(w, steps[0]), steps[1..], reached)
  }

  const EMPTY_WORLD := World(EMPTY_STORE, map[])

  lemma EmptyWorldOk()
    ensures WorldOk(EMPTY_WORLD)
  {}

  lemma AdvancesIsTransitive(a: Store, b: Store, c: Store)
    requires LedgerAdvances(a, b) && LedgerAdvances(b, c)
    ensures LedgerAdvances(a, c)
  {}

  lemma {:induction false} RunsKeepWorld(w: World, steps: seq<SubmitStep>, reached: World)
    requires WorldOk(w) && Reaches(w, steps, reached)
    ensures WorldOk(reached) && LedgerAdvances(w.store, reached.store)
    decreases |steps|
  {
    hide WorldOk, LedgerAdvances, MayStep, Next;
    if steps == [] {
      AdvancesFromItself(w.store);
    } else {
      StepKeepsWorld(w, steps[0]);
      RunsKeepWorld(Next(w, steps[0]), steps[1..], reached);
      AdvancesIsTransitive(w.store, Next(w, steps[0]).store, reached.store);
    }
  }

  lemma AdvancesFromItself(s: Store)
    ensures LedgerAdvances(s, s)
  {}

  /**
    In every interleaving of submitters, crashes and foreign transactions: the log holds a verdict of a
    key, with its formal facts, exactly when the ledger row carries that verdict, and whoever got an
    answer got the row's decision.
   */
  lemma LedgerMatchesLog(steps: seq<SubmitStep>, reached: World, key: Text)
    requires Reaches(EMPTY_WORLD, steps, reached)
    ensures RowMatchesLog(reached.store, key)
    ensures forall pid | pid in reached.procs && reached.procs[pid].phase.Returned? ::
      && reached.procs[pid].key in reached.store.commands
      && reached.store.commands[reached.procs[pid].key].decision == Some(reached.procs[pid].phase.returned)
  {
    hide Reaches;
    EmptyWorldOk();
    RunsKeepWorld(EMPTY_WORLD, steps, reached);
  }

  /** Once decided, a key keeps its row, and a commit by a racing submitter changes nothing at all. */
  lemma DecisionIsFinal(before: seq<SubmitStep>, w: World, more: seq<SubmitStep>, reached: World, key: Text)
    requires Reaches(EMPTY_WORLD, before, w) && Reaches(w, more, reached)
    requires key in w.store.commands && !w.store.commands[key].state.Processing?
    ensures key in reached.store.commands && reached.store.commands[key] == w.store.commands[key]
    ensures Outcomes(reached.store.log, key) == Outcomes(w.store.log, key)
  {
    hide Reaches, Outcomes, SubmitterOk;
    EmptyWorldOk();
    RunsKeepWorld(EMPTY_WORLD, before, w);
    RunsKeepWorld(w, more, reached);
    assert RowMatchesLog(w.store, key) && RowMatchesLog(reached.store, key);
  }

  lemma LateCommitChangesNothing(w: World, step: SubmitStep)
    requires WorldOk(w) && MayStep(w, step) && (step.Commit? || step.Reject?)
    requires !w.store.commands[w.procs[step.pid].key].state.Processing?
    ensures Next(w, step).store == w.store
  {
    hide LedgerOk, CommitCommand, CommitResultOf, EventIds, IsAcceptance, IsRejection;
    var p := w.procs[step.pid];
    assert SubmitterOk(w.store, p);
    match step
    case Commit(pid, rejection, guard, now) =>
      CommitDecides(w.store, p.key, AcceptedCommand, p.phase.decision, p.phase.events, rejection, guard, now);
    case Reject(pid, events, guard, now) =>
      CommitDecides(w.store, p.key, RejectedCommand, RejectDecision(p.candidate, p.phase.recovered, p.phase.reason, events),
        events, None, guard, now);
  }

  /** A submitter that starts after the decision reads it back, whatever candidate it brings. */
  lemma LaterSubmitReusesDecision(w: World, pid: nat)
    requires WorldOk(w) && MayStep(w, Read(pid))
    requires w.procs[pid].key in w.store.commands && !w.store.commands[w.procs[pid].key].state.Processing?
    ensures w.store.commands[w.procs[pid].key].decision.Some?
    ensures Next(w, Read(pid)).procs[pid].phase == Returned(w.store.commands[w.procs[pid].key].decision.value, true)
    ensures Next(w, Read(pid)).store == w.store
  {
    assert RowMatchesLog(w.store, w.procs[pid].key);
  }
}
