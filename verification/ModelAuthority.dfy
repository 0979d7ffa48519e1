/** One authority process per request drives each call; calls of a run share its budget. */
module ModelAuthority {
  import opened Contracts
  import opened Events
  import opened ModelBudgets

  // ---- owners ----

  datatype OwnerPhase =
    | Fresh
    | HoldsReservation
    | Calling
    | Responded(settled: Settlement)
    | Stopped
    | Recovering(uncertain: bool)
    | Ended

  datatype Owner = Owner(run: RunId, phase: OwnerPhase)

  datatype World = World(calls: seq<CallRow>, owners: map<CallId, Owner>)

  type Budgets = map<RunId, ModelBudget>

  datatype AuthorityStep =
    | Request(call: CallId, run: RunId)
    | TakeReservation(call: CallId, want: Reservation, running: bool, now: int)
    | Start(call: CallId, now: int)
    | GiveUp(call: CallId, uncertain: bool, now: int)
    | PersistResponse(call: CallId, settled: Settlement)
    | Settle(call: CallId, now: int)
    | Crash(call: CallId)
    | ReadForRecovery(call: CallId)
    | WriteRecovery(call: CallId, now: int)
    | RecoverRun(run: RunId, cutoff: int, now: int)

  /** Before a transport attempt a failure is certain; during one it may be either. */
  predicate MayStep(w: World, budgets: Budgets, step: AuthorityStep) {
    match step
    case Request(call, run) => call !in w.owners && run in budgets
    case TakeReservation(call, _, _, _) => call in w.owners && w.owners[call].phase.Fresh? && w.owners[call].run in budgets
    case Start(call, _) => call in w.owners && (w.owners[call].phase.HoldsReservation? || w.owners[call].phase.Calling?)
    case GiveUp(call, uncertain, _) =>
      call in w.owners && ((w.owners[call].phase.HoldsReservation? && !uncertain) || w.owners[call].phase.Calling?)
    case PersistResponse(call, _) => call in w.owners && w.owners[call].phase.Calling?
    case Settle(call, _) => call in w.owners && w.owners[call].phase.Responded?
    case Crash(call) => call in w.owners && !w.owners[call].phase.Responded?
    case ReadForRecovery(call) => call in w.owners && w.owners[call].phase.Stopped?
    case WriteRecovery(call, _) => call in w.owners && w.owners[call].phase.Recovering?
    case RecoverRun(_, _, _) => true
  }

  function Moved(w: World, call: CallId, phase: OwnerPhase): World
    requires call in w.owners
  {
    w.(owners := w.owners[call := w.owners[call].(phase := phase)])
  }

  /** `recover_unresolved`: no row, an unsent reservation, a settled failure, or an ambiguous attempt. */
  function RecoveryPlan(calls: seq<CallRow>, call: CallId): OwnerPhase {
    match Find(calls, call)
    case None => Fresh
    case Some(i) =>
      if calls[i].attempts == 0 && (calls[i].state.Reserved? || calls[i].state.CallFailed?) then
        if calls[i].state.Reserved? then Recovering(false) else Ended
      else if calls[i].state.CallFailed? || calls[i].state.UnknownOutcome? then Ended
      else Recovering(true)
  }

  function Next(w: World, budgets: Budgets, step: AuthorityStep): World
    requires MayStep(w, budgets, step)
  {
    match step
    case Request(call, run) => w.(owners := w.owners[call := Owner(run, Fresh)])
    case TakeReservation(call, want, running, now) =>
      var run := w.owners[call].run;
      Moved(w.(calls := Reserve(w.calls, call, run, want, budgets[run], running, now)), call,
        if ReserveResultOf(w.calls, call, run, want, budgets[run], running).Granted? then HoldsReservation else Ended)
    case Start(call, now) =>
      Moved(w.(calls := StartAttempt(w.calls, call, now)), call, if Startable(w.calls, call) then Calling else Ended)
    case GiveUp(call, uncertain, now) => Moved(w.(calls := Fail(w.calls, call, uncertain, now)), call, Ended)
    case PersistResponse(call, settled) => Moved(w, call, Responded(settled))
    case Settle(call, now) => w.(calls := Reconcile(w.calls, call, w.owners[call].phase.settled, now))
    case Crash(call) => Moved(w, call, Stopped)
    case ReadForRecovery(call) => Moved(w, call, RecoveryPlan(w.calls, call))
    case WriteRecovery(call, now) => Moved(w.(calls := Fail(w.calls, call, w.owners[call].phase.uncertain, now)), call, Ended)
    case RecoverRun(run, cutoff, now) => w.(calls := RecoverStale(w.calls, run, cutoff, now))
  }

  // ---- the invariant ----

  /** The states a call can be in while its owner is in this phase. */
  predicate PhaseAllows(phase: OwnerPhase, row: CallRow) {
    match phase
    case Fresh => !row.state.CallCompleted? && Sent(row)
    case HoldsReservation => (row.state.Reserved? || row.state.CallFailed?) && row.attempts == 0
    case Calling => row.state.InFlight? || row.state.UnknownOutcome?
    case Responded(settled) =>
      row.state.InFlight? || row.state.UnknownOutcome?
      || (row.state.CallCompleted? && row.completion == Some(settled.completion)
          && row.totalTokens == settled.totalTokens && row.actualCost == settled.cost)
    case Stopped => !row.state.CallCompleted? && Sent(row)
    case Recovering(uncertain) =>
      if uncertain then row.state.InFlight? || row.state.UnknownOutcome?
      else row.state.Reserved? || row.state.CallFailed?
    case Ended => !row.state.CallCompleted? && Sent(row)
  }

  /** A reservation has no attempt yet, and a call in flight has one. */
  predicate Sent(row: CallRow) {
    (row.state.Reserved? ==> row.attempts == 0) && (row.state.InFlight? ==> row.attempts > 0)
  }

  ghost predicate OwnersMatch(w: World) {
    && DistinctCalls(w.calls)
    && (forall i | 0 <= i < |w.calls| ::
          && w.calls[i].callId in w.owners
          && w.owners[w.calls[i].callId].run == w.calls[i].run
          && Sent(w.calls[i])
          && PhaseAllows(w.owners[w.calls[i].callId].phase, w.calls[i]))
    && (forall call | call in w.owners && HasRow(w.owners[call].phase) :: Find(w.calls, call).Some?)
  }

  predicate HasRow(phase: OwnerPhase) {
    phase.HoldsReservation? || phase.Calling? || phase.Responded? || phase.Recovering?
  }

  ghost predicate BudgetsHold(calls: seq<CallRow>, budgets: Budgets) {
    forall run | run in budgets ::
      && Total(ActiveCalls, calls, run) <= budgets[run].maxConcurrentCalls
      && Total(CommittedTokens, calls, run) <= budgets[run].maxTotalTokens
      && Total(CommittedCost, calls, run) <= budgets[run].maxCostMicrousd
  }

  /** The provider reported no more than the call had reserved. */
  predicate Contained(w: World, step: AuthorityStep) {
    step.Settle? && step.call in w.owners && w.owners[step.call].phase.Responded? && Find(w.calls, step.call).Some? ==>
      WithinReservation(w.calls[Find(w.calls, step.call).value], w.owners[step.call].phase.settled)
  }

  // ---- rows ----

  lemma FindIsUnique(calls: seq<CallRow>, i: nat)
    requires DistinctCalls(calls) && i < |calls|
    ensures Find(calls, calls[i].callId) == Some(i)
  {
    assert calls[i] in calls;
  }

  lemma UpdateKeepsFinding(calls: seq<CallRow>, i: nat, row: CallRow, call: CallId)
    requires DistinctCalls(calls) && i < |calls| && row.callId == calls[i].callId
    ensures DistinctCalls(calls[i := row])
    ensures Find(calls, call).Some? ==> Find(calls[i := row], call).Some?
  {
    var after := calls[i := row];
    if Find(calls, call).Some? {
      assert after[Find(calls, call).value] in after;
    }
  }

  /** One row rewritten, one owner moved: the invariant needs looking at nowhere else. */
  lemma OneCallMoves(w: World, i: nat, row: CallRow, phase: OwnerPhase)
    requires OwnersMatch(w) && i < |w.calls|
    requires row.callId == w.calls[i].callId && row.run == w.calls[i].run && Sent(row) && PhaseAllows(phase, row)
    ensures OwnersMatch(Moved(w.(calls := w.calls[i := row]), row.callId, phase))
  {
    hide Find;
    var after := Moved(w.(calls := w.calls[i := row]), row.callId, phase);
    forall call
      ensures Find(w.calls, call).Some? ==> Find(after.calls, call).Some?
      ensures Find(w.calls, row.callId).Some?
    {
      UpdateKeepsFinding(w.calls, i, row, call);
      FindIsUnique(w.calls, i);
    }
    UpdateKeepsFinding(w.calls, i, row, row.callId);
    forall j | 0 <= j < |after.calls|
      ensures after.calls[j].callId in after.owners
      ensures after.owners[after.calls[j].callId].run == after.calls[j].run
      ensures Sent(after.calls[j]) && PhaseAllows(after.owners[after.calls[j].callId].phase, after.calls[j])
    {
      if j < i {
        assert w.calls[j].callId != w.calls[i].callId;
      } else if i < j {
        assert w.calls[i].callId != w.calls[j].callId;
      }
    }
  }

  /** Only the owner moves. */
  lemma OwnerMoves(w: World, call: CallId, phase: OwnerPhase)
    requires OwnersMatch(w) && call in w.owners
    requires Find(w.calls, call).Some? ==> PhaseAllows(phase, w.calls[Find(w.calls, call).value])
    requires HasRow(phase) ==> Find(w.calls, call).Some?
    ensures OwnersMatch(Moved(w, call, phase))
  {
    hide Find, DistinctCalls;
    var after := Moved(w, call, phase);
    forall j | 0 <= j < |after.calls|
      ensures PhaseAllows(after.owners[after.calls[j].callId].phase, after.calls[j])
    {
      FindIsUnique(w.calls, j);
    }
  }

  lemma RowOf(w: World, call: CallId)
    requires OwnersMatch(w) && call in w.owners && Find(w.calls, call).Some?
    ensures PhaseAllows(w.owners[call].phase, w.calls[Find(w.calls, call).value])
    ensures Sent(w.calls[Find(w.calls, call).value]) && w.calls[Find(w.calls, call).value].run == w.owners[call].run
  {}

  lemma ReservationKeepsOwners(w: World, call: CallId, row: CallRow)
    requires OwnersMatch(w) && call in w.owners && Find(w.calls, call).None?
    requires row.callId == call && row.run == w.owners[call].run && row.state.Reserved? && row.attempts == 0
    ensures OwnersMatch(Moved(w.(calls := w.calls + [row]), call, HoldsReservation))
  {
    var after := Moved(w.(calls := w.calls + [row]), call, HoldsReservation);
    forall j | 0 <= j < |w.calls|
      ensures w.calls[j].callId != call
    {
      assert w.calls[j] in w.calls;
    }
    forall other | other in after.owners && HasRow(after.owners[other].phase)
      ensures Find(after.calls, other).Some?
    {
      if other == call {
        assert row in after.calls;
      } else {
        assert w.calls[Find(w.calls, other).value] in after.calls;
      }
    }
  }

  lemma QuarantineIsAllowed(phase: OwnerPhase, row: CallRow, run: RunId, cutoff: int, now: int)
    requires Sent(row) && PhaseAllows(phase, row)
    ensures Sent(Quarantined(row, run, cutoff, now)) && PhaseAllows(phase, Quarantined(row, run, cutoff, now))
    ensures Quarantined(row, run, cutoff, now).callId == row.callId && Quarantined(row, run, cutoff, now).run == row.run
  {}

  lemma SameIdsSameFinds(before: seq<CallRow>, after: seq<CallRow>, call: CallId)
    requires |before| == |after| && forall i | 0 <= i < |before| :: after[i].callId == before[i].callId
    ensures Find(before, call).Some? ==> Find(after, call).Some?
  {
    if Find(before, call).Some? {
      assert after[Find(before, call).value] in after;
    }
  }

  lemma StaleKeepsOwners(w: World, run: RunId, cutoff: int, now: int)
    requires OwnersMatch(w)
    ensures OwnersMatch(w.(calls := RecoverStale(w.calls, run, cutoff, now)))
  {
    hide Find, Quarantined, PhaseAllows, Sent;
    var after := RecoverStale(w.calls, run, cutoff, now);
    forall i | 0 <= i < |after|
      ensures after[i].callId == w.calls[i].callId && after[i].run == w.calls[i].run
      ensures Sent(after[i]) && PhaseAllows(w.owners[w.calls[i].callId].phase, after[i])
    {
      QuarantineIsAllowed(w.owners[w.calls[i].callId].phase, w.calls[i], run, cutoff, now);
    }
    forall call
      ensures Find(w.calls, call).Some? ==> Find(after, call).Some?
    {
      SameIdsSameFinds(w.calls, after, call);
    }
  }

  lemma RecoveryPlanIsAllowed(w: World, call: CallId)
    requires OwnersMatch(w) && call in w.owners && w.owners[call].phase.Stopped?
    ensures HasRow(RecoveryPlan(w.calls, call)) ==> Find(w.calls, call).Some?
    ensures Find(w.calls, call).Some? ==> PhaseAllows(RecoveryPlan(w.calls, call), w.calls[Find(w.calls, call).value])
  {
    hide DistinctCalls;
    if Find(w.calls, call).Some? {
      RowOf(w, call);
    }
  }

  lemma StepKeepsOwners(w: World, budgets: Budgets, step: AuthorityStep)
    requires OwnersMatch(w) && MayStep(w, budgets, step)
    ensures OwnersMatch(Next(w, budgets, step))
  {
    hide OwnersMatch, Total, Find, RecoverStale, ReserveResultOf, RecoveryPlan;
    match step
    case Request(call, run) => RequestKeepsOwners(w, call, run);
    case TakeReservation(call, want, running, now) => TakeKeepsOwners(w, budgets, call, want, running, now);
    case Start(call, now) => StartKeepsOwners(w, call, now);
    case GiveUp(call, uncertain, now) => FailKeepsOwners(w, call, uncertain, now);
    case PersistResponse(call, settled) =>
      CallHasRow(w, call);
      OwnerMoves(w, call, Responded(settled));
    case Settle(call, now) => SettleKeepsOwners(w, call, now);
    case Crash(call) => CrashKeepsOwners(w, call);
    case ReadForRecovery(call) =>
      RecoveryPlanIsAllowed(w, call);
      OwnerMoves(w, call, RecoveryPlan(w.calls, call));
    case WriteRecovery(call, now) => FailKeepsOwners(w, call, w.owners[call].phase.uncertain, now);
    case RecoverRun(run, cutoff, now) => StaleKeepsOwners(w, run, cutoff, now);
  }

  lemma CallHasRow(w: World, call: CallId)
    requires OwnersMatch(w) && call in w.owners && HasRow(w.owners[call].phase)
    ensures Find(w.calls, call).Some?
    ensures PhaseAllows(w.owners[call].phase, w.calls[Find(w.calls, call).value])
    ensures Sent(w.calls[Find(w.calls, call).value])
  {}

  lemma RequestKeepsOwners(w: World, call: CallId, run: RunId)
    requires OwnersMatch(w) && call !in w.owners
    ensures OwnersMatch(w.(owners := w.owners[call := Owner(run, Fresh)]))
  {
    hide Find, DistinctCalls;
  }

  lemma CrashKeepsOwners(w: World, call: CallId)
    requires OwnersMatch(w) && call in w.owners && !w.owners[call].phase.Responded?
    ensures OwnersMatch(Moved(w, call, Stopped))
  {
    hide OwnersMatch, Find;
    if Find(w.calls, call).Some? {
      RowOf(w, call);
    }
    OwnerMoves(w, call, Stopped);
  }

  lemma TakeKeepsOwners(w: World, budgets: Budgets, call: CallId, want: Reservation, running: bool, now: int)
    requires OwnersMatch(w) && MayStep(w, budgets, TakeReservation(call, want, running, now))
    ensures OwnersMatch(Next(w, budgets, TakeReservation(call, want, running, now)))
  {
    hide OwnersMatch, Find, Total;
    var run := w.owners[call].run;
    if ReserveResultOf(w.calls, call, run, want, budgets[run], running).Granted? {
      ReservationKeepsOwners(w, call, NewCall(call, run, want, now));
    } else {
      if Find(w.calls, call).Some? {
        RowOf(w, call);
      }
      OwnerMoves(w, call, Ended);
    }
  }

  lemma StartKeepsOwners(w: World, call: CallId, now: int)
    requires OwnersMatch(w) && call in w.owners && (w.owners[call].phase.HoldsReservation? || w.owners[call].phase.Calling?)
    ensures OwnersMatch(Moved(w.(calls := StartAttempt(w.calls, call, now)), call, if Startable(w.calls, call) then Calling else Ended))
  {
    hide OwnersMatch, Find;
    CallHasRow(w, call);
    var i := Find(w.calls, call).value;
    if Startable(w.calls, call) {
      OneCallMoves(w, i, w.calls[i].(state := InFlight, attempts := w.calls[i].attempts + 1, updatedAt := now), Calling);
    } else {
      OwnerMoves(w, call, Ended);
    }
  }

  /** Giving a call up, by its owner or on recovery, never touches a settled one. */
  lemma FailKeepsOwners(w: World, call: CallId, uncertain: bool, now: int)
    requires OwnersMatch(w) && call in w.owners && HasRow(w.owners[call].phase) && !w.owners[call].phase.Responded?
    ensures OwnersMatch(Moved(w.(calls := Fail(w.calls, call, uncertain, now)), call, Ended))
  {
    hide OwnersMatch, Find;
    CallHasRow(w, call);
    var i := Find(w.calls, call).value;
    OneCallMoves(w, i, w.calls[i].(state := if uncertain then UnknownOutcome else CallFailed, updatedAt := now), Ended);
  }

  lemma SettleKeepsOwners(w: World, call: CallId, now: int)
    requires OwnersMatch(w) && call in w.owners && w.owners[call].phase.Responded?
    ensures OwnersMatch(w.(calls := Reconcile(w.calls, call, w.owners[call].phase.settled, now)))
  {
    hide OwnersMatch, Find;
    CallHasRow(w, call);
    var i := Find(w.calls, call).value;
    var settled := w.owners[call].phase.settled;
    if ReconcileResultOf(w.calls, call, settled).Charged? {
      var row := Settled(w.calls[i], settled, now);
      OneCallMoves(w, i, row, Responded(settled));
      assert w.owners[call := w.owners[call].(phase := Responded(settled))] == w.owners;
    }
  }

  // ---- budgets ----

  lemma UpdateKeepsBudgets(calls: seq<CallRow>, budgets: Budgets, i: nat, row: CallRow)
    requires BudgetsHold(calls, budgets) && i < |calls| && row.run == calls[i].run
    requires forall measure :: Weight(measure, row) <= Weight(measure, calls[i])
    ensures BudgetsHold(calls[i := row], budgets)
  {
    hide Total, Weight;
    forall measure, run
      ensures Total(measure, calls[i := row], run) <= Total(measure, calls, run)
    {
      TotalOfUpdate(measure, calls, i, row, run);
    }
  }

  lemma StaleKeepsBudgets(calls: seq<CallRow>, budgets: Budgets, run: RunId, cutoff: int, now: int)
    requires BudgetsHold(calls, budgets)
    ensures BudgetsHold(RecoverStale(calls, run, cutoff, now), budgets)
  {
    hide Total;
    forall measure, other
      ensures Total(measure, RecoverStale(calls, run, cutoff, now), other) <= Total(measure, calls, other)
    {
      TotalShrinks(measure, calls, RecoverStale(calls, run, cutoff, now), other);
    }
  }

  lemma ReserveKeepsBudgets(calls: seq<CallRow>, budgets: Budgets, call: CallId, run: RunId, want: Reservation, running: bool, now: int)
    requires BudgetsHold(calls, budgets) && run in budgets
    ensures BudgetsHold(Reserve(calls, call, run, want, budgets[run], running, now), budgets)
  {
    if ReserveResultOf(calls, call, run, want, budgets[run], running).Granted? {
      var row := NewCall(call, run, want, now);
      assert (calls + [row])[..|calls|] == calls;
      assert forall measure, other ::
        Total(measure, calls + [row], other) == Total(measure, calls, other) + (if run == other then Weight(measure, row) else 0);
    }
  }

  lemma FailKeepsBudgets(w: World, budgets: Budgets, call: CallId, uncertain: bool, now: int)
    requires OwnersMatch(w) && BudgetsHold(w.calls, budgets) && call in w.owners && HasRow(w.owners[call].phase)
    requires w.owners[call].phase.Calling? || w.owners[call].phase.HoldsReservation? || w.owners[call].phase.Recovering?
    requires uncertain ==> w.owners[call].phase.Calling? || (w.owners[call].phase.Recovering? && w.owners[call].phase.uncertain)
    ensures BudgetsHold(Fail(w.calls, call, uncertain, now), budgets)
  {
    hide OwnersMatch, Find, BudgetsHold;
    CallHasRow(w, call);
    var i := Find(w.calls, call).value;
    UpdateKeepsBudgets(w.calls, budgets, i, w.calls[i].(state := if uncertain then UnknownOutcome else CallFailed, updatedAt := now));
  }

  lemma StepKeepsBudgets(w: World, budgets: Budgets, step: AuthorityStep)
    requires OwnersMatch(w) && BudgetsHold(w.calls, budgets) && MayStep(w, budgets, step) && Contained(w, step)
    ensures BudgetsHold(Next(w, budgets, step).calls, budgets)
  {
    hide OwnersMatch, Find, BudgetsHold, RecoverStale, Reserve, ReserveResultOf, RecoveryPlan;
    match step
    case TakeReservation(call, want, running, now) =>
      ReserveKeepsBudgets(w.calls, budgets, call, w.owners[call].run, want, running, now);
    case Start(call, now) =>
      CallHasRow(w, call);
      var i := Find(w.calls, call).value;
      if Startable(w.calls, call) {
        UpdateKeepsBudgets(w.calls, budgets, i, w.calls[i].(state := InFlight, attempts := w.calls[i].attempts + 1, updatedAt := now));
      }
    case GiveUp(call, uncertain, now) => FailKeepsBudgets(w, budgets, call, uncertain, now);
    case WriteRecovery(call, now) => FailKeepsBudgets(w, budgets, call, w.owners[call].phase.uncertain, now);
    case Settle(call, now) =>
      CallHasRow(w, call);
      var i := Find(w.calls, call).value;
      if ReconcileResultOf(w.calls, call, w.owners[call].phase.settled).Charged? {
        UpdateKeepsBudgets(w.calls, budgets, i, Settled(w.calls[i], w.owners[call].phase.settled, now));
      }
    case RecoverRun(run, cutoff, now) => StaleKeepsBudgets(w.calls, budgets, run, cutoff, now);
    case _ =>
  }

  // ---- runs ----

  ghost predicate Reaches(w: World, budgets: Budgets, steps: seq<AuthorityStep>, reached: World)
    decreases |steps|
  {
    if steps == [] then reached == w
    else MayStep(w, budgets, steps[0]) && Reaches(Next(w, budgets, steps[0]), budgets, steps[1..], reached)
  }

  /** Along the run every settlement stayed within its reservation. */
  ghost predicate AllContained(w: World, budgets: Budgets, steps: seq<AuthorityStep>)
    decreases |steps|
  {
    steps == []
    || (MayStep(w, budgets, steps[0]) && Contained(w, steps[0]) && AllContained(Next(w, budgets, steps[0]), budgets, steps[1..]))
  }

  lemma {:induction false} RunsKeepOwners(w: World, budgets: Budgets, steps: seq<AuthorityStep>, reached: World)
    requires OwnersMatch(w) && Reaches(w, budgets, steps, reached)
    ensures OwnersMatch(reached)
    decreases |steps|
  {
    hide OwnersMatch, MayStep, Next;
    if steps != [] {
      StepKeepsOwners(w, budgets, steps[0]);
      RunsKeepOwners(Next(w, budgets, steps[0]), budgets, steps[1..], reached);
    }
  }

  lemma {:induction false} RunsKeepBudgets(w: World, budgets: Budgets, steps: seq<AuthorityStep>, reached: World)
    requires OwnersMatch(w) && BudgetsHold(w.calls, budgets) && Reaches(w, budgets, steps, reached)
    requires AllContained(w, budgets, steps)
    ensures BudgetsHold(reached.calls, budgets)
    decreases |steps|
  {
    hide OwnersMatch, MayStep, Next, BudgetsHold, Contained;
    if steps != [] {
      StepKeepsOwners(w, budgets, steps[0]);
      StepKeepsBudgets(w, budgets, steps[0]);
      RunsKeepBudgets(Next(w, budgets, steps[0]), budgets, steps[1..], reached);
    }
  }

  const EMPTY_WORLD := World([], map[])

  /** For all concurrent call histories: limits hold while each settled usage is within its reservation. */
  lemma BudgetIsNeverExceeded(budgets: Budgets, steps: seq<AuthorityStep>, reached: World, run: RunId)
    requires Reaches(EMPTY_WORLD, budgets, steps, reached) && AllContained(EMPTY_WORLD, budgets, steps) && run in budgets
    ensures Total(ActiveCalls, reached.calls, run) <= budgets[run].maxConcurrentCalls
    ensures Total(CommittedTokens, reached.calls, run) <= budgets[run].maxTotalTokens
    ensures Total(CommittedCost, reached.calls, run) <= budgets[run].maxCostMicrousd
  {
    hide Reaches, AllContained;
    RunsKeepBudgets(EMPTY_WORLD, budgets, steps, reached);
  }

  ghost predicate ChargesKept(before: seq<CallRow>, after: seq<CallRow>) {
    && |before| <= |after|
    && forall i | 0 <= i < |before| ::
         && after[i].callId == before[i].callId
         && (before[i].state.CallCompleted? ==> after[i] == before[i])
  }

  lemma StepKeepsCharges(w: World, budgets: Budgets, step: AuthorityStep)
    requires MayStep(w, budgets, step)
    ensures ChargesKept(w.calls, Next(w, budgets, step).calls)
  {
    hide Find, Total, ReserveResultOf, RecoveryPlan;
  }

  lemma ChargesKeptTwice(a: seq<CallRow>, b: seq<CallRow>, c: seq<CallRow>)
    requires ChargesKept(a, b) && ChargesKept(b, c)
    ensures ChargesKept(a, c)
  {}

  /** A completed call is absorbing: charged once, by one completion, whatever follows. */
  lemma {:induction false} CompletedIsChargedOnce(w: World, budgets: Budgets, steps: seq<AuthorityStep>, reached: World)
    requires Reaches(w, budgets, steps, reached)
    ensures ChargesKept(w.calls, reached.calls)
    decreases |steps|
  {
    hide MayStep, Next, ChargesKept;
    if steps == [] {
      ChargesKeptByItself(w.calls);
    } else {
      StepKeepsCharges(w, budgets, steps[0]);
      CompletedIsChargedOnce(Next(w, budgets, steps[0]), budgets, steps[1..], reached);
      ChargesKeptTwice(w.calls, Next(w, budgets, steps[0]).calls, reached.calls);
    }
  }

  lemma ChargesKeptByItself(calls: seq<CallRow>)
    ensures ChargesKept(calls, calls)
  {}

  /** A durable response is never lost to a failure: its call is open or charged for exactly that response. */
  lemma RespondedCallIsCharged(budgets: Budgets, steps: seq<AuthorityStep>, reached: World, call: CallId, now: int)
    requires Reaches(EMPTY_WORLD, budgets, steps, reached)
    requires call in reached.owners && reached.owners[call].phase.Responded?
    ensures
      var settled := reached.owners[call].phase.settled;
      var after := Next(reached, budgets, Settle(call, now)).calls;
      && Find(after, call).Some?
      && after[Find(after, call).value].state.CallCompleted?
      && after[Find(after, call).value].completion == Some(settled.completion)
      && after[Find(after, call).value].totalTokens == settled.totalTokens
      && after[Find(after, call).value].actualCost == settled.cost
  {
    hide Reaches, Find;
    RunsKeepOwners(EMPTY_WORLD, budgets, steps, reached);
    SettleKeepsOwners(reached, call, now);
    CallHasRow(reached, call);
    var after := Next(reached, budgets, Settle(call, now));
    CallHasRow(after, call);
    FindIsUnique(reached.calls, Find(reached.calls, call).value);
    assert after.calls[Find(reached.calls, call).value].callId == call;
    FindIsUnique(after.calls, Find(reached.calls, call).value);
  }
}
