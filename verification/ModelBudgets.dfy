/** The model-call table: reservations, attempts and settlements against a shared run budget. */
module ModelBudgets {
  import opened Contracts
  import opened Events

  type CallId = nat

  datatype CallState = Reserved | InFlight | UnknownOutcome | CallFailed | CallCompleted

  datatype CallRow = CallRow(
    callId: CallId,
    run: RunId,
    state: CallState,
    reservedInput: nat,
    reservedOutput: nat,
    reservedCost: nat,
    attempts: nat,
    updatedAt: int,
    totalTokens: nat,
    actualCost: nat,
    completion: Option<nat>)

  // ---- what a run has committed ----

  predicate IsActive(row: CallRow) {
    row.state.Reserved? || row.state.InFlight?
  }

  function ReservedTokens(row: CallRow): nat {
    row.reservedInput + row.reservedOutput
  }

  function TokensOf(row: CallRow): nat {
    match row.state
    case CallCompleted => row.totalTokens
    case CallFailed => 0
    case _ => ReservedTokens(row)
  }

  function CostOf(row: CallRow): nat {
    match row.state
    case CallCompleted => row.actualCost
    case CallFailed => 0
    case _ => row.reservedCost
  }

  datatype Measure = ActiveCalls | CommittedTokens | CommittedCost

  function Weight(measure: Measure, row: CallRow): nat {
    match measure
    case ActiveCalls => if IsActive(row) then 1 else 0
    case CommittedTokens => TokensOf(row)
    case CommittedCost => CostOf(row)
  }

  /** One column of `_model_budget_status`. */
  function Total(measure: Measure, calls: seq<CallRow>, run: RunId): nat {
    if calls == [] then 0
    else
      Total(measure, calls[..|calls| - 1], run)
      + (if calls[|calls| - 1].run == run then Weight(measure, calls[|calls| - 1]) else 0)
  }

  lemma {:induction false} TotalOfUpdate(measure: Measure, calls: seq<CallRow>, i: nat, row: CallRow, run: RunId)
    requires i < |calls| && row.run == calls[i].run
    ensures Total(measure, calls[i := row], run)
      == Total(measure, calls, run) + (if row.run == run then Weight(measure, row) - Weight(measure, calls[i]) else 0)
  {
    var last := |calls| - 1;
    if i < last {
      assert calls[i := row][..last] == calls[..last][i := row];
      TotalOfUpdate(measure, calls[..last], i, row, run);
    } else {
      assert calls[i := row][..last] == calls[..last];
    }
  }

  lemma {:induction false} TotalShrinks(measure: Measure, before: seq<CallRow>, after: seq<CallRow>, run: RunId)
    requires |before| == |after|
    requires forall i | 0 <= i < |before| ::
      before[i].run == after[i].run && Weight(measure, after[i]) <= Weight(measure, before[i])
    ensures Total(measure, after, run) <= Total(measure, before, run)
  {
    if before != [] {
      TotalShrinks(measure, before[..|before| - 1], after[..|after| - 1], run);
    }
  }

  // ---- transactions ----

  ghost predicate DistinctCalls(calls: seq<CallRow>) {
    forall i, j | 0 <= i < j < |calls| :: calls[i].callId != calls[j].callId
  }

  function Find(calls: seq<CallRow>, id: CallId): (index: Option<nat>)
    ensures index.Some? ==> index.value < |calls| && calls[index.value].callId == id
    ensures index.None? ==> forall row | row in calls :: row.callId != id
  {
    if calls == [] then None
    else if calls[|calls| - 1].callId == id then Some(|calls| - 1)
    else
      var index := Find(calls[..|calls| - 1], id);
      assert calls == calls[..|calls| - 1] + [calls[|calls| - 1]];
      index
  }

  datatype Reservation = Reservation(inputTokens: int, outputTokens: int, cost: int)

  datatype ReserveResult =
    | Granted
    | NegativeReservation
    | RunNotRunning
    | CallExists
    | ConcurrencyExhausted
    | TokensExhausted
    | CostExhausted

  function ReserveResultOf(calls: seq<CallRow>, id: CallId, run: RunId, want: Reservation, budget: ModelBudget, running: bool)
    : ReserveResult
  {
    if want.inputTokens < 0 || want.outputTokens < 0 || want.cost < 0 then NegativeReservation
    else if !running then RunNotRunning
    else if Find(calls, id).Some? then CallExists
    else if Total(ActiveCalls, calls, run) >= budget.maxConcurrentCalls then ConcurrencyExhausted
    else if Total(CommittedTokens, calls, run) + want.inputTokens + want.outputTokens > budget.maxTotalTokens then TokensExhausted
    else if Total(CommittedCost, calls, run) + want.cost > budget.maxCostMicrousd then CostExhausted
    else Granted
  }

  function NewCall(id: CallId, run: RunId, want: Reservation, now: int): CallRow
    requires want.inputTokens >= 0 && want.outputTokens >= 0 && want.cost >= 0
  {
    CallRow(id, run, Reserved, want.inputTokens, want.outputTokens, want.cost, 0, now, 0, 0, None)
  }

  function Reserve(calls: seq<CallRow>, id: CallId, run: RunId, want: Reservation, budget: ModelBudget, running: bool, now: int)
    : seq<CallRow>
  {
    if ReserveResultOf(calls, id, run, want, budget, running).Granted? then calls + [NewCall(id, run, want, now)] else calls
  }

  predicate Startable(calls: seq<CallRow>, id: CallId) {
    Find(calls, id).Some? && IsActive(calls[Find(calls, id).value])
  }

  function StartAttempt(calls: seq<CallRow>, id: CallId, now: int): seq<CallRow> {
    if Startable(calls, id) then
      var i := Find(calls, id).value;
      calls[i := calls[i].(state := InFlight, attempts := calls[i].attempts + 1, updatedAt := now)]
    else calls
  }

  function Fail(calls: seq<CallRow>, id: CallId, uncertain: bool, now: int): seq<CallRow> {
    match Find(calls, id)
    case None => calls
    case Some(i) =>
      if calls[i].state.CallCompleted? then calls
      else calls[i := calls[i].(state := if uncertain then UnknownOutcome else CallFailed, updatedAt := now)]
  }

  /** An old reservation was never sent; an old attempt may have been. */
  function Quarantined(row: CallRow, run: RunId, cutoff: int, now: int): CallRow {
    if row.run == run && row.updatedAt <= cutoff && row.state.Reserved? then row.(state := CallFailed, updatedAt := now)
    else if row.run == run && row.updatedAt <= cutoff && row.state.InFlight? then row.(state := UnknownOutcome, updatedAt := now)
    else row
  }

  function RecoverStale(calls: seq<CallRow>, run: RunId, cutoff: int, now: int): (after: seq<CallRow>)
    ensures |after| == |calls|
    ensures forall i | 0 <= i < |calls| :: after[i] == Quarantined(calls[i], run, cutoff, now)
  {
    seq(|calls|, i requires 0 <= i < |calls| => Quarantined(calls[i], run, cutoff, now))
  }

  predicate IsStale(row: CallRow, run: RunId, cutoff: int, state: CallState) {
    row.run == run && row.state == state && row.updatedAt <= cutoff
  }

  function CountStale(calls: seq<CallRow>, run: RunId, cutoff: int, state: CallState): nat {
    if calls == [] then 0
    else
      CountStale(calls[..|calls| - 1], run, cutoff, state) + (if IsStale(calls[|calls| - 1], run, cutoff, state) then 1 else 0)
  }

  datatype Settlement = Settlement(completion: nat, totalTokens: nat, cost: nat)

  datatype ReconcileResult = Charged | AlreadyCharged | UnknownCall | ChargedByAnother

  function ReconcileResultOf(calls: seq<CallRow>, id: CallId, settled: Settlement): ReconcileResult {
    match Find(calls, id)
    case None => UnknownCall
    case Some(i) =>
      if !calls[i].state.CallCompleted? then Charged
      else if calls[i].completion == Some(settled.completion) then AlreadyCharged
      else ChargedByAnother
  }

  function Settled(row: CallRow, settled: Settlement, now: int): CallRow {
    row.(state := CallCompleted, totalTokens := settled.totalTokens, actualCost := settled.cost,
         completion := Some(settled.completion), updatedAt := now)
  }

  function Reconcile(calls: seq<CallRow>, id: CallId, settled: Settlement, now: int): seq<CallRow> {
    if ReconcileResultOf(calls, id, settled).Charged? then
      var i := Find(calls, id).value;
      calls[i := Settled(calls[i], settled, now)]
    else calls
  }

  predicate WithinReservation(row: CallRow, settled: Settlement) {
    settled.totalTokens <= ReservedTokens(row) && settled.cost <= row.reservedCost
  }

  /** Settling one open call within its reservation raises no total, unless the call had been given up. */
  lemma ReconcileWithinReservation(calls: seq<CallRow>, id: CallId, settled: Settlement, now: int, run: RunId)
    requires Find(calls, id).Some? && calls[Find(calls, id).value].run == run
    requires !calls[Find(calls, id).value].state.CallCompleted? && WithinReservation(calls[Find(calls, id).value], settled)
    ensures
      var after := Reconcile(calls, id, settled, now);
      var failed := calls[Find(calls, id).value].state.CallFailed?;
      && (Total(CommittedTokens, after, run) <= Total(CommittedTokens, calls, run) <==> !failed || settled.totalTokens == 0)
      && (Total(CommittedCost, after, run) <= Total(CommittedCost, calls, run) <==> !failed || settled.cost == 0)
      && Total(ActiveCalls, after, run) <= Total(ActiveCalls, calls, run)
  {
    var i := Find(calls, id).value;
    TotalOfUpdate(CommittedTokens, calls, i, Settled(calls[i], settled, now), run);
    TotalOfUpdate(CommittedCost, calls, i, Settled(calls[i], settled, now), run);
    TotalOfUpdate(ActiveCalls, calls, i, Settled(calls[i], settled, now), run);
  }

  lemma TotalOfPair(measure: Measure, a: CallRow, b: CallRow, run: RunId)
    requires a.run == run && b.run == run
    ensures Total(measure, [a], run) == Weight(measure, a)
    ensures Total(measure, [a, b], run) == Weight(measure, a) + Weight(measure, b)
  {
    assert [a][..0] == [] && [a, b][..1] == [a];
  }

  lemma FindInPair(a: CallRow, b: CallRow)
    requires a.callId != b.callId
    ensures Find([a], a.callId) == Some(0) && Find([a], b.callId) == None
    ensures Find([a, b], a.callId) == Some(0)
  {
    assert [a, b][..1] == [a] && [a][..0] == [];
  }

  /**
    The table alone does not protect the budget: a failed call frees its reservation, another call takes
    it, and the first one may still be settled within what it had reserved.
   */
  lemma FailedCallCanOverspend(run: RunId, want: Reservation, budget: ModelBudget, settled: Settlement, now: int)
    requires want.inputTokens >= 0 && want.outputTokens >= 0 && want.cost == 0
    requires budget.maxConcurrentCalls > 0 && budget.maxTotalTokens == want.inputTokens + want.outputTokens
    requires 0 < settled.totalTokens <= budget.maxTotalTokens && settled.cost == 0
    ensures
      var failed := Fail(Reserve([], 1, run, want, budget, true, now), 1, false, now);
      var retaken := Reserve(failed, 2, run, want, budget, true, now);
      var after := Reconcile(retaken, 1, settled, now);
      && ReserveResultOf(failed, 2, run, want, budget, true).Granted?
      && ReconcileResultOf(retaken, 1, settled).Charged?
      && Total(CommittedTokens, retaken, run) == budget.maxTotalTokens
      && Total(CommittedTokens, after, run) > budget.maxTotalTokens
  {
    hide Find, Total;
    var first, second := NewCall(1, run, want, now), NewCall(2, run, want, now);
    var gone := first.(state := CallFailed);
    EmptyTable(run);
    FindInPair(first, second);
    FindInPair(gone, second);
    assert Reserve([], 1, run, want, budget, true, now) == [first];
    assert Fail([first], 1, false, now) == [gone];
    forall measure
      ensures Total(measure, [gone], run) == Weight(measure, gone)
      ensures Total(measure, [gone, second], run) == Weight(measure, gone) + Weight(measure, second)
    {
      TotalOfPair(measure, gone, second, run);
    }
    assert Reserve([gone], 2, run, want, budget, true, now) == [gone, second];
    TotalOfUpdate(CommittedTokens, [gone, second], 0, Settled(gone, settled, now), run);
  }

  lemma EmptyTable(run: RunId)
    ensures Find([], 1) == None && forall measure :: Total(measure, [], run) == 0
  {}

  // ---- the table as it is kept ----

  datatype BudgetStatus = BudgetStatus(activeCalls: nat, committedTokens: nat, committedCost: nat)

  class ModelCallTable {
    var calls: seq<CallRow>

    constructor ()
      ensures calls == []
    {
      calls := [];
    }

    /** One pass over the rows of the run. */
    method Status(run: RunId) returns (status: BudgetStatus)
      ensures status == BudgetStatus(Total(ActiveCalls, calls, run), Total(CommittedTokens, calls, run),
                                     Total(CommittedCost, calls, run))
    {
      var active, tokens, cost := 0, 0, 0;
      for i := 0 to |calls|
        invariant active == Total(ActiveCalls, calls[..i], run)
        invariant tokens == Total(CommittedTokens, calls[..i], run)
        invariant cost == Total(CommittedCost, calls[..i], run)
      {
        assert calls[..i + 1][..i] == calls[..i];
        if calls[i].run == run {
          active := active + (if IsActive(calls[i]) then 1 else 0);
          tokens := tokens + TokensOf(calls[i]);
          cost := cost + CostOf(calls[i]);
        }
      }
      assert calls[..|calls|] == calls;
      return BudgetStatus(active, tokens, cost);
    }

    method ReserveModelCall(id: CallId, run: RunId, want: Reservation, budget: ModelBudget, running: bool, now: int)
      returns (result: ReserveResult)
      modifies this
      ensures result == ReserveResultOf(old(calls), id, run, want, budget, running)
      ensures calls == Reserve(old(calls), id, run, want, budget, running, now)
      ensures !result.Granted? ==> calls == old(calls)
      ensures result.Granted? ==>
        && |calls| == |old(calls)| + 1 && calls[..|old(calls)|] == old(calls)
        && calls[|old(calls)|] ==
             CallRow(id, run, Reserved, want.inputTokens, want.outputTokens, want.cost, 0, now, 0, 0, None)
    {
      if want.inputTokens < 0 || want.outputTokens < 0 || want.cost < 0 {
        return NegativeReservation;
      }
      if !running {
        return RunNotRunning;
      }
      if Find(calls, id).Some? {
        return CallExists;
      }
      var status := Status(run);
      if status.activeCalls >= budget.maxConcurrentCalls {
        return ConcurrencyExhausted;
      }
      if status.committedTokens + want.inputTokens + want.outputTokens > budget.maxTotalTokens {
        return TokensExhausted;
      }
      if status.committedCost + want.cost > budget.maxCostMicrousd {
        return CostExhausted;
      }
      calls := calls + [NewCall(id, run, want, now)];
      return Granted;
    }

    method StartModelCallAttempt(id: CallId, now: int) returns (attempt: Option<nat>)
      modifies this
      ensures attempt.Some? <==> Startable(old(calls), id)
      ensures attempt.Some? ==> attempt.value == old(calls)[Find(old(calls), id).value].attempts + 1
      ensures calls == StartAttempt(old(calls), id, now)
    {
      var index := Find(calls, id);
      if index.None? || !IsActive(calls[index.value]) {
        return None;
      }
      var row := calls[index.value];
      attempt := Some(row.attempts + 1);
      calls := calls[index.value := row.(state := InFlight, attempts := row.attempts + 1, updatedAt := now)];
    }

    method FailModelCall(id: CallId, uncertain: bool, now: int) returns (known: bool)
      modifies this
      ensures known <==> Find(old(calls), id).Some?
      ensures calls == Fail(old(calls), id, uncertain, now)
    {
      var index := Find(calls, id);
      known := index.Some?;
      if known && !calls[index.value].state.CallCompleted? {
        var state := if uncertain then UnknownOutcome else CallFailed;
        calls := calls[index.value := calls[index.value].(state := state, updatedAt := now)];
      }
    }

    /** Two updates in one transaction: unsent reservations, then attempts of unknown outcome; both are counted. */
    method RecoverStaleModelCalls(run: RunId, cutoff: int, now: int) returns (failed: nat, unknown: nat)
      modifies this
      ensures calls == RecoverStale(old(calls), run, cutoff, now)
      ensures failed == CountStale(old(calls), run, cutoff, Reserved)
      ensures unknown == CountStale(old(calls), run, cutoff, InFlight)
    {
      hide CountStale;
      failed := FailUnsent(run, cutoff, now);
      unknown := QuarantineSent(run, cutoff, now);
      UnsentLeavesSent(old(calls), run, cutoff, now);
    }

    method FailUnsent(run: RunId, cutoff: int, now: int) returns (failed: nat)
      modifies this
      ensures calls == UnsentFailed(old(calls), run, cutoff, now)
      ensures failed == CountStale(old(calls), run, cutoff, Reserved)
    {
      failed := 0;
      for i := 0 to |calls|
        invariant |calls| == |old(calls)|
        invariant forall j | 0 <= j < |calls| :: calls[j] == if j < i then Unsent(old(calls)[j], run, cutoff, now) else old(calls)[j]
        invariant failed == CountStale(old(calls)[..i], run, cutoff, Reserved)
      {
        assert old(calls)[..i + 1][..i] == old(calls)[..i];
        if IsStale(calls[i], run, cutoff, Reserved) {
          calls := calls[i := calls[i].(state := CallFailed, updatedAt := now)];
          failed := failed + 1;
        }
      }
      assert old(calls)[..|calls|] == old(calls);
    }

    method QuarantineSent(run: RunId, cutoff: int, now: int) returns (unknown: nat)
      modifies this
      ensures |calls| == |old(calls)|
      ensures forall j | 0 <= j < |calls| :: calls[j] == Lost(old(calls)[j], run, cutoff, now)
      ensures unknown == CountStale(old(calls), run, cutoff, InFlight)
    {
      unknown := 0;
      for i := 0 to |calls|
        invariant |calls| == |old(calls)|
        invariant forall j | 0 <= j < |calls| :: calls[j] == if j < i then Lost(old(calls)[j], run, cutoff, now) else old(calls)[j]
        invariant unknown == CountStale(old(calls)[..i], run, cutoff, InFlight)
      {
        assert old(calls)[..i + 1][..i] == old(calls)[..i];
        if IsStale(calls[i], run, cutoff, InFlight) {
          calls := calls[i := calls[i].(state := UnknownOutcome, updatedAt := now)];
          unknown := unknown + 1;
        }
      }
      assert old(calls)[..|calls|] == old(calls);
    }

    method ReconcileModelCall(id: CallId, settled: Settlement, now: int) returns (result: ReconcileResult)
      modifies this
      ensures result == ReconcileResultOf(old(calls), id, settled)
      ensures calls == Reconcile(old(calls), id, settled, now)
    {
      var index := Find(calls, id);
      if index.None? {
        return UnknownCall;
      }
      var row := calls[index.value];
      if row.state.CallCompleted? {
        return if row.completion == Some(settled.completion) then AlreadyCharged else ChargedByAnother;
      }
      calls := calls[index.value := Settled(row, settled, now)];
      return Charged;
    }
  }

  function Unsent(row: CallRow, run: RunId, cutoff: int, now: int): CallRow {
    if IsStale(row, run, cutoff, Reserved) then row.(state := CallFailed, updatedAt := now) else row
  }

  function Lost(row: CallRow, run: RunId, cutoff: int, now: int): CallRow {
    if IsStale(row, run, cutoff, InFlight) then row.(state := UnknownOutcome, updatedAt := now) else row
  }

  function UnsentFailed(calls: seq<CallRow>, run: RunId, cutoff: int, now: int): (after: seq<CallRow>)
    ensures |after| == |calls| && forall j | 0 <= j < |calls| :: after[j] == Unsent(calls[j], run, cutoff, now)
  {
    seq(|calls|, j requires 0 <= j < |calls| => Unsent(calls[j], run, cutoff, now))
  }

  /** Failing the unsent calls changes nothing about those in flight. */
  lemma {:induction false} UnsentLeavesSent(calls: seq<CallRow>, run: RunId, cutoff: int, now: int)
    ensures CountStale(UnsentFailed(calls, run, cutoff, now), run, cutoff, InFlight) == CountStale(calls, run, cutoff, InFlight)
  {
    if calls != [] {
      var last := |calls| - 1;
      UnsentLeavesSent(calls[..last], run, cutoff, now);
      assert UnsentFailed(calls, run, cutoff, now)[..last] == UnsentFailed(calls[..last], run, cutoff, now);
    }
  }
}
