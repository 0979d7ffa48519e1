/** What reservations, attempts and settlements do to the rows and totals of the model-call table. */
module ModelLaws {
  import opened Contracts
  import opened Events
  import opened ModelBudgets
  import opened ModelCompletion
  import opened UsagePricing

  predicate IsOpen(row: CallRow) {
    row.state == Reserved || row.state == InFlight || row.state == UnknownOutcome
  }

  /** An open call weighs what it reserved, a completed one what it was charged, a failed one nothing. */
  lemma RowsWeigh(row: CallRow)
    ensures Weight(ActiveCalls, row) == (if row.state == Reserved || row.state == InFlight then 1 else 0)
    ensures Weight(CommittedTokens, row) ==
      if IsOpen(row) then row.reservedInput + row.reservedOutput else if row.state == CallCompleted then row.totalTokens else 0
    ensures Weight(CommittedCost, row) ==
      if IsOpen(row) then row.reservedCost else if row.state == CallCompleted then row.actualCost else 0
  {}

  lemma TotalOfAppend(measure: Measure, calls: seq<CallRow>, row: CallRow, run: RunId)
    ensures Total(measure, calls + [row], run) == Total(measure, calls, run) + (if row.run == run then Weight(measure, row) else 0)
  {
    assert (calls + [row])[..|calls|] == calls;
  }

  /** A total covers the weight of every row of the run. */
  lemma {:induction false} TotalCoversRow(measure: Measure, calls: seq<CallRow>, i: nat)
    requires i < |calls|
    ensures Weight(measure, calls[i]) <= Total(measure, calls, calls[i].run)
  {
    var last := |calls| - 1;
    if i < last {
      TotalCoversRow(measure, calls[..last], i);
    }
  }

  // ---- reserving ----

  /** A reservation is refused for exactly the first reason that applies. */
  lemma ReservationIsRefusedIff(calls: seq<CallRow>, id: CallId, run: RunId, want: Reservation, budget: ModelBudget, running: bool)
    ensures
      var result := ReserveResultOf(calls, id, run, want, budget, running);
      var negative := want.inputTokens < 0 || want.outputTokens < 0 || want.cost < 0;
      var known := exists row :: row in calls && row.callId == id;
      var busy := Total(ActiveCalls, calls, run) >= budget.maxConcurrentCalls;
      var tokens := Total(CommittedTokens, calls, run) + want.inputTokens + want.outputTokens > budget.maxTotalTokens;
      var cost := Total(CommittedCost, calls, run) + want.cost > budget.maxCostMicrousd;
      && (result == NegativeReservation <==> negative)
      && (result == RunNotRunning <==> !negative && !running)
      && (result == CallExists <==> !negative && running && known)
      && (result == ConcurrencyExhausted <==> !negative && running && !known && busy)
      && (result == TokensExhausted <==> !negative && running && !known && !busy && tokens)
      && (result == CostExhausted <==> !negative && running && !known && !busy && !tokens && cost)
  {}

  /**
    A granted reservation adds one row that records what was asked for, and charges the run one active
    call, the tokens and the cost at once; the totals of every other run stay.
   */
  lemma ReservationCharges(calls: seq<CallRow>, id: CallId, run: RunId, want: Reservation, budget: ModelBudget, running: bool, now: int)
    requires ReserveResultOf(calls, id, run, want, budget, running).Granted?
    ensures
      var after := Reserve(calls, id, run, want, budget, running, now);
      && |after| == |calls| + 1 && after[..|calls|] == calls
      && var row := after[|calls|];
         && row.callId == id && row.run == run && row.state == Reserved && row.attempts == 0 && row.updatedAt == now
         && row.reservedInput == want.inputTokens && row.reservedOutput == want.outputTokens && row.reservedCost == want.cost
         && row.completion == None
    ensures
      var after := Reserve(calls, id, run, want, budget, running, now);
      && Total(ActiveCalls, after, run) == Total(ActiveCalls, calls, run) + 1 <= budget.maxConcurrentCalls
      && Total(CommittedTokens, after, run)
           == Total(CommittedTokens, calls, run) + want.inputTokens + want.outputTokens <= budget.maxTotalTokens
      && Total(CommittedCost, after, run) == Total(CommittedCost, calls, run) + want.cost <= budget.maxCostMicrousd
      && forall other, measure | other != run :: Total(measure, after, other) == Total(measure, calls, other)
  {
    hide Total, Find;
    var row := Reserve(calls, id, run, want, budget, running, now)[|calls|];
    forall other, measure
      ensures Total(measure, calls + [row], other) == Total(measure, calls, other) + (if row.run == other then Weight(measure, row) else 0)
    {
      TotalOfAppend(measure, calls, row, other);
    }
  }

  /** While a call of the run is open, nothing is granted that does not fit beside what it reserved. */
  lemma OpenReservationsShareTheLimit(calls: seq<CallRow>, i: nat, id: CallId, want: Reservation, budget: ModelBudget, running: bool)
    requires i < |calls| && IsOpen(calls[i])
    requires ReserveResultOf(calls, id, calls[i].run, want, budget, running).Granted?
    ensures calls[i].reservedCost + want.cost <= budget.maxCostMicrousd
    ensures calls[i].reservedInput + calls[i].reservedOutput + want.inputTokens + want.outputTokens <= budget.maxTotalTokens
  {
    hide Total, Find;
    TotalCoversRow(CommittedCost, calls, i);
    TotalCoversRow(CommittedTokens, calls, i);
    RowsWeigh(calls[i]);
  }

  /** Two reservations whose costs together exceed the limit are never both granted while the first stays open. */
  lemma NeverBothGranted(calls: seq<CallRow>, first: CallId, second: CallId, run: RunId, want: Reservation, wanted: Reservation,
                         budget: ModelBudget, later: seq<CallRow>, i: nat, now: int)
    requires ReserveResultOf(calls, first, run, want, budget, true).Granted?
    requires i < |later| && IsOpen(later[i]) && later[i].run == run
    requires later[i].reservedCost == Reserve(calls, first, run, want, budget, true, now)[|calls|].reservedCost
    requires wanted.cost >= 0 && want.cost + wanted.cost > budget.maxCostMicrousd
    ensures !ReserveResultOf(later, second, run, wanted, budget, true).Granted?
  {
    hide Total, Find;
    ReservationCharges(calls, first, run, want, budget, true, now);
    if ReserveResultOf(later, second, run, wanted, budget, true).Granted? {
      OpenReservationsShareTheLimit(later, i, second, wanted, budget, true);
    }
  }

  // ---- the other transactions, on the one row of the call ----

  lemma {:induction false} FindsItsRow(calls: seq<CallRow>, i: nat)
    requires DistinctCalls(calls) && i < |calls|
    ensures Find(calls, calls[i].callId) == Some(i)
  {
    var last := |calls| - 1;
    if i < last {
      assert calls[i].callId != calls[last].callId;
      FindsItsRow(calls[..last], i);
    }
  }

  /** A call that waits or runs starts another attempt and is in flight; no other call can start. */
  lemma AttemptStarts(calls: seq<CallRow>, i: nat, now: int)
    requires DistinctCalls(calls) && i < |calls|
    ensures
      var row := calls[i];
      var starts := row.state == Reserved || row.state == InFlight;
      && (Startable(calls, row.callId) <==> starts)
      && StartAttempt(calls, row.callId, now) ==
           if starts then calls[i := row.(state := InFlight, attempts := row.attempts + 1, updatedAt := now)] else calls
  {
    FindsItsRow(calls, i);
  }

  /** A failure is final when the outcome is known, and keeps the reservation when it is not; a completed call stays. */
  lemma FailureMarks(calls: seq<CallRow>, i: nat, uncertain: bool, now: int)
    requires DistinctCalls(calls) && i < |calls|
    ensures Fail(calls, calls[i].callId, uncertain, now) ==
      if calls[i].state == CallCompleted then calls
      else if uncertain then calls[i := calls[i].(state := UnknownOutcome, updatedAt := now)]
      else calls[i := calls[i].(state := CallFailed, updatedAt := now)]
  {
    FindsItsRow(calls, i);
  }

  /** A failed call gives back what it had reserved; one of unknown outcome keeps it. */
  lemma FailureReleases(calls: seq<CallRow>, i: nat, uncertain: bool, now: int, measure: Measure)
    requires DistinctCalls(calls) && i < |calls| && IsOpen(calls[i])
    ensures
      var after := Fail(calls, calls[i].callId, uncertain, now);
      Total(measure, after, calls[i].run) == Total(measure, calls, calls[i].run)
        - (if uncertain && measure != ActiveCalls then 0 else Weight(measure, calls[i]))
  {
    FailureMarks(calls, i, uncertain, now);
    var row := calls[i].(state := if uncertain then UnknownOutcome else CallFailed, updatedAt := now);
    TotalOfUpdate(measure, calls, i, row, calls[i].run);
    RowsWeigh(row);
    RowsWeigh(calls[i]);
  }

  /** A settlement completes any call that is not completed yet and records what it cost; a repeated one changes nothing. */
  lemma SettlementRecords(calls: seq<CallRow>, i: nat, settled: Settlement, now: int)
    requires DistinctCalls(calls) && i < |calls|
    ensures
      var row, after, result := calls[i], Reconcile(calls, calls[i].callId, settled, now), ReconcileResultOf(calls, calls[i].callId, settled);
      && (result == Charged <==> row.state != CallCompleted)
      && (result == AlreadyCharged <==> row.state == CallCompleted && row.completion == Some(settled.completion))
      && (result == ChargedByAnother <==> row.state == CallCompleted && row.completion != Some(settled.completion))
      && after ==
           if row.state == CallCompleted then calls
           else calls[i := CallRow(row.callId, row.run, CallCompleted, row.reservedInput, row.reservedOutput, row.reservedCost, row.attempts,
                                   now, settled.totalTokens, settled.cost, Some(settled.completion))]
  {
    FindsItsRow(calls, i);
  }

  /** Only calls of the run that were not touched since the cutoff are given up: unsent ones fail, sent ones become unknown. */
  lemma SweepGivesUp(calls: seq<CallRow>, run: RunId, cutoff: int, now: int, i: nat)
    requires i < |calls|
    ensures |RecoverStale(calls, run, cutoff, now)| == |calls|
    ensures
      var row := calls[i];
      RecoverStale(calls, run, cutoff, now)[i] ==
        if row.run != run || cutoff < row.updatedAt then row
        else if row.state == Reserved then row.(state := CallFailed, updatedAt := now)
        else if row.state == InFlight then row.(state := UnknownOutcome, updatedAt := now)
        else row
  {}

  // ---- the authority ----

  /** Another process's recovery of this run reaches a row last touched at `now`. */
  predicate Reaches(sweep: Option<Sweep>, run: RunId, now: int) {
    sweep.Some? && sweep.value.run == run && sweep.value.cutoff >= now
  }

  /** The attempt is started, audited, fails in a way that may be retried, and the retry is audited. */
  predicate GoesOn(env: Environment, k: nat, limit: nat, run: RunId, now: int) {
    && k < limit && !Reaches(env.sweptBefore(k), run, now) && env.audited(k)
    && env.transport(k).Fails? && env.transport(k).retryable && env.retryAudited(k)
    && (k > 1 ==> !Reaches(env.sweptDuring(k - 1), run, now))
  }

  /** The loop ends at the first attempt that does not go on, for the reason it reports. */
  lemma CompletionTellsWhy(env: Environment, limit: nat, run: RunId, now: int)
    requires limit > 0
    ensures
      var a := LastAttempt(env, 1, limit, run, now);
      && 1 <= a <= limit
      && (forall k | 1 <= k < a :: GoesOn(env, k, limit, run, now))
      && match OutcomeOf(env, a, limit, run, now)
         case Response(b) => b == a && env.audited(a) && env.transport(a) == Responds && !Reaches(env.sweptBefore(a), run, now)
         case NotStartable(b) => b == a && (Reaches(env.sweptBefore(a), run, now) || (a > 1 && Reaches(env.sweptDuring(a - 1), run, now)))
         case AuditRefused(b) => b == a && !env.audited(a)
         case Interrupted(b) => b == a && env.audited(a) && env.transport(a).Fails? && env.transport(a).retryable && a < limit && !env.retryAudited(a)
         case ModelCallFailed(b, uncertain) =>
           b == a && env.audited(a) && env.transport(a).Fails? && (!env.transport(a).retryable || a == limit)
           && uncertain == env.transport(a).uncertain
         case NotReserved(_) => false
  {
    var a := LastAttempt(env, 1, limit, run, now);
    EarlierAttemptsGoOn(env, 1, limit, run, now);
    LastAttemptStops(env, 1, limit, run, now);
  }

  lemma {:induction false} EarlierAttemptsGoOn(env: Environment, from: nat, limit: nat, run: RunId, now: int)
    requires 1 <= from <= limit
    ensures from <= LastAttempt(env, from, limit, run, now) <= limit
    ensures forall k | from <= k < LastAttempt(env, from, limit, run, now) :: GoesOn(env, k, limit, run, now)
    decreases limit - from
  {
    if LastAttempt(env, from, limit, run, now) != from {
      EarlierAttemptsGoOn(env, from + 1, limit, run, now);
    }
  }

  lemma {:induction false} LastAttemptStops(env: Environment, from: nat, limit: nat, run: RunId, now: int)
    requires 1 <= from <= limit
    ensures
      var a := LastAttempt(env, from, limit, run, now);
      IsTaken(env, a, run, now) || !env.audited(a) || !Retries(env, a, limit) || !env.retryAudited(a)
    decreases limit - from
  {
    if !IsTaken(env, from, run, now) && env.audited(from) && Retries(env, from, limit) && env.retryAudited(from) {
      LastAttemptStops(env, from + 1, limit, run, now);
    }
  }

  /** After a crash only a call that was never sent may be tried again. */
  lemma RecoveryTells(calls: seq<CallRow>, i: nat)
    requires DistinctCalls(calls) && i < |calls|
    ensures
      var recovery, row := RecoveryOf(calls, calls[i].callId), calls[i];
      && (recovery == RetryIsSafe <==> row.attempts == 0 && (row.state == Reserved || row.state == CallFailed))
      && (recovery != RetryIsSafe ==> recovery == ResamplingIsUnsafe(row.state == CallFailed))
  {
    FindsItsRow(calls, i);
  }

  // ---- usage and prices ----

  /** A field counts as reported only when it is a number that is not negative. */
  function Reported(field: Option<int>, otherwise: nat): nat {
    if field.Some? && field.value >= 0 then field.value else otherwise
  }

  /**
    What is not reported is taken to be the reservation, an unreported miss is the rest of the prompt, and a
    split that does not add up is charged as misses in full.
   */
  lemma UsageIsAssumedPessimistically(raw: RawUsage, input: nat, output: nat)
    ensures
      var usage := Normalize(raw, input, output).0;
      var prompt, hit := Reported(raw.prompt, input), Reported(raw.cacheHit, 0);
      var miss := Reported(raw.cacheMiss, if hit < prompt then prompt - hit else 0);
      && usage.completion == Reported(raw.completion, output)
      && (hit + miss == prompt ==> usage.prompt == prompt && usage.cacheHit == hit && usage.cacheMiss == miss)
      && (hit + miss != prompt ==>
            usage.cacheHit == 0 && usage.cacheMiss == usage.prompt && usage.prompt == if hit + miss < prompt then prompt else hit + miss)
      && usage.total >= usage.prompt + usage.completion
      && (usage.total == usage.prompt + usage.completion || (raw.total.Some? && usage.total == raw.total.value))
      && (raw.total.Some? && raw.total.value >= usage.prompt + usage.completion ==> usage.total == raw.total.value)
  {}

  /** Hits, misses and output are each charged at their own price, rounded up once. */
  lemma CostCoversUsage(card: PriceCard, usage: Usage)
    ensures
      var cost := ActualCost(card, usage);
      var bill := usage.cacheHit * card.cacheHit + usage.cacheMiss * card.cacheMiss + usage.completion * card.output;
      bill <= cost * 1_000_000 && (cost > 0 ==> (cost - 1) * 1_000_000 < bill)
  {
    hide CeilMicrousd;
  }

  /** A reservation is priced as if nothing were cached. */
  lemma EstimateCoversMisses(card: PriceCard, input: nat, output: nat)
    ensures
      var cost, bill := Estimate(card, input, output), input * card.cacheMiss + output * card.output;
      bill <= cost * 1_000_000 && (cost > 0 ==> (cost - 1) * 1_000_000 < bill)
  {
    hide CeilMicrousd;
  }

  /** The price list, in micro-dollars per million tokens; there is no price for any other model. */
  lemma PriceList(model: Model)
    ensures model == DeepSeekFlash ==> PriceOf(model) == Some(PriceCard(2_800, 140_000, 280_000))
    ensures model == DeepSeekPro ==> PriceOf(model) == Some(PriceCard(3_625, 435_000, 870_000))
    ensures model.OtherModel? ==> PriceOf(model) == None
  {}

  /** A response settles for the usage it reports, with its call's reservation in place of what it does not. */
  lemma SettlementIs(card: PriceCard, row: CallRow, completion: nat, raw: RawUsage)
    ensures
      var usage := Normalize(raw, row.reservedInput, row.reservedOutput).0;
      SettlementOf(card, row, completion, raw) == Settlement(completion, usage.total, ActualCost(card, usage))
  {}
}
