/** The authority's own control flow: reserve, audit, try with bounded retries, recover, reconcile. */
module ModelCompletion {
  import opened Contracts
  import opened Events
  import opened ModelBudgets
  import opened UsagePricing

  /** What the transport does on one attempt; `retryable` and `uncertain` classify its error. */
  datatype Transport = Responds | Fails(retryable: bool, uncertain: bool)

  /** A stale-call recovery by another process. */
  datatype Sweep = Sweep(run: RunId, cutoff: int, now: int)

  /** The environment of one call: transport, audit appends and other processes' recoveries, by attempt number. */
  datatype Environment = Environment(
    transport: nat -> Transport,
    audited: nat -> bool,
    retryAudited: nat -> bool,
    sweptBefore: nat -> Option<Sweep>,
    sweptDuring: nat -> Option<Sweep>)

  datatype Completion =
    | Response(attempt: nat)
    | NotReserved(result: ReserveResult)
    | AuditRefused(attempt: nat)
    | Interrupted(attempt: nat)
    | NotStartable(attempt: nat)
    | ModelCallFailed(attempt: nat, uncertain: bool)

  /** The recovery reaches a row of this run that was last touched at `now`. */
  predicate Takes(sweep: Option<Sweep>, run: RunId, now: int) {
    sweep.Some? && sweep.value.run == run && now <= sweep.value.cutoff
  }

  /** The call was taken away before this attempt could start. */
  predicate IsTaken(env: Environment, attempt: nat, run: RunId, now: int) {
    Takes(env.sweptBefore(attempt), run, now) || (attempt > 1 && Takes(env.sweptDuring(attempt - 1), run, now))
  }

  predicate Retries(env: Environment, attempt: nat, limit: nat) {
    env.transport(attempt).Fails? && env.transport(attempt).retryable && attempt < limit
  }

  /** The attempt at which the retry loop stops, counting from `attempt`. */
  function LastAttempt(env: Environment, attempt: nat, limit: nat, run: RunId, now: int): nat
    requires attempt <= limit
    decreases limit - attempt
  {
    if !IsTaken(env, attempt, run, now) && env.audited(attempt) && Retries(env, attempt, limit) && env.retryAudited(attempt)
    then LastAttempt(env, attempt + 1, limit, run, now) else attempt
  }

  lemma {:induction false} LastAttemptIsBounded(env: Environment, attempt: nat, limit: nat, run: RunId, now: int)
    requires attempt <= limit
    ensures attempt <= LastAttempt(env, attempt, limit, run, now) <= limit
    ensures forall k | attempt <= k < LastAttempt(env, attempt, limit, run, now) ::
      env.transport(k).Fails? && env.transport(k).retryable
    decreases limit - attempt
  {
    if LastAttempt(env, attempt, limit, run, now) != attempt {
      LastAttemptIsBounded(env, attempt + 1, limit, run, now);
    }
  }

  function OutcomeOf(env: Environment, attempt: nat, limit: nat, run: RunId, now: int): Completion {
    if IsTaken(env, attempt, run, now) then NotStartable(attempt)
    else if !env.audited(attempt) then AuditRefused(attempt)
    else
      match env.transport(attempt)
      case Responds => Response(attempt)
      case Fails(retryable, uncertain) =>
        if retryable && attempt < limit then Interrupted(attempt) else ModelCallFailed(attempt, uncertain)
  }

  /** A call left in flight, unless another process gave it up during the attempt. */
  predicate IsLeftOpen(env: Environment, attempt: nat, row: CallRow, run: RunId, now: int) {
    row.attempts == attempt && row.state == if Takes(env.sweptDuring(attempt), run, now) then UnknownOutcome else InFlight
  }

  /** How the row is left, for each way the loop can end. */
  predicate RowAfter(env: Environment, outcome: Completion, row: CallRow, run: RunId, now: int) {
    match outcome
    case Response(attempt) => IsLeftOpen(env, attempt, row, run, now)
    case Interrupted(attempt) => IsLeftOpen(env, attempt, row, run, now)
    case NotStartable(attempt) =>
      row.attempts + 1 == attempt && row.state == if attempt == 1 then CallFailed else UnknownOutcome
    case AuditRefused(attempt) => row.state.CallFailed? && row.attempts == attempt
    case ModelCallFailed(attempt, uncertain) =>
      row.attempts == attempt && row.state == if uncertain then UnknownOutcome else CallFailed
    case NotReserved(_) => true
  }

  datatype Recovery = NothingReserved | RetryIsSafe | ResamplingIsUnsafe(failed: bool)

  /** How the call of a crashed owner is classified from its row. */
  function RecoveryOf(calls: seq<CallRow>, id: CallId): Recovery {
    match Find(calls, id)
    case None => NothingReserved
    case Some(i) =>
      if calls[i].attempts == 0 && (calls[i].state.Reserved? || calls[i].state.CallFailed?) then RetryIsSafe
      else ResamplingIsUnsafe(calls[i].state.CallFailed?)
  }

  class PersistentModelCallAuthority {
    const table: ModelCallTable

    constructor (table: ModelCallTable)
      ensures this.table == table
    {
      this.table := table;
    }

    method Complete(id: CallId, run: RunId, want: Reservation, budget: ModelBudget, maxRetries: nat, running: bool,
                    env: Environment, cutoff: int, now: int) returns (outcome: Completion)
      modifies table
      ensures outcome.NotReserved? <==>
        !ReserveResultOf(RecoverStale(old(table.calls), run, cutoff, now), id, run, want, budget, running).Granted?
      ensures outcome.NotReserved? ==> table.calls == RecoverStale(old(table.calls), run, cutoff, now)
      ensures !outcome.NotReserved? && !env.audited(0) ==> outcome == AuditRefused(0)
      ensures !outcome.NotReserved? && env.audited(0) ==>
        outcome == OutcomeOf(env, LastAttempt(env, 1, maxRetries + 1, run, now), maxRetries + 1, run, now)
      ensures !outcome.NotReserved? ==>
        Find(table.calls, id).Some? && RowAfter(env, outcome, table.calls[Find(table.calls, id).value], run, now)
    {
      hide Total;
      var stale, lost := table.RecoverStaleModelCalls(run, cutoff, now);
      var reserved := table.ReserveModelCall(id, run, want, budget, running, now);
      if !reserved.Granted? {
        return NotReserved(reserved);
      }
      LastRowIsFound(table.calls, id);
      if !env.audited(0) {
        RowIsRewritten(table.calls, id, table.calls[|table.calls| - 1].(state := CallFailed, updatedAt := now));
        var known := table.FailModelCall(id, false, now);
        return AuditRefused(0);
      }
      outcome := TryAttempts(id, run, maxRetries + 1, env, now);
    }

    method TryAttempts(id: CallId, run: RunId, limit: nat, env: Environment, now: int) returns (outcome: Completion)
      requires limit > 0 && Find(table.calls, id).Some?
      requires var row := table.calls[Find(table.calls, id).value];
        row.state.Reserved? && row.attempts == 0 && row.run == run && row.updatedAt == now
      modifies table
      ensures outcome == OutcomeOf(env, LastAttempt(env, 1, limit, run, now), limit, run, now)
      ensures Find(table.calls, id).Some? && RowAfter(env, outcome, table.calls[Find(table.calls, id).value], run, now)
    {
      hide Find, LastAttempt;
      var attempt := 0;
      while true
        invariant attempt < limit
        invariant Find(table.calls, id).Some?
        invariant OwnRow(env, table.calls[Find(table.calls, id).value], attempt, run, now)
        invariant LastAttempt(env, attempt + 1, limit, run, now) == LastAttempt(env, 1, limit, run, now)
        decreases limit - attempt
      {
        LastAttemptStep(env, attempt + 1, limit, run, now);
        attempt := attempt + 1;
        Interfere(id, env.sweptBefore(attempt));
        var started := StartOwn(id, now);
        if !started {
          return NotStartable(attempt);
        }
        if !env.audited(attempt) {
          FailOwn(id, false, now);
          return AuditRefused(attempt);
        }
        Interfere(id, env.sweptDuring(attempt));
        if env.transport(attempt).Responds? {
          return Response(attempt);
        }
        if env.transport(attempt).retryable && attempt < limit {
          if !env.retryAudited(attempt) {
            return Interrupted(attempt);
          }
        } else {
          FailOwn(id, env.transport(attempt).uncertain, now);
          return ModelCallFailed(attempt, env.transport(attempt).uncertain);
        }
      }
    }

    /** What another process's recovery, if there is one, does to the owner's row. */
    method Interfere(id: CallId, sweep: Option<Sweep>)
      requires Find(table.calls, id).Some?
      modifies table
      ensures Find(table.calls, id) == old(Find(table.calls, id))
      ensures var i := Find(table.calls, id).value; var before := old(table.calls)[old(Find(table.calls, id)).value];
        table.calls[i] == if sweep.Some? then Quarantined(before, sweep.value.run, sweep.value.cutoff, sweep.value.now) else before
    {
      hide Find;
      if sweep.Some? {
        SweepKeepsPlaces(table.calls, id, sweep.value.run, sweep.value.cutoff, sweep.value.now);
        var _, _ := table.RecoverStaleModelCalls(sweep.value.run, sweep.value.cutoff, sweep.value.now);
      }
    }

    method StartOwn(id: CallId, now: int) returns (started: bool)
      requires Find(table.calls, id).Some?
      modifies table
      ensures Find(table.calls, id) == old(Find(table.calls, id))
      ensures var i := Find(table.calls, id).value; var before := old(table.calls)[old(Find(table.calls, id)).value];
        && (started <==> IsActive(before))
        && table.calls[i] == if started then before.(state := InFlight, attempts := before.attempts + 1, updatedAt := now) else before
    {
      hide Find;
      var row := table.calls[Find(table.calls, id).value];
      RowIsRewritten(table.calls, id, row.(state := InFlight, attempts := row.attempts + 1, updatedAt := now));
      var attempt := table.StartModelCallAttempt(id, now);
      started := attempt.Some?;
    }

    method FailOwn(id: CallId, uncertain: bool, now: int)
      requires Find(table.calls, id).Some? && !table.calls[Find(table.calls, id).value].state.CallCompleted?
      modifies table
      ensures Find(table.calls, id) == old(Find(table.calls, id))
      ensures var i := Find(table.calls, id).value; var before := old(table.calls)[old(Find(table.calls, id)).value];
        table.calls[i] == before.(state := if uncertain then UnknownOutcome else CallFailed, updatedAt := now)
    {
      hide Find;
      var row := table.calls[Find(table.calls, id).value];
      RowIsRewritten(table.calls, id, row.(state := if uncertain then UnknownOutcome else CallFailed, updatedAt := now));
      var _ := table.FailModelCall(id, uncertain, now);
    }

    /** After a crash: an unsent call is failed, a possibly sent one is quarantined and never resampled. */
    method RecoverUnresolved(id: CallId, now: int) returns (recovery: Recovery)
      modifies table
      ensures recovery == RecoveryOf(old(table.calls), id)
      ensures recovery.NothingReserved? ==> table.calls == old(table.calls)
      ensures recovery.RetryIsSafe? ==> Find(table.calls, id).Some? && table.calls[Find(table.calls, id).value].state.CallFailed?
      ensures recovery.ResamplingIsUnsafe? ==>
        && Find(table.calls, id).Some?
        && !IsActive(table.calls[Find(table.calls, id).value])
        && (recovery.failed <==> table.calls[Find(table.calls, id).value].state.CallFailed?)
    {
      hide Find;
      var index := Find(table.calls, id);
      if index.None? {
        return NothingReserved;
      }
      var row := table.calls[index.value];
      RowIsRewritten(table.calls, id, row.(state := CallFailed, updatedAt := now));
      RowIsRewritten(table.calls, id, row.(state := UnknownOutcome, updatedAt := now));
      if row.attempts == 0 && (row.state.Reserved? || row.state.CallFailed?) {
        if row.state.Reserved? {
          var known := table.FailModelCall(id, false, now);
        }
        return RetryIsSafe;
      }
      if !row.state.CallFailed? && !row.state.UnknownOutcome? {
        var known := table.FailModelCall(id, true, now);
      }
      return ResamplingIsUnsafe(row.state.CallFailed?);
    }

    /** Prices the persisted response; the same completion may be reconciled any number of times. */
    method ReconcileResponse(id: CallId, model: Model, completion: nat, raw: RawUsage, now: int) returns (changed: bool)
      requires PriceOf(model).Some?
      modifies table
      ensures Find(old(table.calls), id).None? ==> !changed && table.calls == old(table.calls)
      ensures Find(old(table.calls), id).Some? ==>
        var row := old(table.calls)[Find(old(table.calls), id).value];
        var settled := SettlementOf(PriceOf(model).value, row, completion, raw);
        && table.calls == Reconcile(old(table.calls), id, settled, now)
        && (changed <==> !row.state.CallCompleted?)
    {
      hide Find, SettlementOf;
      var index := Find(table.calls, id);
      if index.None? {
        return false;
      }
      var settled := SettlementOf(PriceOf(model).value, table.calls[index.value], completion, raw);
      var result := table.ReconcileModelCall(id, settled, now);
      changed := result.Charged?;
    }
  }

  /** The owner's row between attempts: as the last attempt left it, or given up by another process meanwhile. */
  predicate OwnRow(env: Environment, row: CallRow, attempt: nat, run: RunId, now: int) {
    && row.run == run && row.attempts == attempt
    && (if attempt == 0 then row.state.Reserved? && row.updatedAt == now
        else if Takes(env.sweptDuring(attempt), run, now) then row.state.UnknownOutcome?
        else row.state.InFlight? && row.updatedAt == now)
  }

  lemma LastAttemptStep(env: Environment, attempt: nat, limit: nat, run: RunId, now: int)
    requires attempt <= limit
    ensures !IsTaken(env, attempt, run, now) && env.audited(attempt) && Retries(env, attempt, limit) && env.retryAudited(attempt) ==>
      LastAttempt(env, attempt, limit, run, now) == LastAttempt(env, attempt + 1, limit, run, now)
    ensures !(!IsTaken(env, attempt, run, now) && env.audited(attempt) && Retries(env, attempt, limit) && env.retryAudited(attempt)) ==>
      LastAttempt(env, attempt, limit, run, now) == attempt
  {}

  lemma {:induction false} SweepKeepsPlaces(calls: seq<CallRow>, id: CallId, run: RunId, cutoff: int, now: int)
    ensures Find(RecoverStale(calls, run, cutoff, now), id) == Find(calls, id)
  {
    if calls != [] {
      var last := |calls| - 1;
      var after := RecoverStale(calls, run, cutoff, now);
      assert after[..last] == RecoverStale(calls[..last], run, cutoff, now);
      SweepKeepsPlaces(calls[..last], id, run, cutoff, now);
    }
  }

  lemma {:induction false} RowIsRewritten(calls: seq<CallRow>, id: CallId, row: CallRow)
    requires Find(calls, id).Some? && row.callId == id
    ensures Find(calls[Find(calls, id).value := row], id) == Find(calls, id)
  {
    var i := Find(calls, id).value;
    var last := |calls| - 1;
    if i < last {
      assert calls[i := row][..last] == calls[..last][i := row];
      RowIsRewritten(calls[..last], id, row);
    }
  }

  lemma LastRowIsFound(calls: seq<CallRow>, id: CallId)
    requires calls != [] && calls[|calls| - 1].callId == id
    ensures Find(calls, id) == Some(|calls| - 1)
  {}

  /** A response comes after at most the allowed attempts, every earlier one having failed retryably. */
  lemma ResponseFollowsRetryableFailures(env: Environment, limit: nat, run: RunId, now: int)
    requires limit > 0 && OutcomeOf(env, LastAttempt(env, 1, limit, run, now), limit, run, now).Response?
    ensures var attempt := OutcomeOf(env, LastAttempt(env, 1, limit, run, now), limit, run, now).attempt;
      && 1 <= attempt <= limit
      && env.transport(attempt).Responds?
      && forall k | 1 <= k < attempt :: env.transport(k).Fails? && env.transport(k).retryable
  {
    LastAttemptIsBounded(env, 1, limit, run, now);
  }
}
