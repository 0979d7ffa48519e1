/** The store object: tables updated in place, each method one transaction over them. */
module EventStore {
  import opened Contracts
  import opened Events
  import opened Projection
  import opened Claims
  import opened Tables

  datatype ClaimError = NoKeys | TtlNotPositive
  datatype ClaimOutcome = Refused | TokensGranted(tokens: Tokens) | InvalidClaim(error: ClaimError)

  /** `status_by_type` of the agent signals that set a status. */
  function SignalledStatus(signal: RuntimeSignal): AgentStatus
    requires !signal.AgentHeartbeat?
  {
    match signal
    case AgentBusy => Busy
    case AgentIdle => Idle
    case AgentWaiting => Waiting
    case AgentDegraded => Degraded
    case AgentOffline => Offline
    case AgentCrashed => Degraded
    case AgentRecovered => Idle
  }

  class SQLiteEventStore {
    var events: Log
    var projections: Projections
    var claims: ClaimTable
    var commands: map<Text, CommandRow>

    ghost function View(): Store
      reads this
    {
      Store(events, projections, claims, commands)
    }

    ghost predicate Valid()
      reads this
    {
      Consistent(View())
    }

    constructor ()
      ensures Valid() && View() == EMPTY_STORE
    {
      events, projections, claims, commands := [], EMPTY_PROJECTIONS, map[], map[];
    }

    /** Loads the rows an event concerns, moves them as their status allows, and saves them. */
    method ProjectEvent(e: Event, cursor: nat)
      modifies this`projections
      ensures projections == Project(old(projections), e, cursor)
    {
      hide ProjectRun, ProjectAgent, ProjectAssignment, ProjectLease;
      UpdateRun(e, cursor);
      UpdateAgent(e);
      UpdateAssignment(e);
      UpdateLease(e);
    }

    method UpdateRun(e: Event, cursor: nat)
      modifies this`projections
      ensures projections == old(projections).(runs := ProjectRun(old(projections).runs, e, cursor))
    {
      var run: RunView;
      if e.runId in projections.runs {
        run := projections.runs[e.runId];
      } else if e.fact.RunCreated? {
        run := RunView(RunIsRunning, "intake", e.fact.budget, None, None, None, 0, 0);
      } else {
        return;
      }
      run := run.(eventCount := run.eventCount + 1, lastCursor := cursor);
      var terminal := run.status.RunIsSucceeded? || run.status.RunIsFailed? || run.status.RunIsCancelled?;
      var cancelling := run.status.RunIsCancelling?;
      if e.fact.RunPhaseChanged? && !terminal && !cancelling {
        run := run.(phase := e.fact.phase);
      } else if e.fact.RunSucceeded? && !terminal && !cancelling {
        run := run.(status := RunIsSucceeded, phase := "complete");
      } else if e.fact.RunFailed? && !terminal && !cancelling {
        run := run.(status := RunIsFailed, phase := "failed");
      } else if e.fact.RunPaused? && !terminal && !cancelling {
        run := run.(status := RunIsPaused);
      } else if e.fact.BarrierAcquired? {
        run := run.(barrier := Some(e.fact.barrier), barrierExpiresAt := Some(e.fact.barrierExpiresAt));
      } else if e.fact.BarrierReleased? && run.barrier == Some(e.fact.barrier) {
        run := run.(barrier := None, barrierExpiresAt := None);
      } else if e.fact.RunCancelRequested? && !terminal {
        run := run.(status := RunIsCancelling, phase := "cancelling");
      } else if e.fact.RunCancelled? && !terminal {
        run := run.(status := RunIsCancelled, phase := "cancelled");
      } else if e.fact.GateDecided? {
        run := run.(gate := Some(e.fact.passed));
      }
      projections := projections.(runs := projections.runs[e.runId := run]);
    }

    method UpdateAgent(e: Event)
      modifies this`projections
      ensures projections == old(projections).(agents := ProjectAgent(old(projections).agents, e))
    {
      var id: AgentId;
      var agent := AgentView(Idle, {}, 1, 0);
      if e.fact.AgentRegistered? {
        id := e.fact.registered;
        if id in projections.agents {
          agent := projections.agents[id];
        }
        agent := agent.(capabilities := e.fact.capabilities, maxConcurrency := e.fact.maxConcurrency);
      } else if e.fact.AgentSignalled? {
        id := e.fact.signalled;
        if id !in projections.agents {
          return;
        }
        agent := projections.agents[id];
        var signal := e.fact.signal;
        var unavailable := agent.status.Degraded? || agent.status.Offline?;
        var implicitRecovery := unavailable && (signal.AgentBusy? || signal.AgentIdle? || signal.AgentWaiting?);
        if !signal.AgentHeartbeat? && !implicitRecovery {
          agent := agent.(status := SignalledStatus(signal));
        }
      } else if e.fact.DeliverySent? || e.fact.DeliveryAcked? {
        id := e.fact.mailbox;
        if id !in projections.agents {
          return;
        }
        agent := projections.agents[id];
        var pending := agent.mailboxPending + (if e.fact.DeliverySent? then 1 else -1);
        agent := agent.(mailboxPending := if pending < 0 then 0 else pending);
      } else {
        return;
      }
      projections := projections.(agents := projections.agents[id := agent]);
    }

    method UpdateAssignment(e: Event)
      modifies this`projections
      ensures projections == old(projections).(assignments := ProjectAssignment(old(projections).assignments, e))
    {
      var row: AssignmentView;
      if e.fact.AssignmentCreated? {
        row := AssignmentView(e.runId, e.taskId, e.fact.stage, e.fact.assignee, e.fact.attempt, e.fact.resultKind, Queued);
      } else if e.fact.AssignmentMoved? && e.fact.assignment in projections.assignments {
        row := projections.assignments[e.fact.assignment];
        if row.status.Succeeded? || row.status.Completed? || row.status.AssignmentFailed? || row.status.AssignmentExpired?
           || row.status.AssignmentCancelled?
        {
          return;
        }
        row := row.(status := e.fact.status);
      } else {
        return;
      }
      projections := projections.(assignments := projections.assignments[e.fact.assignment := row]);
    }

    method UpdateLease(e: Event)
      modifies this`projections
      ensures projections == old(projections).(leases := ProjectLease(old(projections).leases, e))
    {
      if !e.fact.LeaseMoved? {
        return;
      }
      var id := e.fact.assignment;
      var row := LeaseView(e.runId, e.taskId, None, e.fact.assignee, ActiveLease, 0);
      if id in projections.leases {
        row := projections.leases[id];
      }
      if row.status.ReleasedLease? || row.status.ExpiredLease? {
        return;
      }
      row := row.(stage := e.fact.stage, agent := e.fact.assignee, expiresAt := e.fact.expiresAt);
      if e.fact.leaseSignal.LeaseReleased? {
        row := row.(status := ReleasedLease);
      } else if e.fact.leaseSignal.LeaseExpired? {
        row := row.(status := ExpiredLease);
      }
      projections := projections.(leases := projections.leases[id := row]);
    }

    method AppendInTransaction(e: Event) returns (outcome: Appended)
      requires Valid()
      modifies this`events, this`projections
      ensures Valid()
      ensures outcome == AppendOutcome(old(events), e)
      ensures View() == Appending(old(View()), e)
    {
      AppendingKeepsConsistency(View(), e);
      outcome := AppendOutcome(events, e);
      if outcome.Inserted? {
        events := events + [e];
        ProjectEvent(e, |events|);
      }
    }

    method WorkClaimsAreCurrent(tokens: Tokens, owner: OwnerId, now: int) returns (current: bool)
      ensures current <==> AreCurrent(claims, tokens, owner, now)
      ensures current <==> forall key | key in tokens ::
        && key in claims && claims[key].state == Active && now < claims[key].expiresAt
        && claims[key].owner == owner && claims[key].token == tokens[key]
    {
      var todo := tokens.Keys;
      while todo != {}
        invariant todo <= tokens.Keys
        invariant forall key | key in tokens.Keys - todo :: KeyIsCurrent(claims, key, tokens[key], owner, now)
        decreases todo
      {
        var key :| key in todo;
        if !KeyIsCurrent(claims, key, tokens[key], owner, now) {
          return false;
        }
        todo := todo - {key};
      }
      return true;
    }

    method Append(e: Event, dispatch: Option<Dispatch>, now: int, ackNow: int) returns (result: AppendResult)
      requires Valid()
      modifies this`events, this`projections
      ensures Valid()
      ensures result == AppendResultOf(old(View()), e, dispatch, now, ackNow)
      ensures View() == Tables.Append(old(View()), e, dispatch, now, ackNow)
    {
      if dispatch.Some? {
        var d := dispatch.value;
        if d.cancelled || d.tokens == map[] {
          return AppendClaimLost;
        }
        var current := WorkClaimsAreCurrent(d.tokens, d.owner, now);
        if !current {
          return AppendClaimLost;
        }
        if e.runId in projections.runs {
          var status := projections.runs[e.runId].status;
          if status.RunIsCancelling? || status.RunIsCancelled? || status.RunIsFailed? {
            return AppendClaimLost;
          }
        }
      }
      if AckIsUnfenced(Store(events, projections, claims, commands), e, ackNow) {
        return UnfencedAck;
      }
      var outcome := AppendInTransaction(e);
      match outcome
      case Inserted => return Persisted(e);
      case Replayed(existing) => return Persisted(existing);
      case IdConflict => return AppendConflict;
    }

    /** Checks every key before writing any, then writes every key. */
    method ClaimWork(keys: set<ClaimKey>, owner: OwnerId, ttl: int, now: int, run: Option<RunId>)
      returns (outcome: ClaimOutcome)
      modifies this`claims
      ensures keys == {} ==> outcome == InvalidClaim(NoKeys) && claims == old(claims)
      ensures keys != {} && ttl < 1 ==> outcome == InvalidClaim(TtlNotPositive) && claims == old(claims)
      ensures keys != {} && ttl >= 1 ==>
        && View() == Tables.ClaimWork(old(View()), keys, owner, ttl, now, run)
        && outcome == if CanClaim(old(View()), keys, now, run) then TokensGranted(Granted(old(claims), keys)) else Refused
      ensures keys != {} && ttl >= 1 ==>
        (outcome.Refused? <==>
          || (exists key :: key in keys && key in old(claims) && old(claims)[key].state == Active && now < old(claims)[key].expiresAt)
          || (run.Some? && run.value in projections.runs && projections.runs[run.value].barrierExpiresAt.Some?
              && now < projections.runs[run.value].barrierExpiresAt.value))
      ensures !outcome.TokensGranted? ==> claims == old(claims)
      ensures outcome.TokensGranted? ==>
        && outcome.tokens.Keys == keys && claims.Keys == old(claims).Keys + keys
        && (forall key | key in keys ::
              && claims[key] == Claim(owner, outcome.tokens[key], Active, now, now + ttl)
              && outcome.tokens[key] == (if key in old(claims) then old(claims)[key].token + 1 else 1))
        && (forall key | key in old(claims) && key !in keys :: claims[key] == old(claims)[key])
    {
      if keys == {} {
        return InvalidClaim(NoKeys);
      }
      if ttl < 1 {
        return InvalidClaim(TtlNotPositive);
      }
      if run.Some? && run.value in projections.runs {
        var deadline := projections.runs[run.value].barrierExpiresAt;
        if deadline.Some? && deadline.value > now {
          return Refused;
        }
      }
      var free := KeysAreFree(keys, now);
      if !free {
        return Refused;
      }
      var tokens := WriteClaims(keys, owner, ttl, now);
      return TokensGranted(tokens);
    }

    method KeysAreFree(keys: set<ClaimKey>, now: int) returns (free: bool)
      ensures free <==> Claimable(claims, keys, now)
    {
      var todo := keys;
      while todo != {}
        invariant todo <= keys
        invariant Claimable(claims, keys - todo, now)
        decreases todo
      {
        var key :| key in todo;
        if key in claims && claims[key].state.Active? && claims[key].expiresAt > now {
          return false;
        }
        todo := todo - {key};
      }
      return true;
    }

    method WriteClaims(keys: set<ClaimKey>, owner: OwnerId, ttl: nat, now: int) returns (tokens: Tokens)
      modifies this`claims
      ensures tokens == Granted(old(claims), keys)
      ensures claims == Claimed(old(claims), keys, owner, ttl, now)
    {
      tokens := map[];
      var todo := keys;
      while todo != {}
        invariant todo <= keys
        invariant tokens == Granted(old(claims), keys - todo)
        invariant claims == Claimed(old(claims), keys - todo, owner, ttl, now)
        decreases todo
      {
        var key :| key in todo;
        var token := TokenOf(claims, key) + 1;
        claims := claims[key := Claim(owner, token, Active, now, now + ttl)];
        tokens := tokens[key := token];
        todo := todo - {key};
      }
      assert keys - todo == keys;
    }

    /** Fences, optionally appends one final fact, and terminates every claim of the bundle. */
    method FinishWorkClaims(tokens: Tokens, owner: OwnerId, state: ClaimState, now: int, final: Option<Event>,
                            allowCancelledRun: bool) returns (result: FinishResult)
      requires Valid() && tokens != map[]
      modifies this`events, this`projections, this`claims
      ensures Valid()
      ensures result == FinishResultOf(old(View()), tokens, owner, now, final, allowCancelledRun)
      ensures View() == FinishClaims(old(View()), tokens, owner, state, now, final, allowCancelledRun)
    {
      if final.Some? && !allowCancelledRun && RunIsWithdrawn(projections, final.value.runId) {
        return ClaimsLost;
      }
      var current := WorkClaimsAreCurrent(tokens, owner, now);
      if !current {
        return ClaimsLost;
      }
      if final.Some? {
        var outcome := AppendInTransaction(final.value);
        if outcome.IdConflict? {
          return FinishConflict;
        }
      }
      ghost var appended := View();
      assert appended == if final.Some? then Appending(old(View()), final.value) else old(View());
      SetState(tokens, owner, state);
      return Done;
    }

    method SetState(tokens: Tokens, owner: OwnerId, state: ClaimState)
      modifies this`claims
      ensures claims == Finished(old(claims), tokens, owner, state)
    {
      var todo := tokens.Keys;
      while todo != {}
        invariant todo <= tokens.Keys && claims.Keys == old(claims).Keys
        invariant forall key | key in claims ::
          claims[key] ==
            (if key !in todo && Matches(old(claims), key, tokens, owner) then old(claims)[key].(state := state)
             else old(claims)[key])
        decreases todo
      {
        var key :| key in todo;
        if Matches(claims, key, tokens, owner) {
          claims := claims[key := claims[key].(state := state)];
        }
        todo := todo - {key};
      }
    }

    method RenewWorkClaims(tokens: Tokens, owner: OwnerId, ttl: nat, now: int) returns (renewed: bool)
      requires tokens != map[] && ttl >= 1
      modifies this`claims
      ensures renewed <==> RenewsClaims(old(View()), tokens, owner, now)
      ensures View() == RenewClaims(old(View()), tokens, owner, ttl, now)
    {
      renewed := WorkClaimsAreCurrent(tokens, owner, now);
      if !renewed {
        return;
      }
      var todo := tokens.Keys;
      while todo != {}
        invariant todo <= tokens.Keys && claims.Keys == old(claims).Keys
        invariant forall key | key in claims ::
          claims[key] ==
            (if key !in todo && Matches(old(claims), key, tokens, owner) then old(claims)[key].(expiresAt := now + ttl)
             else old(claims)[key])
        decreases todo
      {
        var key :| key in todo;
        if Matches(claims, key, tokens, owner) {
          claims := claims[key := claims[key].(expiresAt := now + ttl)];
        }
        todo := todo - {key};
      }
      assert claims == Renewed(old(claims), tokens, owner, ttl, now);
    }

    method FailWorkClaimBundle(key: ClaimKey) returns (failed: nat)
      modifies this`claims
      ensures View() == FailBundle(old(View()), key)
      ensures failed == |BundleOfKey(old(claims), key)|
    {
      if key !in claims || !claims[key].state.Active? {
        return 0;
      }
      var owner, claimedAt := claims[key].owner, claims[key].claimedAt;
      var bundle := set k | k in claims && claims[k].owner == owner && claims[k].claimedAt == claimedAt && claims[k].state.Active?;
      failed := |bundle|;
      var todo := bundle;
      while todo != {}
        invariant todo <= bundle && claims.Keys == old(claims).Keys
        invariant forall k | k in claims ::
          claims[k] == (if k in bundle - todo then old(claims)[k].(state := ClaimFailed) else old(claims)[k])
        decreases todo
      {
        var k :| k in todo;
        claims := claims[k := claims[k].(state := ClaimFailed)];
        todo := todo - {k};
      }
      assert claims == BundleFailed(old(claims), owner, claimedAt);
    }

    method BeginCommand(key: Text, candidate: Candidate) returns (created: bool)
      modifies this`commands
      ensures created <==> key !in old(commands)
      ensures View() == Tables.BeginCommand(old(View()), key, candidate)
    {
      created := key !in commands;
      if created {
        commands := commands[key := CommandRow(candidate, Processing, None)];
      }
    }

    /** Appends the formal facts and finalises the command, or rolls everything back. */
    method CommitCommand(key: Text, state: CommandState, decision: Decision, formal: seq<Event>,
                         precondition: Store -> Option<Text>, guard: Option<Guard>, now: int)
      returns (result: CommitResult)
      requires Valid()
      modifies this`events, this`projections, this`commands
      ensures Valid()
      ensures result ==
        CommitResultOf(old(View()), key, state, decision, formal, precondition(old(View())), guard, now)
      ensures View() ==
        Tables.CommitCommand(old(View()), key, state, decision, formal, precondition(old(View())), guard, now)
    {
      if guard.Some? {
        var current := WorkClaimsAreCurrent(guard.value.tokens, guard.value.owner, now);
        if !current {
          return CommitClaimLost;
        }
      }
      if exists e | e in formal :: RunIsWithdrawn(projections, e.runId) {
        return CommitClaimLost;
      }
      var rejection := precondition(Store(events, projections, claims, commands));
      if rejection.Some? {
        return PreconditionFailed(rejection.value);
      }
      var savedEvents, savedProjections := events, projections;
      var appended := AppendEvents(formal);
      if !appended {
        events, projections := savedEvents, savedProjections;
        return CommitConflict;
      }
      if !Finalizes(Store(events, projections, claims, commands), key, state, decision) {
        events, projections := savedEvents, savedProjections;
        return NotFinalizable;
      }
      if commands[key].state.Processing? {
        commands := commands[key := CommandRow(commands[key].candidate, state, Some(decision))];
      }
      return Committed;
    }

    method AppendEvents(formal: seq<Event>) returns (appended: bool)
      requires Valid()
      modifies this`events, this`projections
      ensures Valid()
      ensures appended <==> AllAppend(old(View()), formal)
      ensures appended ==> View() == AppendingAll(old(View()), formal)
    {
      hide Consistent;
      for i := 0 to |formal|
        invariant Valid()
        invariant AllAppend(old(View()), formal[..i])
        invariant View() == AppendingAll(old(View()), formal[..i])
      {
        assert formal[..i + 1][..i] == formal[..i];
        var outcome := AppendInTransaction(formal[i]);
        if outcome.IdConflict? {
          PrefixFails(old(View()), formal, i + 1);
          return false;
        }
      }
      assert formal[..|formal|] == formal;
      return true;
    }

    method RebuildProjections()
      requires Valid()
      modifies this`projections
      ensures Valid() && View() == old(View())
    {
      projections := EMPTY_PROJECTIONS;
      for i := 0 to |events|
        invariant projections == Fold(events[..i])
      {
        assert events[..i + 1] == events[..i] + [events[i]];
        FoldAppend(events[..i], events[i]);
        ProjectEvent(events[i], i + 1);
      }
      assert events[..|events|] == events;
    }
  }

  lemma {:induction false} PrefixFails(s: Store, formal: seq<Event>, i: nat)
    requires i <= |formal| && !AllAppend(s, formal[..i])
    ensures !AllAppend(s, formal)
    decreases |formal| - i
  {
    if i == |formal| {
      assert formal[..i] == formal;
    } else {
      assert formal[..i + 1][..i] == formal[..i];
      PrefixFails(s, formal, i + 1);
    }
  }
}
