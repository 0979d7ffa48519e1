/**
  The durable tables and, for each method that opens one immediate transaction, the transition it makes.
  Rolled-back transactions leave the tables unchanged, so every failure below returns its input.
 */
module Tables {
  import opened Contracts
  import opened Events
  import opened Projection
  import opened Claims

  datatype CommandState = Processing | AcceptedCommand | RejectedCommand

  /** The stored candidate: its id and everything else it carries. */
  datatype Candidate = Candidate(candidateId: nat, body: nat)

  datatype Decision = Decision(
    candidateId: nat,
    accepted: bool,
    reason: Text,
    eventIds: seq<EventId>,
    recovered: bool)

  datatype CommandRow = CommandRow(candidate: Candidate, state: CommandState, decision: Option<Decision>)

  datatype Store = Store(
    log: Log,
    projections: Projections,
    claims: ClaimTable,
    commands: map<Text, CommandRow>)

  const EMPTY_STORE := Store([], EMPTY_PROJECTIONS, map[], map[])

  /** Facts every transaction keeps: the index is the fold of the log, and event ids are unique. */
  ghost predicate Consistent(s: Store) {
    s.projections == Fold(s.log) && UniqueIds(s.log)
  }

  // ---- appending ----

  datatype Appended = Inserted | Replayed(existing: Event) | IdConflict

  function AppendOutcome(log: Log, e: Event): Appended {
    var existing := Lookup(log, e.id);
    if existing.None? then Inserted
    else if SameFact(existing.value, e) then Replayed(existing.value)
    else IdConflict
  }

  /** `_append_in_transaction`: insert once by id and project; a replay writes nothing. */
  function Appending(s: Store, e: Event): Store {
    if AppendOutcome(s.log, e).Inserted? then
      s.(log := s.log + [e], projections := Project(s.projections, e, |s.log| + 1))
    else s
  }

  datatype Dispatch = Dispatch(owner: OwnerId, tokens: Tokens, cancelled: bool)

  datatype AppendResult =
    | Persisted(event: Event)
    | AppendClaimLost
    | UnfencedAck
    | AppendConflict

  predicate DispatchMayWrite(s: Store, d: Dispatch, run: RunId, now: int) {
    && !d.cancelled
    && d.tokens != map[]
    && AreCurrent(s.claims, d.tokens, d.owner, now)
    && !RunIsWithdrawn(s.projections, run)
    && !(run in s.projections.runs && s.projections.runs[run].status.RunIsFailed?)
  }

  /** A claimed delivery may be acknowledged outside its fence only to clean up a stopped run. */
  predicate AckIsUnfenced(s: Store, e: Event, now: int) {
    && e.fact.DeliveryAcked?
    && var key := DeliveryKey(e.fact.mailbox, e.fact.delivery);
       && key in s.claims
       && s.claims[key].state.Active?
       && !(s.claims[key].expiresAt <= now
            && e.runId in s.projections.runs
            && (RunIsWithdrawn(s.projections, e.runId) || s.projections.runs[e.runId].status.RunIsFailed?))
  }

  function AppendResultOf(s: Store, e: Event, dispatch: Option<Dispatch>, now: int, ackNow: int): AppendResult {
    if dispatch.Some? && !DispatchMayWrite(s, dispatch.value, e.runId, now) then AppendClaimLost
    else if AckIsUnfenced(s, e, ackNow) then UnfencedAck
    else
      match AppendOutcome(s.log, e)
      case Inserted => Persisted(e)
      case Replayed(existing) => Persisted(existing)
      case IdConflict => AppendConflict
  }

  function Append(s: Store, e: Event, dispatch: Option<Dispatch>, now: int, ackNow: int): Store {
    if AppendResultOf(s, e, dispatch, now, ackNow).Persisted? then Appending(s, e) else s
  }

  // ---- claims ----

  predicate BarrierHolds(s: Store, run: Option<RunId>, now: int) {
    && run.Some?
    && run.value in s.projections.runs
    && s.projections.runs[run.value].barrierExpiresAt.Some?
    && s.projections.runs[run.value].barrierExpiresAt.value > now
  }

  predicate CanClaim(s: Store, keys: set<ClaimKey>, now: int, run: Option<RunId>) {
    !BarrierHolds(s, run, now) && Claimable(s.claims, keys, now)
  }

  function ClaimWork(s: Store, keys: set<ClaimKey>, owner: OwnerId, ttl: nat, now: int, run: Option<RunId>): Store {
    if CanClaim(s, keys, now, run) then s.(claims := Claimed(s.claims, keys, owner, ttl, now)) else s
  }

  predicate RenewsClaims(s: Store, tokens: Tokens, owner: OwnerId, now: int) {
    AreCurrent(s.claims, tokens, owner, now)
  }

  function RenewClaims(s: Store, tokens: Tokens, owner: OwnerId, ttl: nat, now: int): Store {
    if RenewsClaims(s, tokens, owner, now)
    then s.(claims := Renewed(s.claims, tokens, owner, ttl, now)) else s
  }

  datatype FinishResult = Done | ClaimsLost | FinishConflict

  function FinishResultOf(s: Store, tokens: Tokens, owner: OwnerId, now: int, final: Option<Event>, allowCancelledRun: bool)
    : FinishResult
  {
    if final.Some? && !allowCancelledRun && RunIsWithdrawn(s.projections, final.value.runId) then ClaimsLost
    else if !AreCurrent(s.claims, tokens, owner, now) then ClaimsLost
    else if final.Some? && AppendOutcome(s.log, final.value).IdConflict? then FinishConflict
    else Done
  }

  function FinishClaims(s: Store, tokens: Tokens, owner: OwnerId, state: ClaimState, now: int,
                        final: Option<Event>, allowCancelledRun: bool): Store
  {
    if FinishResultOf(s, tokens, owner, now, final, allowCancelledRun).Done? then
      var appended := if final.Some? then Appending(s, final.value) else s;
      appended.(claims := Finished(appended.claims, tokens, owner, state))
    else s
  }

  function FailBundle(s: Store, key: ClaimKey): Store {
    if key in s.claims && s.claims[key].state.Active?
    then s.(claims := BundleFailed(s.claims, s.claims[key].owner, s.claims[key].claimedAt)) else s
  }

  // ---- commands ----

  function BeginCommand(s: Store, key: Text, candidate: Candidate): Store {
    if key in s.commands then s
    else s.(commands := s.commands[key := CommandRow(candidate, Processing, None)])
  }

  datatype CommitResult =
    | Committed
    | CommitClaimLost
    | PreconditionFailed(reason: Text)
    | CommitConflict
    | NotFinalizable

  datatype Guard = Guard(owner: OwnerId, tokens: Tokens)

  function AppendingAll(s: Store, events: seq<Event>): Store {
    if events == [] then s
    else Appending(AppendingAll(s, events[..|events| - 1]), events[|events| - 1])
  }

  /** No event of the list meets an earlier event with its id and different contents. */
  predicate AllAppend(s: Store, events: seq<Event>) {
    events == []
    || (AllAppend(s, events[..|events| - 1])
        && !AppendOutcome(AppendingAll(s, events[..|events| - 1]).log, events[|events| - 1]).IdConflict?)
  }

  predicate Finalizes(s: Store, key: Text, state: CommandState, decision: Decision) {
    key in s.commands
    && (s.commands[key].state.Processing?
        || (s.commands[key].state == state && s.commands[key].decision == Some(decision)))
  }

  function CommitResultOf(s: Store, key: Text, state: CommandState, decision: Decision, events: seq<Event>,
                          rejection: Option<Text>, guard: Option<Guard>, now: int): CommitResult
  {
    if guard.Some? && !AreCurrent(s.claims, guard.value.tokens, guard.value.owner, now) then CommitClaimLost
    else if exists e | e in events :: RunIsWithdrawn(s.projections, e.runId) then CommitClaimLost
    else if rejection.Some? then PreconditionFailed(rejection.value)
    else if !AllAppend(s, events) then CommitConflict
    else if !Finalizes(s, key, state, decision) then NotFinalizable
    else Committed
  }

  /** `rejection` is the precondition re-evaluated on these very tables, inside the transaction. */
  function CommitCommand(s: Store, key: Text, state: CommandState, decision: Decision, events: seq<Event>,
                         rejection: Option<Text>, guard: Option<Guard>, now: int): Store
  {
    if CommitResultOf(s, key, state, decision, events, rejection, guard, now).Committed? then
      var appended := AppendingAll(s, events);
      if key in s.commands && s.commands[key].state.Processing?
      then appended.(commands := s.commands[key := CommandRow(s.commands[key].candidate, state, Some(decision))])
      else appended
    else s
  }

  function Rebuild(s: Store): Store {
    s.(projections := Fold(s.log))
  }

  lemma AppendingKeepsConsistency(s: Store, e: Event)
    requires Consistent(s)
    ensures Consistent(Appending(s, e))
    ensures s.log <= Appending(s, e).log
    ensures Appending(s, e).claims == s.claims && Appending(s, e).commands == s.commands
  {
    if AppendOutcome(s.log, e).Inserted? {
      FoldAppend(s.log, e);
      forall j | 0 <= j < |s.log|
        ensures s.log[j].id != e.id
      {
        assert s.log[j] in s.log;
      }
    }
  }

  lemma {:induction false} AppendingAllKeepsConsistency(s: Store, events: seq<Event>)
    requires Consistent(s)
    ensures Consistent(AppendingAll(s, events))
    ensures s.log <= AppendingAll(s, events).log
    ensures AppendingAll(s, events).claims == s.claims && AppendingAll(s, events).commands == s.commands
  {
    hide Consistent;
    if events != [] {
      AppendingAllKeepsConsistency(s, events[..|events| - 1]);
      AppendingKeepsConsistency(AppendingAll(s, events[..|events| - 1]), events[|events| - 1]);
    }
  }
}
