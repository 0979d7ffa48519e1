/**
  What an append or a commit does to the log and to the command row, and exactly when it is refused, told
  on the tables without the store's own decisions.
 */
module CommitLaws {
  import opened Contracts
  import opened Events
  import opened Projection
  import opened Claims
  import opened Tables
  import opened StoreRuns
  import opened ClaimLaws

  predicate HasFailed(p: Projections, run: RunId) {
    run in p.runs && p.runs[run].status == RunIsFailed
  }

  /** What keeps a dispatched append out. */
  predicate MayNotWrite(s: Store, d: Dispatch, run: RunId, now: int) {
    d.cancelled || d.tokens == map[] || !Holds(s.claims, d.tokens, d.owner, now) || IsStopping(s.projections, run) || HasFailed(s.projections, run)
  }

  /** An acknowledgement of a delivery still under an active claim, except to clean up after a stopped run. */
  predicate NeedsFence(s: Store, e: Event, now: int) {
    && e.fact.DeliveryAcked?
    && var key := DeliveryKey(e.fact.mailbox, e.fact.delivery);
       && key in s.claims && s.claims[key].state == Active
       && (IsHeld(s.claims, key, now) || !(IsStopping(s.projections, e.runId) || HasFailed(s.projections, e.runId)))
  }

  lemma AppendIsRefusedIff(s: Store, e: Event, dispatch: Option<Dispatch>, now: int, ackNow: int)
    requires Consistent(s)
    ensures
      var result := AppendResultOf(s, e, dispatch, now, ackNow);
      var lost := dispatch.Some? && MayNotWrite(s, dispatch.value, e.runId, now);
      var unfenced := NeedsFence(s, e, ackNow);
      && (result.AppendClaimLost? <==> lost)
      && (result.UnfencedAck? <==> !lost && unfenced)
      && (result.AppendConflict? <==> !lost && !unfenced && Clashes(s.log, e))
      && (!result.Persisted? ==> Append(s, e, dispatch, now, ackNow) == s)
  {
    hide Holds;
    ConflictIsClash(s.log, e);
    if dispatch.Some? {
      CurrentMeansHeld(s.claims, dispatch.value.tokens, dispatch.value.owner, now);
    }
  }

  /** A persisted event is in the log once: appended at the end if its id is new, otherwise the one that was there. */
  lemma AppendRecordsOnce(s: Store, e: Event, dispatch: Option<Dispatch>, now: int, ackNow: int)
    requires Consistent(s) && AppendResultOf(s, e, dispatch, now, ackNow).Persisted?
    ensures
      var after := Append(s, e, dispatch, now, ackNow);
      var persisted := AppendResultOf(s, e, dispatch, now, ackNow).event;
      && persisted in after.log && SaysTheSame(persisted, e)
      && after.log == (if exists f :: f in s.log && f.id == e.id then s.log else s.log + [e])
      && after.projections == Fold(after.log) && after.claims == s.claims && after.commands == s.commands
  {
    hide Fold, Project, AreCurrent;
    ConflictIsClash(s.log, e);
    AppendingKeepsConsistency(s, e);
  }

  /** A finish that is not refused records its final fact once and moves exactly the rows of the bundle; a refused one changes nothing. */
  lemma FinishRecordsFinal(s: Store, tokens: Tokens, owner: OwnerId, state: ClaimState, now: int, e: Event, allowCancelledRun: bool)
    requires Consistent(s)
    ensures
      var after := FinishClaims(s, tokens, owner, state, now, Some(e), allowCancelledRun);
      if FinishResultOf(s, tokens, owner, now, Some(e), allowCancelledRun).Done? then
        && (exists f :: f in after.log && SaysTheSame(f, e))
        && after.log == (if exists f :: f in s.log && f.id == e.id then s.log else s.log + [e])
        && after.projections == Fold(after.log) && after.commands == s.commands && after.claims.Keys == s.claims.Keys
        && forall key | key in s.claims ::
             after.claims[key] == if key in tokens then s.claims[key].(state := state) else s.claims[key]
      else after == s
  {
    hide Fold, Project, Holds;
    if FinishResultOf(s, tokens, owner, now, Some(e), allowCancelledRun).Done? {
      CurrentMeansHeld(s.claims, tokens, owner, now);
      FinishedRows(s.claims, tokens, owner, state, now);
      ConflictIsClash(s.log, e);
      AppendingKeepsConsistency(s, e);
      SaysItself(e);
      assert e in (s.log + [e]);
    }
  }

  // ---- lists of events ----

  /** The smaller log says everything the larger list says, and nothing else. */
  ghost predicate Covers(log: Log, all: seq<Event>) {
    && (forall e | e in log :: e in all)
    && (forall e | e in all :: exists f :: f in log && SaysTheSame(f, e))
  }

  lemma CoveredClash(log: Log, all: seq<Event>, e: Event)
    requires Covers(log, all)
    ensures Clashes(log, e) <==> Clashes(all, e)
  {
    hide SaysTheSame;
    if Clashes(all, e) {
      var f :| f in all && f.id == e.id && !SaysTheSame(f, e);
      var g :| g in log && SaysTheSame(g, f);
      SameTwice(g, f, e);
    }
  }

  lemma SameTwice(g: Event, f: Event, e: Event)
    requires SaysTheSame(g, f)
    ensures g.id == f.id && SaysTheSame(f, g) && (SaysTheSame(g, e) <==> SaysTheSame(f, e))
    ensures SaysTheSame(e, e)
  {}

  lemma CoverGrows(s: Store, all: seq<Event>, e: Event)
    requires Consistent(s) && Covers(s.log, all) && !AppendOutcome(s.log, e).IdConflict?
    ensures Covers(Appending(s, e).log, all + [e])
  {
    hide UniqueIds, Fold, Project, SaysTheSame, SameFact;
    ConflictIsClash(s.log, e);
    var after := Appending(s, e).log;
    assert forall f | f in s.log :: f in after;
    forall f | f in all + [e]
      ensures exists g :: g in after && SaysTheSame(g, f)
    {
      if f in all {
        var g :| g in s.log && SaysTheSame(g, f);
      } else if AppendOutcome(s.log, e).Inserted? {
        SaysItself(e);
        assert e in after && SaysTheSame(e, e);
      } else {
        var g := AppendOutcome(s.log, e).existing;
        assert g in after && SaysTheSame(g, f);
      }
    }
  }

  lemma LogCoversItself(log: Log)
    ensures Covers(log, log + [])
  {
    assert log + [] == log;
    forall e | e in log
      ensures exists f :: f in log && SaysTheSame(f, e)
    {
      SaysItself(e);
    }
  }

  lemma SaysItself(e: Event)
    ensures SaysTheSame(e, e)
  {}

  /** Some event of the list clashes with the log or with an earlier one of the list. */
  predicate ListClashes(log: Log, events: seq<Event>) {
    exists i | 0 <= i < |events| :: Clashes(log + events[..i], events[i])
  }

  lemma {:induction false} ListAppendsIff(s: Store, events: seq<Event>)
    requires Consistent(s)
    ensures AllAppend(s, events) <==> !ListClashes(s.log, events)
    ensures AllAppend(s, events) ==> Covers(AppendingAll(s, events).log, s.log + events)
  {
    hide Consistent, Covers, Clashes, Appending, AppendOutcome;
    if events == [] {
      LogCoversItself(s.log);
    } else {
      var last := |events| - 1;
      var front := events[..last];
      ListAppendsIff(s, front);
      LastDecides(s.log, events);
      if AllAppend(s, front) {
        AppendingAllKeepsConsistency(s, front);
        var middle := AppendingAll(s, front);
        CoveredClash(middle.log, s.log + front, events[last]);
        ConsistentConflict(middle, events[last]);
        if AllAppend(s, events) {
          CoverGrows(middle, s.log + front, events[last]);
          assert s.log + events == s.log + front + [events[last]];
        }
      }
    }
  }

  lemma ConsistentConflict(s: Store, e: Event)
    requires Consistent(s)
    ensures AppendOutcome(s.log, e).IdConflict? <==> Clashes(s.log, e)
  {
    ConflictIsClash(s.log, e);
  }

  lemma LastDecides(log: Log, events: seq<Event>)
    requires events != []
    ensures ListClashes(log, events) <==>
      ListClashes(log, events[..|events| - 1]) || Clashes(log + events[..|events| - 1], events[|events| - 1])
  {
    hide Clashes;
    var front := events[..|events| - 1];
    forall i | 0 <= i < |front|
      ensures Clashes(log + front[..i], front[i]) == Clashes(log + events[..i], events[i])
    {
      assert front[..i] == events[..i];
    }
  }

  // ---- commits ----

  ghost predicate IsFencedOff(s: Store, guard: Option<Guard>, now: int) {
    guard.Some? && !Holds(s.claims, guard.value.tokens, guard.value.owner, now)
  }

  ghost predicate AnyStopping(s: Store, events: seq<Event>) {
    exists e :: e in events && IsStopping(s.projections, e.runId)
  }

  /** The row is open, or holds this very decision already. */
  predicate IsDecidable(s: Store, key: Text, state: CommandState, decision: Decision) {
    && key in s.commands
    && (s.commands[key].state == Processing || (s.commands[key].state == state && s.commands[key].decision == Some(decision)))
  }

  /** The reasons against a commit, each named exactly when no earlier one applies; any of them leaves everything as it was. */
  lemma CommitIsRefusedIff(s: Store, key: Text, state: CommandState, decision: Decision, events: seq<Event>,
                           rejection: Option<Text>, guard: Option<Guard>, now: int)
    requires Consistent(s)
    ensures
      var result := CommitResultOf(s, key, state, decision, events, rejection, guard, now);
      var lost := IsFencedOff(s, guard, now) || AnyStopping(s, events);
      && (result.CommitClaimLost? <==> lost)
      && (result.PreconditionFailed? <==> !lost && rejection.Some?)
      && (result.PreconditionFailed? ==> rejection == Some(result.reason))
      && (result.CommitConflict? <==> !lost && rejection.None? && ListClashes(s.log, events))
      && (result.NotFinalizable? <==>
            !lost && rejection.None? && !ListClashes(s.log, events) && !IsDecidable(s, key, state, decision))
      && (!result.Committed? ==> CommitCommand(s, key, state, decision, events, rejection, guard, now) == s)
  {
    hide Holds, Consistent, AppendingAll;
    ListAppendsIff(s, events);
    if guard.Some? {
      CurrentMeansHeld(s.claims, guard.value.tokens, guard.value.owner, now);
    }
  }

  /** A commit records its events, nothing else, and closes an open row with the decision; everything else stays. */
  lemma CommitRecordsDecision(s: Store, key: Text, state: CommandState, decision: Decision, events: seq<Event>,
                              rejection: Option<Text>, guard: Option<Guard>, now: int)
    requires Consistent(s) && CommitResultOf(s, key, state, decision, events, rejection, guard, now).Committed?
    ensures
      var after := CommitCommand(s, key, state, decision, events, rejection, guard, now);
      && s.log <= after.log && Covers(after.log, s.log + events)
      && after.projections == Fold(after.log) && UniqueIds(after.log)
      && after.claims == s.claims && after.commands.Keys == s.commands.Keys
      && (forall other | other in s.commands && other != key :: after.commands[other] == s.commands[other])
      && key in s.commands
      && after.commands[key] ==
           if s.commands[key].state == Processing then CommandRow(s.commands[key].candidate, state, Some(decision))
           else s.commands[key]
  {
    hide AppendingAll, AreCurrent, Fold, UniqueIds, Covers;
    ListAppendsIff(s, events);
    AppendingAllKeepsConsistency(s, events);
  }
}
