/** Whether an event was caused, hop by hop, by the seed of its agent run. */
module CausalChains {
  import opened Contracts
  import opened Events

  type Positions = map<EventId, nat>

  /** A bridged peer response that repeats a durable response of the root task addressed to this agent. */
  predicate IsTrustedObservation(log: Log, e: Event, seed: Event) {
    && e.fact.PeerResponded?
    && e.source == "runtime.a2a.bridge"
    && e.fact.rootEventId.Some?
    && e.causation == e.fact.rootEventId
    && var root := Lookup(log, e.fact.rootEventId.value);
    && root.Some?
    && root.value.runId == seed.runId
    && seed.fact.AgentRunCreated?
    && root.value.taskId == seed.fact.rootTask
    && root.value.fact.PeerResponded?
    && root.value.fact.peerReceiver == seed.fact.runAgent
    && root.value.fact.content == e.fact.content
  }

  predicate IsGoal(log: Log, e: Event, seed: Event) {
    e.id == seed.id || IsTrustedObservation(log, e, seed)
  }

  /** The cause of an event, if it is a strictly earlier event of the seed's run and task. */
  function CauseOf(log: Log, positions: Positions, e: Event, seed: Event): (cause: Option<Event>)
    ensures cause.Some? ==> Rank(positions, cause.value) < Rank(positions, e)
  {
    if e.causation.None? then None
    else
      var parent := Lookup(log, e.causation.value);
      if parent.None? || parent.value.runId != seed.runId || parent.value.taskId != seed.taskId
         || parent.value.id !in positions || e.id !in positions || positions[parent.value.id] >= positions[e.id]
      then None else parent
  }

  function Rank(positions: Positions, e: Event): nat {
    if e.id in positions then positions[e.id] else 0
  }

  /** Every hop of the path goes to the cause of the one before, and the path stops at its first goal. */
  ghost predicate IsChain(log: Log, positions: Positions, seed: Event, path: seq<Event>) {
    && path != []
    && IsGoal(log, path[|path| - 1], seed)
    && forall i | 0 <= i < |path| - 1 ::
         !IsGoal(log, path[i], seed) && CauseOf(log, positions, path[i], seed) == Some(path[i + 1])
  }

  ghost predicate ReachesSeed(log: Log, positions: Positions, seed: Event, e: Event) {
    exists path :: IsChain(log, positions, seed, path) && path[0] == e
  }

  lemma ReachOneHop(log: Log, positions: Positions, seed: Event, e: Event)
    requires !IsGoal(log, e, seed)
    ensures ReachesSeed(log, positions, seed, e) <==>
      CauseOf(log, positions, e, seed).Some? && ReachesSeed(log, positions, seed, CauseOf(log, positions, e, seed).value)
  {
    hide IsGoal, CauseOf;
    var cause := CauseOf(log, positions, e, seed);
    if ReachesSeed(log, positions, seed, e) {
      var path :| IsChain(log, positions, seed, path) && path[0] == e;
      assert |path| > 1;
      assert IsChain(log, positions, seed, path[1..]) && path[1..][0] == cause.value;
    }
    if cause.Some? && ReachesSeed(log, positions, seed, cause.value) {
      var path :| IsChain(log, positions, seed, path) && path[0] == cause.value;
      assert IsChain(log, positions, seed, [e] + path);
    }
  }

  lemma GoalReaches(log: Log, positions: Positions, seed: Event, e: Event)
    requires IsGoal(log, e, seed)
    ensures ReachesSeed(log, positions, seed, e)
  {
    assert IsChain(log, positions, seed, [e]);
  }

  /** Along a chain positions strictly fall, so no event is met twice and the chain is bounded. */
  lemma {:induction false} ChainsDescend(log: Log, positions: Positions, seed: Event, path: seq<Event>, i: nat, j: nat)
    requires IsChain(log, positions, seed, path) && i < j < |path|
    ensures Rank(positions, path[j]) < Rank(positions, path[i]) && path[i].id != path[j].id
    decreases j
  {
    hide IsGoal;
    if i < j - 1 {
      ChainsDescend(log, positions, seed, path, i, j - 1);
    }
  }

  /**
    The walk as it runs, with the set of visited ids it keeps: the answer does not depend on that set,
    because an id it holds never comes up again.
   */
  method CausalChainReachesSeed(log: Log, positions: Positions, e: Event, seed: Event) returns (reaches: bool)
    ensures reaches <==> ReachesSeed(log, positions, seed, e)
  {
    hide ReachesSeed, IsTrustedObservation;
    var current := e;
    var visited: set<EventId> := {};
    while current.id != seed.id
      invariant ReachesSeed(log, positions, seed, e) <==> ReachesSeed(log, positions, seed, current)
      invariant forall id | id in visited :: id in positions && current.id in positions && positions[current.id] < positions[id]
      decreases Rank(positions, current)
    {
      if IsTrustedObservation(log, current, seed) {
        GoalReaches(log, positions, seed, current);
        return true;
      }
      ReachOneHop(log, positions, seed, current);
      assert current.id !in visited;
      if current.id in visited || current.causation.None? {
        return false;
      }
      visited := visited + {current.id};
      var parent := Lookup(log, current.causation.value);
      if parent.None? {
        return false;
      }
      if parent.value.runId != seed.runId || parent.value.taskId != seed.taskId || parent.value.id !in positions
         || current.id !in positions || positions[parent.value.id] >= positions[current.id]
      {
        return false;
      }
      current := parent.value;
    }
    GoalReaches(log, positions, seed, current);
    return true;
  }
}
