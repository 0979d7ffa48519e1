/** What it takes for an event to have been caused by the seed of its agent run, told on the log. */
module CausalLaws {
  import opened Contracts
  import opened Events
  import opened CausalChains

  /** The bridge repeats, word for word, a durable response of the root task that was addressed to this agent. */
  ghost predicate IsBridged(log: Log, e: Event, seed: Event) {
    && e.fact.PeerResponded? && e.source == "runtime.a2a.bridge" && seed.fact.AgentRunCreated?
    && exists root | root in log ::
         && root.fact.PeerResponded?
         && e.causation == Some(root.id) && e.fact.rootEventId == Some(root.id)
         && root.runId == seed.runId && root.taskId == seed.fact.rootTask
         && root.fact.peerReceiver == seed.fact.runAgent && root.fact.content == e.fact.content
  }

  lemma TrustedMeansBridged(log: Log, e: Event, seed: Event)
    requires UniqueIds(log)
    ensures IsTrustedObservation(log, e, seed) <==> IsBridged(log, e, seed)
  {
    hide UniqueIds;
    if IsBridged(log, e, seed) {
      var root :| root in log
        && root.fact.PeerResponded?
        && e.causation == Some(root.id) && e.fact.rootEventId == Some(root.id)
        && root.runId == seed.runId && root.taskId == seed.fact.rootTask
        && root.fact.peerReceiver == seed.fact.runAgent && root.fact.content == e.fact.content;
      LookupFinds(log, root);
    }
  }

  /** The cause is an event of the log, of the seed's run and task, at a strictly earlier position. */
  ghost predicate IsEarlierCause(log: Log, positions: Positions, e: Event, cause: Event, seed: Event) {
    && cause in log && e.causation == Some(cause.id)
    && cause.runId == seed.runId && cause.taskId == seed.taskId
    && e.id in positions && cause.id in positions && positions[cause.id] < positions[e.id]
  }

  lemma CauseMeansEarlier(log: Log, positions: Positions, e: Event, cause: Event, seed: Event)
    requires UniqueIds(log)
    ensures CauseOf(log, positions, e, seed) == Some(cause) <==> IsEarlierCause(log, positions, e, cause, seed)
  {
    hide UniqueIds;
    if cause in log {
      LookupFinds(log, cause);
    }
  }

  /** From the event, hop by hop over earlier causes, to the seed itself or the first bridged response. */
  ghost predicate IsCausalPath(log: Log, positions: Positions, seed: Event, path: seq<Event>) {
    && path != []
    && (path[|path| - 1].id == seed.id || IsBridged(log, path[|path| - 1], seed))
    && (forall i | 0 <= i < |path| - 1 :: path[i].id != seed.id && !IsBridged(log, path[i], seed))
    && forall i | 0 <= i < |path| - 1 :: IsEarlierCause(log, positions, path[i], path[i + 1], seed)
  }

  lemma ReachingMeansCausalPath(log: Log, positions: Positions, seed: Event, e: Event)
    requires UniqueIds(log)
    ensures ReachesSeed(log, positions, seed, e) <==> exists path :: IsCausalPath(log, positions, seed, path) && path[0] == e
  {
    hide UniqueIds, IsBridged, IsTrustedObservation, IsEarlierCause, CauseOf;
    forall path
      ensures IsChain(log, positions, seed, path) <==> IsCausalPath(log, positions, seed, path)
    {
      ChainMeansPath(log, positions, seed, path);
    }
  }

  lemma ChainMeansPath(log: Log, positions: Positions, seed: Event, path: seq<Event>)
    requires UniqueIds(log)
    ensures IsChain(log, positions, seed, path) <==> IsCausalPath(log, positions, seed, path)
  {
    hide UniqueIds, IsBridged, IsTrustedObservation, IsEarlierCause, CauseOf;
    forall i | 0 <= i < |path|
      ensures IsGoal(log, path[i], seed) <==> path[i].id == seed.id || IsBridged(log, path[i], seed)
    {
      TrustedMeansBridged(log, path[i], seed);
    }
    forall i | 0 <= i < |path| - 1
      ensures CauseOf(log, positions, path[i], seed) == Some(path[i + 1]) <==> IsEarlierCause(log, positions, path[i], path[i + 1], seed)
    {
      CauseMeansEarlier(log, positions, path[i], path[i + 1], seed);
    }
  }
}
