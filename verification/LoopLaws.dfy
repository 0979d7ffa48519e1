/**
  When a tool is let through and what an action without a tool leaves behind, told on the facts of the log
  and the configuration alone.
 */
module LoopLaws {
  import opened Contracts
  import opened LoopFacts
  import opened AgentLoops

  // ---- the two budgets ----

  ghost function Starts(log: LoopLog): set<nat> {
    set i: nat | i < |log| && log[i].OperationStarted?
  }

  ghost function Nudges(log: LoopLog, kind: NudgeKind): set<nat> {
    set i: nat | i < |log| && log[i].Nudged? && log[i].kind == kind
  }

  lemma {:induction false} StartsAreCounted(log: LoopLog)
    ensures StartedTotal(log) == |Starts(log)|
  {
    if log == [] {
    } else {
      var n := |log| - 1;
      StartsAreCounted(log[..n]);
      if log[n].OperationStarted? {
        assert Starts(log) == Starts(log[..n]) + {n};
      } else {
        assert Starts(log) == Starts(log[..n]);
      }
    }
  }

  lemma {:induction false} NudgesAreCounted(log: LoopLog, kind: NudgeKind)
    ensures NudgeTotal(log, kind) == |Nudges(log, kind)|
  {
    if log == [] {
    } else {
      var n := |log| - 1;
      NudgesAreCounted(log[..n], kind);
      if log[n].Nudged? && log[n].kind == kind {
        assert Nudges(log, kind) == Nudges(log[..n], kind) + {n};
      } else {
        assert Nudges(log, kind) == Nudges(log[..n], kind);
      }
    }
  }

  // ---- letting a tool through ----

  predicate Manifests(f: LoopFact, turn: Turn) {
    f.CapabilitiesCompiled? && f.turn == turn
  }

  predicate Conceals(f: LoopFact, turn: Turn, tool: ToolName) {
    Manifests(f, turn) && tool !in f.disclosed
  }

  /** The last manifest written for the turn does not disclose the tool. */
  ghost predicate IsHidden(log: LoopLog, turn: Turn, tool: ToolName) {
    exists i | 0 <= i < |log| :: Conceals(log[i], turn, tool) && forall j | i < j < |log| :: !Manifests(log[j], turn)
  }

  lemma {:induction false} LatestManifestDiscloses(log: LoopLog, turn: Turn, tool: ToolName)
    ensures Disclosed(log, turn).Some? && tool !in Disclosed(log, turn).value <==> IsHidden(log, turn, tool)
  {
    if log == [] {
    } else {
      var n := |log| - 1;
      LatestManifestDiscloses(log[..n], turn, tool);
      if Manifests(log[n], turn) {
        assert IsHidden(log, turn, tool) <==> tool !in log[n].disclosed;
      } else {
        HidingStays(log, turn, tool);
      }
    }
  }

  lemma HidingStays(log: LoopLog, turn: Turn, tool: ToolName)
    requires log != [] && !Manifests(log[|log| - 1], turn)
    ensures IsHidden(log, turn, tool) <==> IsHidden(log[..|log| - 1], turn, tool)
  {
    var n := |log| - 1;
    if i :| 0 <= i < |log| && Conceals(log[i], turn, tool) && forall j | i < j < |log| :: !Manifests(log[j], turn) {
      assert log[..n][i] == log[i];
    }
    if i :| 0 <= i < n && Conceals(log[..n][i], turn, tool) && forall j | i < j < n :: !Manifests(log[..n][j], turn) {
      forall j | i < j < |log|
        ensures !Manifests(log[j], turn)
      {
        assert j < n ==> log[..n][j] == log[j];
      }
    }
  }

  /** A tool may be called exactly if it is registered, not hidden from the turn, and fewer operations were started than allowed. */
  lemma ToolIsLetThroughIff(config: Config, log: LoopLog, turn: Turn, tool: ToolName)
    ensures MayCall(config, log, turn, tool) <==>
      && tool in config.tools
      && !(config.compilesCapabilities && IsHidden(log, turn, tool))
      && (config.toolLimit.Some? ==> |Starts(log)| < config.toolLimit.value)
  {
    LatestManifestDiscloses(log, turn, tool);
    StartsAreCounted(log);
  }

  // ---- actions without a tool ----

  function LimitOf(config: Config, kind: NudgeKind): nat {
    if kind in config.nudgeLimits then config.nudgeLimits[kind] else 0
  }

  /** The fact that ends the turn when the completion gate, asked or not, does not stand in the way. */
  predicate IsOutcome(config: Config, turn: Turn, action: Action, delivery: Delivery, f: LoopFact) {
    match action
    case Stop => f == AgentStopped(turn)
    case ReportBlocked => f == AgentStopped(turn)
    case SubmitOutput => f == AgentSubmitted(turn)
    case WaitForEvent => f == AgentWaiting(turn, None)
    case RequestHuman => f == AgentWaiting(turn, None)
    case EmitArtifact => f == ArtifactCreated(turn)
    case Continue => f == Continued(turn)
    case SendMessage =>
      if config.handlesMessages && delivery == Refused then f == MessageDenied(turn)
      else if config.handlesMessages then f == AgentWaiting(turn, delivery.correlation)
      else f == MessageSent(turn)
    case CallTool(_) => false
  }

  /**
    The gate is asked exactly by a stop or a submission under a configured gate. If it refuses, the turn ends
    with a nudge while that kind has one left and stops the agent afterwards; otherwise the action is carried out.
   */
  lemma TrailTells(config: Config, log: LoopLog, turn: Turn, action: Action, oracle: Oracle)
    requires !action.CallTool?
    ensures
      var trail := Trail(config, log, turn, action, oracle);
      var asked := config.gated && (action == Stop || action == SubmitOutput);
      && trail != []
      && (asked <==> exists f :: f in trail && f.GateDecided?)
      && (forall f | f in trail && f.GateDecided? :: f == GateDecided(turn, oracle.gatePasses))
      && if asked && !oracle.gatePasses then
           trail[|trail| - 1] == if |Nudges(log, oracle.finding)| < LimitOf(config, oracle.finding) then Nudged(turn, oracle.finding) else AgentStopped(turn)
         else IsOutcome(config, turn, action, oracle.delivery, trail[|trail| - 1])
  {
    hide NudgeTotal, Nudges;
    NudgesAreCounted(log, oracle.finding);
    if config.gated && (action == Stop || action == SubmitOutput) {
      assert GateDecided(turn, oracle.gatePasses) in Trail(config, log, turn, action, oracle);
    }
  }
}
