/**
  The single-agent control loop: its only memory is its log. `fuel` is the number of appends before the
  process is cut off; everything the loop holds in variables is then lost and the next run starts over.
 */
module AgentLoops {
  import opened Contracts
  import opened LoopFacts

  datatype Status = Ok | Crashed | IllegalTransition | Raised {
    predicate IsFailure() {
      !Ok?
    }

    function PropagateFailure(): Status {
      this
    }
  }

  datatype Delivery = Delivered(correlation: Option<Correlation>) | Refused

  /** What the surroundings of one turn do: model, authority, gate, tool and message handler. */
  datatype Oracle = Oracle(
    unresolvedIsSafe: bool,
    response: Option<Response>,
    disclosed: set<ToolName>,
    gatePasses: bool,
    finding: NudgeKind,
    toolReturns: bool,
    delivery: Delivery)

  predicate CompletesTurn(f: LoopFact) {
    f.ValidationFailed? || f.ActionDenied? || f.ToolCompleted? || f.AgentStopped? || f.AgentSubmitted? || f.AgentWaiting?
    || f.Nudged? || f.Continued? || f.MessageSent? || f.MessageDenied? || f.ArtifactCreated? || f.OperationUnknown?
  }

  /** A turn with a request or a response and no recorded result. */
  predicate IsRecoverable(log: LoopLog, turn: Turn) {
    && (exists f | f in log :: (f.ModelRequested? || f.ModelCompleted?) && f.turn == turn)
    && (forall f | f in log :: CompletesTurn(f) ==> TurnOf(f) != Some(turn))
  }

  predicate IsDangling(log: LoopLog, f: LoopFact) {
    f.OperationStarted? && !IsSettled(log, f.op)
  }

  ghost predicate IsLatestDangling(log: LoopLog, f: LoopFact) {
    exists i | 0 <= i < |log| && log[i] == f ::
      IsDangling(log, f) && forall j | i < j < |log| :: !IsDangling(log, log[j])
  }

  /** The turn `_recoverable_turn` resumes: the highest-numbered unfinished one. */
  ghost predicate IsResumed(log: LoopLog, turn: Turn) {
    IsRecoverable(log, turn) && forall later | later > turn :: !IsRecoverable(log, later)
  }

  ghost predicate HasResponse(log: LoopLog, turn: Turn) {
    exists f | f in log :: f.ModelCompleted? && f.turn == turn
  }

  /** The resumed turn asked the model, has no response, and the authority cannot rule out that it was sent. */
  ghost predicate MustNotResample(config: Config, log: LoopLog, oracle: Oracle) {
    && config.authority && !oracle.unresolvedIsSafe
    && exists turn :: IsResumed(log, turn) && ModelRequested(turn) in log && !HasResponse(log, turn)
  }

  /** The tools the turn's latest manifest disclosed, if it has one. */
  function Disclosed(log: LoopLog, turn: Turn): Option<set<ToolName>> {
    if log == [] then None
    else
      var f := log[|log| - 1];
      if f.CapabilitiesCompiled? && f.turn == turn then Some(f.disclosed) else Disclosed(log[..|log| - 1], turn)
  }

  /** The tool exists, is not hidden from the turn, and the started operations leave budget for it. */
  predicate MayCall(config: Config, log: LoopLog, turn: Turn, tool: ToolName) {
    && tool in config.tools
    && (config.compilesCapabilities && Disclosed(log, turn).Some? ==> tool in Disclosed(log, turn).value)
    && (config.toolLimit.Some? ==> StartedTotal(log) < config.toolLimit.value)
  }

  /** What an action without a tool leaves in the log once it is allowed. */
  function Conclusion(config: Config, turn: Turn, action: Action, delivery: Delivery): LoopLog
    requires !action.CallTool?
  {
    match action
    case Stop => [AgentStopped(turn)]
    case ReportBlocked => [AgentStopped(turn)]
    case SubmitOutput => [PhaseChanged(turn, SubmittedPhase), AgentSubmitted(turn)]
    case WaitForEvent => WaitFacts(turn, None)
    case RequestHuman => WaitFacts(turn, None)
    case EmitArtifact => [ArtifactCreated(turn)]
    case SendMessage =>
      if !config.handlesMessages then [MessageSent(turn)]
      else if delivery.Refused? then [MessageDenied(turn)]
      else [MessageSent(turn)] + WaitFacts(turn, delivery.correlation)
    case Continue => [Continued(turn)]
  }

  function WaitFacts(turn: Turn, correlation: Option<Correlation>): LoopLog {
    [PhaseChanged(turn, WaitingPhase), AgentWaiting(turn, correlation)]
  }

  /** What the completion gate leaves in the log. */
  function GateTrail(config: Config, log: LoopLog, turn: Turn, passes: bool, finding: NudgeKind): LoopLog {
    if !config.gated then []
    else if passes then [GateDecided(turn, true)]
    else if NudgeTotal(log, finding) < NudgeLimit(config, finding) then [GateDecided(turn, false), Nudged(turn, finding)]
    else [GateDecided(turn, false), AgentStopped(turn)]
  }

  /** What a tool action leaves in the log. */
  function ToolTrail(turn: Turn, op: Operation): LoopLog {
    [PhaseChanged(turn, ActionExecuting), OperationStarted(turn, op), ToolRequested(turn, op), PhaseChanged(turn, ResultRecording),
     ToolCompleted(turn, op), OperationCompleted(turn, op)]
  }

  /** The manifests a turn compiles before it asks the model. */
  function ManifestTrail(config: Config, turn: Turn, disclosed: set<ToolName>): LoopLog {
    (if config.compilesCapabilities then [CapabilitiesCompiled(turn, disclosed)] else [])
    + (if config.compilesContext then [ContextCompiled(turn)] else [])
  }

  /** The request is durable before the model is asked, the response once it is there. */
  function AskTrail(turn: Turn, oracle: Oracle): LoopLog {
    [PhaseChanged(turn, ModelCalling), ModelRequested(turn)]
    + (if oracle.response.Some? then [ModelCompleted(turn, oracle.response.value)] else [])
  }

  /** What a new turn logs until it has its response. */
  function SampleTrail(config: Config, turn: Turn, oracle: Oracle): LoopLog {
    [PhaseChanged(turn, ContextBuilding)] + ManifestTrail(config, turn, oracle.disclosed) + AskTrail(turn, oracle)
  }

  /** Every operation started so far has an id below the next one. */
  ghost predicate OpsAreSpent(log: LoopLog, serial: Operation) {
    forall f | f in log && f.OperationStarted? :: f.op < serial
  }

  /** A note that something durable is used again is written once. */
  function Noting(log: LoopLog, f: LoopFact): LoopLog {
    if f in log then [] else [f]
  }

  /** What validating a response leaves in the log: its command, or the end of the turn. */
  function ValidationTrail(turn: Turn, parsed: Option<Action>): LoopLog {
    [PhaseChanged(turn, DecisionValidating)]
    + (match parsed
       case Some(action) => [CommandValidated(turn, action)]
       case None => [PhaseChanged(turn, FailedPhase), ValidationFailed(turn)])
  }

  /** The way from a response to a command; a recovered turn keeps the response and the command it has. */
  function DecisionTrail(log: LoopLog, turn: Turn, response: Response, recovered: bool): LoopLog {
    if !response.complete then [PhaseChanged(turn, FailedPhase), ValidationFailed(turn)]
    else
      (if recovered then Noting(log, ResponseReused(turn)) else [])
      + (if exists f :: f in log && f.CommandValidated? && f.turn == turn then Noting(log, CommandReused(turn))
         else ValidationTrail(turn, response.parsed))
  }

  predicate AsksForCompletion(action: Action) {
    action.Stop? || action.SubmitOutput?
  }

  predicate Allowed(config: Config, action: Action, passes: bool) {
    AsksForCompletion(action) && config.gated ==> passes
  }

  function Trail(config: Config, log: LoopLog, turn: Turn, action: Action, oracle: Oracle): LoopLog
    requires !action.CallTool?
  {
    [PhaseChanged(turn, ResultRecording)]
    + (if AsksForCompletion(action) then GateTrail(config, log, turn, oracle.gatePasses, oracle.finding) else [])
    + (if Allowed(config, action, oracle.gatePasses) then Conclusion(config, turn, action, oracle.delivery) else [])
  }

  /** The actions after which the agent cannot go on by itself, when the gate lets them through. */
  predicate HandsOver(config: Config, action: Action, delivery: Delivery) {
    && !action.EmitArtifact? && !action.Continue?
    && (action.SendMessage? ==> config.handlesMessages && delivery.Delivered?)
  }

  // ---- finished turns ----

  /** The results a turn can have, by name. */
  predicate IsResult(f: LoopFact) {
    match f
    case ValidationFailed(_) => true
    case ActionDenied(_) => true
    case ToolCompleted(_, _) => true
    case OperationUnknown(_, _) => true
    case Nudged(_, _) => true
    case Continued(_) => true
    case ArtifactCreated(_) => true
    case MessageSent(_) => true
    case MessageDenied(_) => true
    case AgentWaiting(_, _) => true
    case AgentStopped(_) => true
    case AgentSubmitted(_) => true
    case _ => false
  }

  ghost predicate HasResult(log: LoopLog, turn: Turn) {
    exists f | f in log :: IsResult(f) && TurnOf(f) == Some(turn)
  }

  ghost predicate AskedModel(log: LoopLog, turn: Turn) {
    ModelRequested(turn) in log || exists response :: ModelCompleted(turn, response) in log
  }

  ghost predicate IsOver(log: LoopLog, op: Operation) {
    OperationReconciled(op) in log || exists turn :: OperationCompleted(turn, op) in log || OperationUnknown(turn, op) in log
  }

  /** Every turn that asked the model has a result, and every started operation is over. */
  ghost predicate AllFinished(log: LoopLog) {
    && (forall turn | AskedModel(log, turn) :: HasResult(log, turn))
    && (forall f | f in log && f.OperationStarted? :: IsOver(log, f.op))
  }

  /** Nothing is left unfinished that was not so before. */
  ghost predicate LeavesNothingOpen(before: LoopLog, after: LoopLog) {
    && (forall turn | AskedModel(after, turn) && !HasResult(after, turn) :: AskedModel(before, turn) && !HasResult(before, turn))
    && (forall f | f in after && f.OperationStarted? && !IsOver(after, f.op) :: f in before && !IsOver(before, f.op))
  }

  /** What was appended belongs to one turn. */
  ghost predicate OnlyTurn(before: LoopLog, after: LoopLog, turn: Turn) {
    before <= after && forall i | |before| <= i < |after| :: TurnOf(after[i]) == Some(turn)
  }

  /** What was appended belongs to one turn, gives it its result as the last thing, and starts nothing that is not over. */
  ghost predicate Finishes(before: LoopLog, after: LoopLog, turn: Turn) {
    && OnlyTurn(before, after, turn) && HasResult(after, turn)
    && |before| < |after| && EndsTurn(after[|after| - 1])
    && forall i | |before| <= i < |after| && after[i].OperationStarted? :: IsOver(after, after[i].op)
  }

  /** What an authorized action leaves: a tool's start, request and result, or the trail of any other action. */
  ghost predicate ActsAs(config: Config, before: LoopLog, after: LoopLog, turn: Turn, action: Action, oracle: Oracle) {
    if action.CallTool? then exists op :: after == before + ToolTrail(turn, op)
    else after == before + Trail(config, before, turn, action, oracle)
  }

  /** A validated command is authorized and carried out, or denied. */
  ghost predicate CarriesOut(config: Config, before: LoopLog, after: LoopLog, turn: Turn, action: Action, oracle: Oracle) {
    var authorized := before + [PhaseChanged(turn, ActionAuthorizing)];
    if action.CallTool? && !MayCall(config, before, turn, action.tool)
    then after == authorized + [PhaseChanged(turn, FailedPhase), ActionDenied(turn)]
    else ActsAs(config, authorized, after, turn, action, oracle)
  }

  /** The way from a response to the result of its turn: refused as a command, or carried out as the turn's one command. */
  ghost predicate SettlesAs(config: Config, before: LoopLog, after: LoopLog, turn: Turn, response: Response, recovered: bool, oracle: Oracle) {
    var decided := before + DecisionTrail(before, turn, response, recovered);
    || (after == decided && decided[|decided| - 1..] == [ValidationFailed(turn)])
    || exists action :: CommandValidated(turn, action) in decided && CarriesOut(config, decided, after, turn, action, oracle)
  }

  /** The interrupted turn if it has its response, otherwise a new one. */
  ghost predicate TakesTurn(config: Config, before: LoopLog, after: LoopLog, oracle: Oracle) {
    if exists turn :: IsResumed(before, turn) && HasResponse(before, turn) then
      exists turn, response ::
        && IsResumed(before, turn) && ModelCompleted(turn, response) in before
        && SettlesAs(config, before, after, turn, response, true, oracle)
    else
      oracle.response.Some? && exists turn: Turn ::
        && (forall f | f in before :: TurnOf(f) != Some(turn))
        && SettlesAs(config, before + SampleTrail(config, turn, oracle), after, turn, oracle.response.value, false, oracle)
  }

  /** The model was sampled in a turn nothing was known of before. */
  ghost predicate SampledAnew(before: LoopLog, after: LoopLog, oracle: Oracle) {
    oracle.response.Some? && exists turn: Turn ::
      ModelCompleted(turn, oracle.response.value) in after && forall f | f in before :: TurnOf(f) != Some(turn)
  }

  /** The agent is stopped, submitted or failed; an operation of unknown outcome is not reconciled; or the latest wait is not answered. */
  ghost predicate IsHeldUp(log: LoopLog) {
    || (exists f | f in log :: f.AgentStopped? || f.AgentSubmitted? || f == AgentFailed)
    || (exists turn, op :: OperationUnknown(turn, op) in log && OperationReconciled(op) !in log)
    || (exists i | 0 <= i < |log| :: IsUnansweredWait(log, i))
  }

  /** A plain wait holds until anything else is logged, one for an answer until that answer is. */
  ghost predicate IsUnansweredWait(log: LoopLog, i: nat)
    requires i < |log|
  {
    && log[i].AgentWaiting? && (forall j | i < j < |log| :: !log[j].AgentWaiting?)
    && (log[i].correlation == None ==> i == |log| - 1)
    && forall answer | log[i].correlation == Some(answer) :: Woken(answer) !in log[i + 1..]
  }

  datatype Episode = Restart(appends: nat, oracle: Oracle) | Arrives(fact: LoopFact)

  /** How many facts a life can add: each restart its appends, each arrival one. */
  function Allowance(episodes: seq<Episode>): nat {
    if episodes == [] then 0
    else
      Allowance(episodes[..|episodes| - 1])
      + (match episodes[|episodes| - 1]
         case Restart(appends, _) => appends
         case Arrives(_) => 1)
  }

  /** The last fact of a run that went through to its end. */
  predicate EndsTurn(f: LoopFact) {
    CompletesTurn(f) || f.OperationCompleted?
  }

  class AgentLoop {
    const config: Config
    var log: LoopLog
    var toolCalls: seq<Call>
    var fuel: nat
    var serial: Operation

    constructor (config: Config)
      ensures this.config == config && log == [Seed] && toolCalls == [] && Valid()
    {
      this.config := config;
      log, toolCalls, fuel, serial := [Seed], [], 0, 0;
      new;
      StartsOk(config);
    }

    ghost predicate Valid()
      reads this
    {
      LoopOk(config, log, toolCalls) && OpsAreSpent(log, serial)
    }

    // ---- appending ----

    method Append(f: LoopFact) returns (s: Status)
      requires Valid() && MayFollow(config, log, f) && (f.OperationStarted? ==> f.op < serial)
      modifies this`log, this`fuel
      ensures Valid()
      ensures s.Ok? || (s.Crashed? && fuel == 0)
      ensures s.Ok? <==> old(fuel) > 0
      ensures s.Ok? ==> fuel == old(fuel) - 1
      ensures log == if s.Ok? then old(log) + [f] else old(log)
      ensures StartedTotal(log) == old(StartedTotal(log)) + (if s.Ok? && f.OperationStarted? then 1 else 0)
      ensures !f.Nudged? ==> forall kind :: NudgeTotal(log, kind) == old(NudgeTotal(log, kind))
      ensures forall turn ::
        PhaseOf(log, turn) == (if s.Ok? && f.PhaseChanged? && f.turn == turn then Some(f.phase) else old(PhaseOf(log, turn)))
    {
      hide LoopOk, MayFollow;
      if fuel == 0 {
        return Crashed;
      }
      FactKeepsLoop(config, log, toolCalls, f);
      TotalsAppend(log, f);
      forall turn
        ensures PhaseOf(log + [f], turn) == if f.PhaseChanged? && f.turn == turn then Some(f.phase) else PhaseOf(log, turn)
      {
        CountAppend(log, f, turn);
      }
      fuel := fuel - 1;
      log := log + [f];
      return Ok;
    }

    method LastPhase(turn: Turn) returns (phase: Option<Phase>)
      ensures phase == PhaseOf(log, turn)
    {
      var i := |log|;
      assert log[..i] == log;
      while i > 0
        invariant 0 <= i <= |log|
        invariant PhaseOf(log, turn) == PhaseOf(log[..i], turn)
      {
        i := i - 1;
        assert log[..i + 1][..i] == log[..i];
        if log[i].PhaseChanged? && log[i].turn == turn {
          return Some(log[i].phase);
        }
      }
      return None;
    }

    /** `_phase`: a turn re-enters no phase; only a turn without phases may start. */
    method EnterPhase(turn: Turn, phase: Phase) returns (s: Status)
      requires Valid()
      requires phase.ContextBuilding? <==> PhaseOf(log, turn).None?
      modifies this`log, this`fuel
      ensures |log| + fuel == old(|log| + fuel)
      ensures Valid()
      ensures s.Crashed? ==> fuel == 0
      ensures !s.Raised?
      ensures s.IllegalTransition? <==>
        old(PhaseOf(log, turn)).Some? && !TransitionAllowed(old(PhaseOf(log, turn)).value, phase)
      ensures log == if s.Ok? then old(log) + [PhaseChanged(turn, phase)] else old(log)
      ensures s.Ok? ==> PhaseOf(log, turn) == Some(phase)
      ensures s.Ok? && !phase.ContextBuilding? ==> TransitionAllowed(old(PhaseOf(log, turn)).value, phase)
      ensures s.Ok? && phase.ModelCalling? ==> Count(log, ResponseKind, turn) == 0
      ensures s.Ok? && phase.DecisionValidating? ==> Count(log, CommandKind, turn) == 0
      ensures s.Ok? && phase.ActionExecuting? ==> Count(log, StartedKind, turn) == 0 && CallCount(toolCalls, turn) == 0
      ensures StartedTotal(log) == old(StartedTotal(log))
      ensures forall kind :: NudgeTotal(log, kind) == old(NudgeTotal(log, kind))
    {
      hide LoopOk;
      var previous := LastPhase(turn);
      if previous.Some? && !TransitionAllowed(previous.value, phase) {
        return IllegalTransition;
      }
      if previous.Some? {
        TurnIsOk(config, log, toolCalls, turn);
        EnteredPhaseIsFresh(log, toolCalls, turn, phase);
      }
      s := Append(PhaseChanged(turn, phase));
    }

    // ---- reading the log ----

    method WaitsActively() returns (waiting: bool)
      ensures waiting <==> HasActiveWait(log)
    {
      var i := |log|;
      while i > 0 && !log[i - 1].AgentWaiting?
        invariant 0 <= i <= |log|
        invariant forall j | i <= j < |log| :: !log[j].AgentWaiting?
      {
        i := i - 1;
      }
      if i == 0 {
        NoWaitNoActiveWait(log);
        return false;
      }
      WaitDecided(log, i);
      match log[i - 1].correlation
      case None => return i == |log|;
      case Some(correlation) => return Woken(correlation) !in log[i..];
    }

    method UnresolvedOperation() returns (found: Option<LoopFact>)
      ensures found.Some? ==> IsLatestDangling(log, found.value)
      ensures found.None? ==> forall f | f in log :: !IsDangling(log, f)
      ensures found.Some? ==> found.value in log && found.value.OperationStarted? && !IsOver(log, found.value.op)
      ensures found.None? ==> forall f | f in log && f.OperationStarted? :: IsOver(log, f.op)
    {
      SettledMeansOver(log);
      var i := |log|;
      while i > 0
        invariant 0 <= i <= |log|
        invariant forall j | i <= j < |log| :: !IsDangling(log, log[j])
      {
        i := i - 1;
        if IsDangling(log, log[i]) {
          return Some(log[i]);
        }
      }
      return None;
    }

    method NextTurn() returns (turn: Turn)
      ensures forall f | f in log && TurnOf(f).Some? :: TurnOf(f).value < turn
      ensures turn > 0 && (turn == 1 || exists f | f in log :: TurnOf(f) == Some(turn - 1))
    {
      turn := 0;
      for i := 0 to |log|
        invariant turn == 0 || exists f | f in log :: TurnOf(f) == Some(turn)
        invariant forall j | 0 <= j < i && TurnOf(log[j]).Some? :: TurnOf(log[j]).value <= turn
      {
        if TurnOf(log[i]).Some? && TurnOf(log[i]).value > turn {
          turn := TurnOf(log[i]).value;
          assert log[i] in log;
        }
      }
      turn := turn + 1;
    }

    /** The highest-numbered recoverable turn. */
    method RecoverableTurn() returns (found: Option<Turn>)
      ensures found.Some? ==> IsResumed(log, found.value)
      ensures found.None? ==> forall turn :: !IsRecoverable(log, turn)
      ensures found.Some? ==> AskedModel(log, found.value) && !HasResult(log, found.value)
      ensures found.Some? ==> forall turn | turn > found.value && AskedModel(log, turn) :: HasResult(log, turn)
      ensures found.None? ==> forall turn | AskedModel(log, turn) :: HasResult(log, turn)
    {
      RecoverableMeansUnfinished(log);
      var turn := NextTurn();
      ghost var top := turn;
      while turn > 0
        invariant turn <= top
        invariant forall t | turn <= t < top :: !IsRecoverable(log, t)
      {
        turn := turn - 1;
        if IsRecoverable(log, turn) {
          return Some(turn);
        }
      }
      return None;
    }

    method ResponseOf(turn: Turn) returns (response: Option<Response>)
      ensures response.Some? ==> ModelCompleted(turn, response.value) in log
      ensures response.None? ==> forall f | f in log :: !(f.ModelCompleted? && f.turn == turn)
    {
      var i := |log|;
      while i > 0
        invariant 0 <= i <= |log|
        invariant forall j | i <= j < |log| :: !(log[j].ModelCompleted? && log[j].turn == turn)
      {
        i := i - 1;
        if log[i].ModelCompleted? && log[i].turn == turn {
          return Some(log[i].response);
        }
      }
      return None;
    }

    method CommandOf(turn: Turn) returns (command: Option<Action>)
      ensures command.Some? ==> CommandValidated(turn, command.value) in log
      ensures command.None? ==> forall f | f in log :: !(f.CommandValidated? && f.turn == turn)
    {
      var i := |log|;
      while i > 0
        invariant 0 <= i <= |log|
        invariant forall j | i <= j < |log| :: !(log[j].CommandValidated? && log[j].turn == turn)
      {
        i := i - 1;
        if log[i].CommandValidated? && log[i].turn == turn {
          return Some(log[i].action);
        }
      }
      return None;
    }

    method DisclosedIn(turn: Turn) returns (disclosed: Option<set<ToolName>>)
      ensures disclosed == Disclosed(log, turn)
    {
      var i := |log|;
      assert log[..i] == log;
      while i > 0
        invariant 0 <= i <= |log|
        invariant Disclosed(log, turn) == Disclosed(log[..i], turn)
      {
        i := i - 1;
        assert log[..i + 1][..i] == log[..i];
        if log[i].CapabilitiesCompiled? && log[i].turn == turn {
          return Some(log[i].disclosed);
        }
      }
      return None;
    }

    method UsedCalls(events: LoopLog) returns (used: nat)
      ensures used == StartedTotal(events)
    {
      used := 0;
      for i := 0 to |events|
        invariant used == StartedTotal(events[..i])
      {
        assert events[..i + 1][..i] == events[..i];
        if events[i].OperationStarted? {
          used := used + 1;
        }
      }
      assert events[..|events|] == events;
    }

    method UsedNudges(events: LoopLog, kind: NudgeKind) returns (used: nat)
      ensures used == NudgeTotal(events, kind)
    {
      used := 0;
      for i := 0 to |events|
        invariant used == NudgeTotal(events[..i], kind)
      {
        assert events[..i + 1][..i] == events[..i];
        if events[i].Nudged? && events[i].kind == kind {
          used := used + 1;
        }
      }
      assert events[..|events|] == events;
    }

    // ---- one turn ----

    /** Opens a turn no fact has mentioned yet. */
    method OpenTurn(oracle: Oracle) returns (s: Status, turn: Turn)
      requires Valid()
      modifies this`log, this`fuel
      ensures |log| + fuel == old(|log| + fuel)
      ensures Valid() && old(log) <= log
      ensures s.Ok? || (s.Crashed? && fuel == 0)
      ensures forall f | f in old(log) :: TurnOf(f) != Some(turn)
      ensures s.Ok? ==> PhaseOf(log, turn) == Some(ContextBuilding)
      ensures s.Ok? ==> log == old(log) + [PhaseChanged(turn, ContextBuilding)] + ManifestTrail(config, turn, oracle.disclosed)
      ensures log <= old(log) + [PhaseChanged(turn, ContextBuilding)] + ManifestTrail(config, turn, oracle.disclosed)
      ensures StartedTotal(log) == old(StartedTotal(log))
    {
      hide LoopOk, PhaseOf, Count, StartedTotal, NudgeTotal, CallCount, ManifestTrail;
      turn := NextTurn();
      UnmentionedHasNone(log, turn);
      :- EnterPhase(turn, ContextBuilding);
      s := CompileManifests(turn, oracle);
    }

    method CompileManifests(turn: Turn, oracle: Oracle) returns (s: Status)
      requires Valid() && PhaseOf(log, turn) == Some(ContextBuilding)
      modifies this`log, this`fuel
      ensures |log| + fuel == old(|log| + fuel)
      ensures Valid() && old(log) <= log
      ensures s.Ok? || (s.Crashed? && fuel == 0)
      ensures PhaseOf(log, turn) == Some(ContextBuilding)
      ensures s.Ok? ==> log == old(log) + ManifestTrail(config, turn, oracle.disclosed)
      ensures log <= old(log) + ManifestTrail(config, turn, oracle.disclosed)
      ensures StartedTotal(log) == old(StartedTotal(log))
    {
      hide LoopOk, PhaseOf, Count, StartedTotal, NudgeTotal, CallCount;
      if config.compilesCapabilities {
        :- Append(CapabilitiesCompiled(turn, oracle.disclosed));
      }
      if config.compilesContext {
        :- Append(ContextCompiled(turn));
      }
      s := Ok;
    }

    /** Samples the model in a turn of its own; the response counts once it is in the log. */
    method Sample(oracle: Oracle) returns (s: Status, turn: Turn, response: Response)
      requires Valid()
      modifies this`log, this`fuel
      ensures |log| + fuel == old(|log| + fuel)
      ensures Valid() && old(log) <= log
      ensures s.Crashed? ==> fuel == 0
      ensures !s.IllegalTransition?
      ensures s.Ok? ==> ModelCompleted(turn, response) in log && PhaseOf(log, turn) == Some(ModelCalling)
      ensures s.Ok? ==> oracle.response == Some(response) && forall f | f in old(log) :: TurnOf(f) != Some(turn)
      ensures s.Raised? ==> oracle.response.None?
      ensures !s.Crashed? ==> log == old(log) + SampleTrail(config, turn, oracle)
      ensures log <= old(log) + SampleTrail(config, turn, oracle)
      ensures StartedTotal(log) == old(StartedTotal(log))
    {
      hide LoopOk, PhaseOf, Count, StartedTotal, NudgeTotal, CallCount, ManifestTrail, AskTrail;
      response := Response(false, None);
      s, turn := OpenTurn(oracle);
      if s.Ok? {
        s, response := AskModel(turn, oracle);
      }
    }

    method AskModel(turn: Turn, oracle: Oracle) returns (s: Status, response: Response)
      requires Valid() && PhaseOf(log, turn) == Some(ContextBuilding)
      modifies this`log, this`fuel
      ensures |log| + fuel == old(|log| + fuel)
      ensures Valid() && old(log) <= log
      ensures s.Crashed? ==> fuel == 0
      ensures !s.IllegalTransition?
      ensures s.Ok? ==> oracle.response == Some(response) && ModelCompleted(turn, response) in log && PhaseOf(log, turn) == Some(ModelCalling)
      ensures s.Raised? ==> oracle.response.None?
      ensures !s.Crashed? ==> log == old(log) + AskTrail(turn, oracle)
      ensures log <= old(log) + AskTrail(turn, oracle)
      ensures StartedTotal(log) == old(StartedTotal(log))
    {
      hide LoopOk, PhaseOf, Count, StartedTotal, NudgeTotal, CallCount;
      response := Response(false, None);
      :- EnterPhase(turn, ModelCalling);
      ghost var calling := log;
      :- Append(ModelRequested(turn));
      CountAppend(calling, ModelRequested(turn), turn);
      if oracle.response.None? {
        s := Raised;
        return;
      }
      response := oracle.response.value;
      s := Append(ModelCompleted(turn, response));
    }

    /** The persisted response of an interrupted turn, or a new one. */
    method ObtainResponse(oracle: Oracle) returns (s: Status, turn: Turn, response: Response, recovered: bool)
      requires Valid()
      modifies this`log, this`fuel
      ensures |log| + fuel == old(|log| + fuel)
      ensures Valid() && old(log) <= log
      ensures s.Crashed? ==> fuel == 0
      ensures !s.IllegalTransition?
      ensures s.Ok? ==> ModelCompleted(turn, response) in log && PhaseOf(log, turn).Some?
      ensures s.Ok? && !recovered ==> PhaseOf(log, turn) == Some(ModelCalling)
      ensures recovered <==> exists resumed :: IsResumed(old(log), resumed) && HasResponse(old(log), resumed)
      ensures recovered ==> s.Ok? && log == old(log) && IsResumed(log, turn) && ModelCompleted(turn, response) in log
      ensures s.Ok? && !recovered ==> oracle.response == Some(response) && forall f | f in old(log) :: TurnOf(f) != Some(turn)
      ensures s.Ok? && !recovered ==> log == old(log) + SampleTrail(config, turn, oracle)
      ensures MustNotResample(config, old(log), oracle) ==> s.Raised? && log == old(log)
      ensures s.Raised? ==> oracle.response.None? || MustNotResample(config, old(log), oracle)
      ensures s.Ok? ==> OnlyTurn(old(log), log, turn)
      ensures StartedTotal(log) == old(StartedTotal(log))
    {
      hide LoopOk, IsRecoverable, PhaseOf, Count, StartedTotal, NudgeTotal, CallCount, SampleTrail;
      turn, response, recovered := 0, Response(false, None), false;
      var pending := RecoverableTurn();
      if pending.Some? {
        var known := ResponseOf(pending.value);
        if known.Some? {
          TurnIsOk(config, log, toolCalls, pending.value);
          MentionedHasPhase(log, toolCalls, ModelCompleted(pending.value, known.value));
          s, turn, response, recovered := Ok, pending.value, known.value, true;
          return;
        }
        if ModelRequested(pending.value) in log && config.authority && !oracle.unresolvedIsSafe {
          s := Raised;
          return;
        }
      }
      s, turn, response := Sample(oracle);
      SampleIsOfTurn(config, old(log), log, turn, oracle);
    }

    /** Ends a turn in the failed phase, with the fact that says why. */
    method FailTurn(turn: Turn, f: LoopFact) returns (s: Status)
      requires Valid() && PhaseOf(log, turn).Some? && (f == ValidationFailed(turn) || f == ActionDenied(turn))
      modifies this`log, this`fuel
      ensures |log| + fuel == old(|log| + fuel)
      ensures Valid() && old(log) <= log
      ensures s.Crashed? ==> fuel == 0
      ensures !s.Raised?
      ensures s.IllegalTransition? ==> !TransitionAllowed(old(PhaseOf(log, turn)).value, FailedPhase)
      ensures s.Ok? ==> log == old(log) + [PhaseChanged(turn, FailedPhase), f]
      ensures OnlyTurn(old(log), log, turn)
      ensures StartedTotal(log) == old(StartedTotal(log))
    {
      hide LoopOk, PhaseOf, Count, StartedTotal, NudgeTotal, CallCount;
      :- EnterPhase(turn, FailedPhase);
      s := Append(f);
    }

    /** Parses the response; only what parses becomes the turn's command. */
    method Validate(turn: Turn, response: Response) returns (s: Status, action: Action, proceed: bool)
      requires Valid() && ModelCompleted(turn, response) in log && PhaseOf(log, turn).Some? && response.complete
      modifies this`log, this`fuel
      ensures |log| + fuel == old(|log| + fuel)
      ensures Valid() && old(log) <= log
      ensures s.Crashed? ==> fuel == 0
      ensures !s.Raised?
      ensures s.IllegalTransition? ==> old(PhaseOf(log, turn)) != Some(ModelCalling)
      ensures s.Ok? ==> (proceed <==> response.parsed.Some?)
      ensures s.Ok? && !proceed ==> |old(log)| < |log| && log[|log| - 1] == ValidationFailed(turn)
      ensures s.Ok? ==> log == old(log) + ValidationTrail(turn, response.parsed)
      ensures OnlyTurn(old(log), log, turn)
      ensures s.Ok? && proceed ==> response.parsed == Some(action)
      ensures s.Ok? && proceed ==> CommandValidated(turn, action) in log && PhaseOf(log, turn) == Some(DecisionValidating)
      ensures StartedTotal(log) == old(StartedTotal(log))
    {
      hide LoopOk, PhaseOf, Count, StartedTotal, NudgeTotal, CallCount;
      action, proceed := Continue, false;
      :- EnterPhase(turn, DecisionValidating);
      if response.parsed.None? {
        s := FailTurn(turn, ValidationFailed(turn));
        return;
      }
      action := response.parsed.value;
      assert response == Response(true, Some(action));
      :- Append(CommandValidated(turn, action));
      s, proceed := Ok, true;
    }

    method NoteReuse(f: LoopFact) returns (s: Status)
      requires Valid() && (f.ResponseReused? || f.CommandReused?) && PhaseOf(log, f.turn).Some?
      modifies this`log, this`fuel
      ensures |log| + fuel == old(|log| + fuel)
      ensures Valid() && old(log) <= log
      ensures s.Ok? || (s.Crashed? && fuel == 0)
      ensures s.Ok? ==> log == old(log) + Noting(old(log), f)
      ensures OnlyTurn(old(log), log, f.turn)
      ensures forall turn :: PhaseOf(log, turn) == old(PhaseOf(log, turn))
      ensures StartedTotal(log) == old(StartedTotal(log))
    {
      hide LoopOk, PhaseOf, Count, StartedTotal, NudgeTotal, CallCount;
      if f in log {
        return Ok;
      }
      s := Append(f);
    }

    /** From a response to a validated command; without one the turn ends here. */
    method Decide(turn: Turn, response: Response, recovered: bool) returns (s: Status, action: Action, proceed: bool)
      requires Valid() && ModelCompleted(turn, response) in log && PhaseOf(log, turn).Some?
      requires !recovered ==> PhaseOf(log, turn) == Some(ModelCalling)
      modifies this`log, this`fuel
      ensures |log| + fuel == old(|log| + fuel)
      ensures Valid() && old(log) <= log
      ensures s.Crashed? ==> fuel == 0
      ensures !s.Raised?
      ensures s.IllegalTransition? ==> recovered
      ensures s.Ok? && !proceed ==> |old(log)| < |log| && log[|log| - 1] == ValidationFailed(turn)
      ensures s.Ok? ==> log == old(log) + DecisionTrail(old(log), turn, response, recovered)
      ensures OnlyTurn(old(log), log, turn)
      ensures s.Ok? && proceed ==> CommandValidated(turn, action) in log && PhaseOf(log, turn).Some? && response.complete
      ensures s.Ok? && proceed && !recovered ==> PhaseOf(log, turn) == Some(DecisionValidating)
      ensures StartedTotal(log) == old(StartedTotal(log))
    {
      hide LoopOk, PhaseOf, Count, StartedTotal, NudgeTotal, CallCount;
      action, proceed := Continue, false;
      if !response.complete {
        s := FailTurn(turn, ValidationFailed(turn));
        return;
      }
      var command := CommandOf(turn);
      if recovered {
        :- NoteReuse(ResponseReused(turn));
      } else {
        CommandBeforeDecision(config, log, toolCalls, turn);
      }
      if command.None? {
        s, action, proceed := Validate(turn, response);
        return;
      }
      :- NoteReuse(CommandReused(turn));
      s, action, proceed := Ok, command.value, true;
    }

    /** Existence, disclosure and budget, in that order; `events` is the log as the run first read it. */
    method Authorize(turn: Turn, action: Action, events: LoopLog) returns (s: Status, proceed: bool)
      requires Valid() && CommandValidated(turn, action) in log && PhaseOf(log, turn).Some?
      requires StartedTotal(events) == StartedTotal(log)
      modifies this`log, this`fuel
      ensures |log| + fuel == old(|log| + fuel)
      ensures Valid() && old(log) <= log
      ensures s.Crashed? ==> fuel == 0
      ensures !s.Raised?
      ensures s.IllegalTransition? ==> old(PhaseOf(log, turn)) != Some(DecisionValidating)
      ensures s.Ok? ==> (proceed <==> (action.CallTool? ==> MayCall(config, old(log), turn, action.tool)))
      ensures s.Ok? ==>
        log == old(log) + [PhaseChanged(turn, ActionAuthorizing)]
        + (if proceed then [] else [PhaseChanged(turn, FailedPhase), ActionDenied(turn)])
      ensures s.Ok? && proceed ==> PhaseOf(log, turn) == Some(ActionAuthorizing)
      ensures s.Ok? && proceed && action.CallTool? && config.toolLimit.Some? ==> StartedTotal(log) < config.toolLimit.value
    {
      hide LoopOk, PhaseOf, Count, StartedTotal, NudgeTotal, CallCount;
      proceed := false;
      :- EnterPhase(turn, ActionAuthorizing);
      if action.CallTool? {
        var disclosed := DisclosedIn(turn);
        assert log[..|log| - 1] == old(log);
        var hidden := config.compilesCapabilities && disclosed.Some? && action.tool !in disclosed.value;
        var used := UsedCalls(events);
        if action.tool !in config.tools || hidden || (config.toolLimit.Some? && used >= config.toolLimit.value) {
          s := FailTurn(turn, ActionDenied(turn));
          return;
        }
      }
      s, proceed := Ok, true;
    }

    /** The operation is durable before anything else can happen. */
    method StartOperation(turn: Turn, tool: ToolName) returns (s: Status, op: Operation)
      requires Valid() && PhaseOf(log, turn) == Some(ActionAuthorizing)
      requires CommandValidated(turn, CallTool(tool)) in log
      requires config.toolLimit.Some? ==> StartedTotal(log) < config.toolLimit.value
      modifies this`log, this`fuel, this`serial
      ensures |log| + fuel == old(|log| + fuel)
      ensures Valid() && old(log) <= log
      ensures s.Ok? || (s.Crashed? && fuel == 0)
      ensures s.Ok? ==> PhaseOf(log, turn) == Some(ActionExecuting) && OperationStarted(turn, op) in log
      ensures forall f | f in old(log) && f.OperationStarted? :: f.op != op
      ensures s.Ok? ==> Count(log, StartedKind, turn) == 1 && CallCount(toolCalls, turn) == 0
      ensures s.Ok? ==> log == old(log) + [PhaseChanged(turn, ActionExecuting), OperationStarted(turn, op), ToolRequested(turn, op)]
    {
      hide LoopOk, PhaseOf, Count, StartedTotal, NudgeTotal, CallCount;
      op := serial;
      serial := serial + 1;
      :- EnterPhase(turn, ActionExecuting);
      assert CommandsTool(log, turn);
      ghost var entered := log;
      :- Append(OperationStarted(turn, op));
      CountAppend(entered, OperationStarted(turn, op), turn);
      ghost var started := log;
      :- Append(ToolRequested(turn, op));
      CountAppend(started, ToolRequested(turn, op), turn);
      assert OperationStarted(turn, op) in started;
      s := Ok;
    }

    method RecordResult(turn: Turn, op: Operation) returns (s: Status)
      requires Valid() && PhaseOf(log, turn) == Some(ActionExecuting)
      modifies this`log, this`fuel
      ensures |log| + fuel == old(|log| + fuel)
      ensures Valid() && old(log) <= log
      ensures s.Ok? || (s.Crashed? && fuel == 0)
      ensures s.Ok? ==> log == old(log) + [PhaseChanged(turn, ResultRecording), ToolCompleted(turn, op), OperationCompleted(turn, op)]
    {
      hide LoopOk, PhaseOf, Count, StartedTotal, NudgeTotal, CallCount;
      :- EnterPhase(turn, ResultRecording);
      :- Append(ToolCompleted(turn, op));
      :- Append(OperationCompleted(turn, op));
      return Ok;
    }

    /** The direct tool path: a durable start, then the effect, then its result. */
    method ExecuteTool(turn: Turn, tool: ToolName, toolReturns: bool) returns (s: Status)
      requires Valid() && PhaseOf(log, turn) == Some(ActionAuthorizing)
      requires CommandValidated(turn, CallTool(tool)) in log
      requires config.toolLimit.Some? ==> StartedTotal(log) < config.toolLimit.value
      modifies this
      ensures |log| + fuel == old(|log| + fuel)
      ensures Valid() && old(log) <= log
      ensures s.Crashed? ==> fuel == 0
      ensures !s.IllegalTransition?
      ensures toolCalls == old(toolCalls)
        || exists op, at: nat :: at <= |log| && toolCalls == old(toolCalls) + [Call(turn, op, at)] && OperationStarted(turn, op) in log[..at]
      ensures s.Ok? ==> exists op :: log == old(log) + ToolTrail(turn, op)
      ensures s.Ok? ==> |old(log)| < |log| && log[|log| - 1].OperationCompleted?
      ensures s.Ok? ==> |toolCalls| > 0 && toolCalls == old(toolCalls) + [Call(turn, log[|log| - 1].op, toolCalls[|toolCalls| - 1].durable)]
      ensures s.Raised? <==> !toolReturns && toolCalls != old(toolCalls)
    {
      hide LoopOk, PhaseOf, Count, StartedTotal, NudgeTotal, CallCount;
      var op;
      s, op := StartOperation(turn, tool);
      if s.IsFailure() {
        return;
      }
      CallKeepsLoop(config, log, toolCalls, Call(turn, op, |log|));
      toolCalls := toolCalls + [Call(turn, op, |log|)];
      if !toolReturns {
        return Raised;
      }
      s := RecordResult(turn, op);
      assert s.Ok? ==> log == old(log) + ToolTrail(turn, op);
    }

    /** Actions without a tool only record the state they lead to. */
    method Record(turn: Turn, action: Action, oracle: Oracle) returns (s: Status)
      requires Valid() && PhaseOf(log, turn) == Some(ActionAuthorizing) && !action.CallTool?
      modifies this`log, this`fuel
      ensures |log| + fuel == old(|log| + fuel)
      ensures Valid() && old(log) <= log
      ensures s.Ok? || (s.Crashed? && fuel == 0)
      ensures s.Ok? ==> log == old(log) + Trail(config, old(log), turn, action, oracle)
      ensures log <= old(log) + Trail(config, old(log), turn, action, oracle)
    {
      hide LoopOk, PhaseOf, Count, StartedTotal, NudgeTotal, CallCount, Conclusion;
      :- EnterPhase(turn, ResultRecording);
      if AsksForCompletion(action) {
        var allowed;
        s, allowed := CompletionAllows(turn, oracle);
        if s.IsFailure() || !allowed {
          return;
        }
      }
      s := Conclude(turn, action, oracle.delivery);
    }

    method Conclude(turn: Turn, action: Action, delivery: Delivery) returns (s: Status)
      requires Valid() && PhaseOf(log, turn) == Some(ResultRecording) && !action.CallTool?
      modifies this`log, this`fuel
      ensures |log| + fuel == old(|log| + fuel)
      ensures Valid() && old(log) <= log
      ensures s.Ok? || (s.Crashed? && fuel == 0)
      ensures s.Ok? ==> log == old(log) + Conclusion(config, turn, action, delivery)
      ensures log <= old(log) + Conclusion(config, turn, action, delivery)
    {
      hide LoopOk, PhaseOf, Count, StartedTotal, NudgeTotal, CallCount;
      match action
      case Stop => s := Append(AgentStopped(turn));
      case ReportBlocked => s := Append(AgentStopped(turn));
      case SubmitOutput =>
        :- EnterPhase(turn, SubmittedPhase);
        s := Append(AgentSubmitted(turn));
      case WaitForEvent => s := Wait(turn, None);
      case RequestHuman => s := Wait(turn, None);
      case EmitArtifact => s := Append(ArtifactCreated(turn));
      case SendMessage => s := Send(turn, delivery);
      case Continue => s := Append(Continued(turn));
    }

    /** The wait condition is durable before the run gives up its slot. */
    method Wait(turn: Turn, correlation: Option<Correlation>) returns (s: Status)
      requires Valid() && PhaseOf(log, turn) == Some(ResultRecording)
      modifies this`log, this`fuel
      ensures |log| + fuel == old(|log| + fuel)
      ensures Valid() && old(log) <= log
      ensures s.Ok? || (s.Crashed? && fuel == 0)
      ensures s.Ok? ==> log == old(log) + WaitFacts(turn, correlation)
      ensures log <= old(log) + WaitFacts(turn, correlation)
    {
      hide LoopOk, PhaseOf, Count, StartedTotal, NudgeTotal, CallCount;
      :- EnterPhase(turn, WaitingPhase);
      s := Append(AgentWaiting(turn, correlation));
    }

    /** A completion request passes the gate, earns a bounded nudge, or ends the agent as blocked. */
    method CompletionAllows(turn: Turn, oracle: Oracle) returns (s: Status, allowed: bool)
      requires Valid() && PhaseOf(log, turn) == Some(ResultRecording)
      modifies this`log, this`fuel
      ensures |log| + fuel == old(|log| + fuel)
      ensures Valid() && old(log) <= log
      ensures s.Ok? || (s.Crashed? && fuel == 0)
      ensures s.Ok? ==> (allowed <==> !config.gated || oracle.gatePasses)
      ensures s.Ok? ==> log == old(log) + GateTrail(config, old(log), turn, oracle.gatePasses, oracle.finding)
      ensures log <= old(log) + GateTrail(config, old(log), turn, oracle.gatePasses, oracle.finding)
      ensures s.Ok? && allowed ==> PhaseOf(log, turn) == Some(ResultRecording)
    {
      hide LoopOk, PhaseOf, Count, StartedTotal, NudgeTotal, CallCount;
      allowed := !config.gated;
      if allowed {
        s := Ok;
        return;
      }
      var events := log;
      :- Append(GateDecided(turn, oracle.gatePasses));
      if oracle.gatePasses {
        s, allowed := Ok, true;
        return;
      }
      var used := UsedNudges(events, oracle.finding);
      if used < NudgeLimit(config, oracle.finding) {
        :- Append(Nudged(turn, oracle.finding));
      } else {
        :- Append(AgentStopped(turn));
      }
      s := Ok;
    }

    method Send(turn: Turn, delivery: Delivery) returns (s: Status)
      requires Valid() && PhaseOf(log, turn) == Some(ResultRecording)
      modifies this`log, this`fuel
      ensures |log| + fuel == old(|log| + fuel)
      ensures Valid() && old(log) <= log
      ensures s.Ok? || (s.Crashed? && fuel == 0)
      ensures s.Ok? ==> log == old(log) + Conclusion(config, turn, SendMessage, delivery)
      ensures log <= old(log) + Conclusion(config, turn, SendMessage, delivery)
    {
      hide LoopOk, PhaseOf, Count, StartedTotal, NudgeTotal, CallCount;
      if config.handlesMessages && delivery.Refused? {
        s := Append(MessageDenied(turn));
        return;
      }
      :- Append(MessageSent(turn));
      if config.handlesMessages {
        s := Wait(turn, delivery.correlation);
        return;
      }
      return Ok;
    }

    /** A started operation without a result may have had its effect: it is marked, never repeated. */
    method Quarantine(operation: LoopFact) returns (s: Status)
      requires Valid() && operation in log && operation.OperationStarted?
      modifies this`log, this`fuel
      ensures |log| + fuel == old(|log| + fuel)
      ensures Valid() && old(log) <= log
      ensures s.Crashed? ==> fuel == 0
      ensures s.Ok? ==> log == old(log) + [PhaseChanged(operation.turn, ResultRecording), OperationUnknown(operation.turn, operation.op)]
      ensures old(PhaseOf(log, operation.turn)).Some?
      ensures !s.Raised?
      ensures s.IllegalTransition? <==> !TransitionAllowed(old(PhaseOf(log, operation.turn)).value, ResultRecording)
      ensures s.IllegalTransition? ==> log == old(log)
    {
      hide LoopOk, PhaseOf, Count, StartedTotal, NudgeTotal, CallCount;
      TurnIsOk(config, log, toolCalls, operation.turn);
      MentionedHasPhase(log, toolCalls, operation);
      :- EnterPhase(operation.turn, ResultRecording);
      :- Append(OperationUnknown(operation.turn, operation.op));
      return Ok;
    }

    /** Carries out an allowed action; when it returns, the turn has its result and started nothing that is not over. */
    method Act(turn: Turn, action: Action, oracle: Oracle) returns (s: Status)
      requires Valid() && PhaseOf(log, turn) == Some(ActionAuthorizing) && CommandValidated(turn, action) in log
      requires action.CallTool? && config.toolLimit.Some? ==> StartedTotal(log) < config.toolLimit.value
      modifies this
      ensures |log| + fuel == old(|log| + fuel)
      ensures Valid()
      ensures old(log) <= log && old(toolCalls) <= toolCalls && |toolCalls| <= |old(toolCalls)| + 1
      ensures s.Crashed? ==> fuel == 0
      ensures !s.IllegalTransition?
      ensures s.Raised? ==> action.CallTool? && !oracle.toolReturns
      ensures s.Ok? ==> Finishes(old(log), log, turn) && ActsAs(config, old(log), log, turn, action, oracle)
      ensures s.Ok? ==> (toolCalls == old(toolCalls) <==> !action.CallTool?)
    {
      hide LoopOk, PhaseOf, Count, StartedTotal, NudgeTotal, CallCount, Trail, Finishes;
      ghost var before := log;
      if action.CallTool? {
        s := ExecuteTool(turn, action.tool, oracle.toolReturns);
        if s.Ok? {
          ghost var op :| log == before + ToolTrail(turn, op);
          ToolTrailFinishes(before, turn, op);
        }
      } else {
        s := Record(turn, action, oracle);
        TrailFinishes(config, before, turn, action, oracle);
      }
    }

    /** From a durable response to the turn's result; `events` is the log as the run first read it. */
    method Settle(turn: Turn, response: Response, recovered: bool, events: LoopLog, oracle: Oracle) returns (s: Status)
      requires Valid() && ModelCompleted(turn, response) in log && PhaseOf(log, turn).Some?
      requires !recovered ==> PhaseOf(log, turn) == Some(ModelCalling)
      requires StartedTotal(events) == StartedTotal(log)
      modifies this
      ensures |log| + fuel == old(|log| + fuel)
      ensures Valid()
      ensures old(log) <= log && old(toolCalls) <= toolCalls && |toolCalls| <= |old(toolCalls)| + 1
      ensures s.Crashed? ==> fuel == 0
      ensures s.IllegalTransition? ==> recovered
      ensures s.Raised? ==> !oracle.toolReturns
      ensures s.Ok? ==> Finishes(old(log), log, turn) && SettlesAs(config, old(log), log, turn, response, recovered, oracle)
    {
      hide LoopOk, PhaseOf, Count, StartedTotal, NudgeTotal, CallCount, EndsTurn, MayCall, Finishes, IsOver, HasResult, OnlyTurn,
        DecisionTrail, ActsAs;
      ghost var before := log;
      var action, proceed;
      s, action, proceed := Decide(turn, response, recovered);
      if s.IsFailure() {
        return;
      }
      ghost var decided := log;
      NoneStarted(before, decided);
      if !proceed {
        FailingFinishes(before, decided, turn);
        return;
      }
      s, proceed := Authorize(turn, action, events);
      if s.IsFailure() {
        return;
      }
      ghost var authorized := log;
      AuthorizedIsQuiet(before, decided, authorized, turn);
      if !proceed {
        DenialFinishes(before, authorized, turn);
        return;
      }
      s := Act(turn, action, oracle);
      if s.Ok? {
        QuietThenFinishes(before, authorized, log, turn);
      }
    }

    /** One turn on a log without unresolved operations: the interrupted one, or a new one. */
    method RunTurn(oracle: Oracle) returns (s: Status)
      requires Valid() && forall f | f in log && f.OperationStarted? :: IsOver(log, f.op)
      modifies this
      ensures |log| + fuel == old(|log| + fuel)
      ensures Valid()
      ensures old(log) <= log && old(toolCalls) <= toolCalls && |toolCalls| <= |old(toolCalls)| + 1
      ensures s.Crashed? ==> fuel == 0
      ensures s.Ok? ==> |old(log)| < |log| && EndsTurn(log[|log| - 1])
      ensures s.IllegalTransition? ==> exists turn :: IsRecoverable(old(log), turn)
      ensures s.Raised? ==> oracle.response.None? || MustNotResample(config, old(log), oracle) || !oracle.toolReturns
      ensures s.Ok? ==> TakesTurn(config, old(log), log, oracle)
      ensures s.Ok? ==> LeavesNothingOpen(old(log), log)
      ensures s.Ok? && (forall turn | AskedModel(old(log), turn) :: HasResult(old(log), turn)) ==> SampledAnew(old(log), log, oracle)
    {
      hide LoopOk, PhaseOf, Count, StartedTotal, NudgeTotal, CallCount, EndsTurn, HasResponse, MustNotResample, Finishes,
        LeavesNothingOpen, IsOver, HasResult, AskedModel, IsRecoverable, SampledAnew, OnlyTurn, SettlesAs, SampleTrail;
      var events := log;
      ghost var before := log;
      RecoverableMeansUnfinished(log);
      var turn, response, recovered;
      s, turn, response, recovered := ObtainResponse(oracle);
      if s.IsFailure() {
        return;
      }
      ghost var obtained := log;
      NoneStarted(before, obtained);
      s := Settle(turn, response, recovered, events, oracle);
      if s.Ok? {
        QuietThenFinishes(before, obtained, log, turn);
        FinishedLeavesNothingOpen(before, log, turn);
        AnewStays(before, obtained, log, turn, oracle);
      }
    }

    /**
      Advances the agent by one turn. However the run ends, the invariant of the log holds; a run that ends
      well on an open log settles a turn and leaves nothing open that was not open before; a blocked log is
      left alone. On a log where everything is finished the run samples the model in a new turn, and no
      transition it makes is illegal.
     */
    method RunOnce(oracle: Oracle) returns (s: Status)
      requires Valid()
      modifies this
      ensures |log| + fuel == old(|log| + fuel)
      ensures Valid()
      ensures old(log) <= log && old(toolCalls) <= toolCalls && |toolCalls| <= |old(toolCalls)| + 1
      ensures Blocked(old(log)) || (exists f | f in old(log) :: IsDangling(old(log), f)) ==> toolCalls == old(toolCalls)
      ensures Blocked(old(log)) ==> log == old(log) && s.Ok?
      ensures old(log) == [] ==> s.Raised? && log == old(log)
      ensures s.Crashed? ==> fuel == 0
      ensures s.Raised? && old(log) != [] ==>
        && (forall f | f in old(log) :: !IsDangling(old(log), f))
        && (oracle.response.None? || MustNotResample(config, old(log), oracle) || !oracle.toolReturns)
      ensures s.Ok? && !Blocked(old(log)) ==>
        if exists f :: f in old(log) && IsDangling(old(log), f) then
          exists f :: IsLatestDangling(old(log), f) && log == old(log) + [PhaseChanged(f.turn, ResultRecording), OperationUnknown(f.turn, f.op)]
        else TakesTurn(config, old(log), log, oracle)
      ensures s.Ok? && !Blocked(old(log)) ==> |old(log)| < |log| && EndsTurn(log[|log| - 1])
      ensures s.IllegalTransition? ==>
        (exists f | f in old(log) :: IsDangling(old(log), f)) || (exists turn :: IsRecoverable(old(log), turn))
      ensures s.Ok? ==> LeavesNothingOpen(old(log), log)
      ensures AllFinished(old(log)) ==> !s.IllegalTransition? && (s.Ok? ==> AllFinished(log))
      ensures AllFinished(old(log)) && s.Ok? && !Blocked(old(log)) ==> SampledAnew(old(log), log, oracle)
    {
      hide LoopOk, PhaseOf, Count, StartedTotal, NudgeTotal, CallCount, Blocked, IsDangling, IsRecoverable, EndsTurn,
        LeavesNothingOpen, IsOver, HasResult, AskedModel, SampledAnew, TakesTurn, MustNotResample;
      ghost var before := log;
      NothingOpenByItself(log);
      if log == [] {
        EmptyIsOpen();
        return Raised;
      }
      var blocked := IsBlocked();
      if blocked {
        return Ok;
      }
      RecoverableMeansUnfinished(log);
      SettledMeansOver(log);
      var unresolved := UnresolvedOperation();
      if unresolved.Some? {
        s := Quarantine(unresolved.value);
        UnknownEnds(unresolved.value.turn, unresolved.value.op);
        if s.Ok? {
          QuarantineLeavesNothingOpen(before, unresolved.value.turn, unresolved.value.op);
        }
        return;
      }
      s := RunTurn(oracle);
      if s.Ok? && AllFinished(before) {
        FinishedStaysFinished(before, log);
      }
    }

    /** Repeats single runs until the agent is blocked, stands still, fails, or has used its steps. */
    method RunUntilStop(oracles: seq<Oracle>) returns (s: Status)
      requires Valid()
      modifies this
      ensures Valid() && old(log) <= log && old(toolCalls) <= toolCalls
      ensures s.Ok? && oracles != [] ==> Blocked(log) || |log| >= |old(log)| + |oracles|
      ensures AllFinished(old(log)) ==> !s.IllegalTransition? && (s.Ok? ==> AllFinished(log))
    {
      hide LoopOk, PhaseOf, Blocked, IsDangling, IsRecoverable, EndsTurn, AllFinished, LeavesNothingOpen, SampledAnew;
      s := Ok;
      for i := 0 to |oracles|
        invariant Valid() && old(log) <= log && old(toolCalls) <= toolCalls
        invariant AllFinished(old(log)) ==> AllFinished(log)
        invariant s.Ok? && |log| >= |old(log)| + i
      {
        var before := |log|;
        s := RunOnce(oracles[i]);
        if s.IsFailure() {
          return;
        }
        var blocked := IsBlocked();
        if blocked || |log| == before {
          return;
        }
      }
    }

    /**
      The life of an agent: any number of restarts, each cut off after any number of appends, with facts of
      other components arriving in between. No turn ever has its tool called twice, every call comes after
      its own durable start, and starts never exceed the tool budget.
     */
    method Live(episodes: seq<Episode>)
      requires Valid()
      requires forall e | e in episodes && e.Arrives? :: External(e.fact)
      modifies this
      ensures Valid() && old(log) <= log && old(toolCalls) <= toolCalls
      ensures forall i, j | 0 <= i < j < |toolCalls| :: toolCalls[i].turn != toolCalls[j].turn
      ensures forall call | call in toolCalls ::
        call.durable <= |log| && OperationStarted(call.turn, call.op) in log[..call.durable]
      ensures config.toolLimit.Some? ==> StartedTotal(log) <= config.toolLimit.value
      ensures forall kind :: NudgeTotal(log, kind) <= NudgeLimit(config, kind)
      ensures forall e | e in episodes && e.Arrives? :: e.fact in log
      ensures |log| <= |old(log)| + Allowance(episodes)
    {
      hide LoopOk, PhaseOf, Blocked, IsDangling, IsRecoverable, EndsTurn, MayFollow, TakesTurn, MustNotResample, IsLatestDangling;
      for i := 0 to |episodes|
        invariant Valid() && old(log) <= log && old(toolCalls) <= toolCalls
        invariant forall j | 0 <= j < i && episodes[j].Arrives? :: episodes[j].fact in log
        invariant |log| <= |old(log)| + Allowance(episodes[..i])
      {
        assert episodes[i] in episodes && episodes[..i + 1][..i] == episodes[..i];
        match episodes[i]
        case Restart(appends, oracle) =>
          fuel := appends;
          var s := RunOnce(oracle);
        case Arrives(f) =>
          ExternalMayFollow(config, log, f);
          FactKeepsLoop(config, log, toolCalls, f);
          log := log + [f];
      }
      assert episodes[..|episodes|] == episodes;
      ReadOff(config, log, toolCalls);
    }

    method IsBlocked() returns (blocked: bool)
      ensures blocked <==> Blocked(log)
      ensures blocked <==> IsHeldUp(log)
    {
      BlockedMeansHeldUp(log);
      if IsTerminal(log) || HasUnresolvedUnknown(log) {
        return true;
      }
      blocked := WaitsActively();
    }
  }

  lemma EmptyIsOpen()
    ensures !Blocked([])
  {}

  lemma StartsOk(config: Config)
    ensures LoopOk(config, [Seed], [])
  {
    assert [Seed][..0] == [];
    forall turn
      ensures TurnOk([Seed], [], turn)
    {
      UnmentionedHasNone([Seed], turn);
    }
  }

  lemma TurnIsOk(config: Config, log: LoopLog, calls: seq<Call>, turn: Turn)
    requires LoopOk(config, log, calls)
    ensures TurnOk(log, calls, turn)
  {}

  lemma ReadOff(config: Config, log: LoopLog, calls: seq<Call>)
    requires LoopOk(config, log, calls)
    ensures forall i, j | 0 <= i < j < |calls| :: calls[i].turn != calls[j].turn
    ensures CallsAreStarted(log, calls) && WithinLimits(config, log)
  {
    forall i, j | 0 <= i < j < |calls|
      ensures calls[i].turn != calls[j].turn
    {
      ToolIsCalledAtMostOnce(config, log, calls, i, j);
    }
  }

  lemma {:induction false} NoWaitNoActiveWait(log: LoopLog)
    requires forall f | f in log :: !f.AgentWaiting?
    ensures !HasActiveWait(log)
  {
    if log != [] {
      assert log[|log| - 1] in log;
      assert forall f | f in log[..|log| - 1] :: f in log;
      NoWaitNoActiveWait(log[..|log| - 1]);
    }
  }

  /** The wait recorded last decides, by what follows it. */
  lemma {:induction false} WaitDecided(log: LoopLog, i: nat)
    requires 0 < i <= |log| && log[i - 1].AgentWaiting? && forall j | i <= j < |log| :: !log[j].AgentWaiting?
    ensures LastWait(log) == Some(log[i - 1].correlation)
    ensures HasActiveWait(log) <==>
      match log[i - 1].correlation
      case None => i == |log|
      case Some(correlation) => Woken(correlation) !in log[i..]
    decreases |log|
  {
    if i < |log| {
      var last := |log| - 1;
      WaitDecided(log[..last], i);
      assert log[i..] == log[..last][i..] + [log[last]];
    }
  }

  /** A turn that is still calling the model has no command. */
  lemma CommandBeforeDecision(config: Config, log: LoopLog, calls: seq<Call>, turn: Turn)
    requires LoopOk(config, log, calls) && PhaseOf(log, turn) == Some(ModelCalling)
    ensures forall f | f in log :: !(f.CommandValidated? && f.turn == turn)
  {
    TurnIsOk(config, log, calls, turn);
    CountFinds(log, CommandKind, turn);
  }

  lemma UnknownEnds(turn: Turn, op: Operation)
    ensures EndsTurn(OperationUnknown(turn, op))
  {}

  // ---- what an action leads to ----

  /** A fact by which the agent hands over: it stops, submits or waits. */
  predicate IsHandover(f: LoopFact) {
    f.AgentStopped? || f.AgentSubmitted? || f.AgentWaiting?
  }

  lemma FactBlocks(log: LoopLog, f: LoopFact)
    requires !Blocked(log) && !f.AgentFailed? && !f.OperationUnknown?
    ensures Blocked(log + [f]) <==> IsHandover(f)
  {
    assert (log + [f])[..|log|] == log && f in log + [f];
    assert forall g | g in log + [f] :: g in log || g == f;
    if f.AgentStopped? || f.AgentSubmitted? {
      assert IsTerminal(log + [f]);
    }
  }

  /**
    An action without a tool blocks the agent's log exactly when it hands over and the gate, if it asks
    for one, lets it through, or when the gate has used up the nudges for what it found.
   */
  lemma TrailBlocks(config: Config, log: LoopLog, turn: Turn, action: Action, oracle: Oracle)
    requires !Blocked(log) && !action.CallTool?
    ensures Blocked(log + Trail(config, log, turn, action, oracle)) <==>
      if Allowed(config, action, oracle.gatePasses) then HandsOver(config, action, oracle.delivery)
      else NudgeTotal(log, oracle.finding) >= NudgeLimit(config, oracle.finding)
  {
    hide Blocked, NudgeTotal, NudgeLimit;
    TrailHandsOverLast(config, log, turn, action, oracle);
    OnlyTheLastBlocks(log, Trail(config, log, turn, action, oracle));
  }

  lemma TrailHandsOverLast(config: Config, log: LoopLog, turn: Turn, action: Action, oracle: Oracle)
    requires !action.CallTool?
    ensures var trail := Trail(config, log, turn, action, oracle);
      && trail != []
      && (forall f | f in trail :: !f.AgentFailed? && !f.OperationUnknown?)
      && (forall f | f in trail[..|trail| - 1] :: !IsHandover(f))
      && (IsHandover(trail[|trail| - 1]) <==>
            if Allowed(config, action, oracle.gatePasses) then HandsOver(config, action, oracle.delivery)
            else NudgeTotal(log, oracle.finding) >= NudgeLimit(config, oracle.finding))
  {
    hide NudgeTotal, NudgeLimit;
  }

  lemma {:induction false} OnlyTheLastBlocks(log: LoopLog, facts: LoopLog)
    requires !Blocked(log) && facts != []
    requires forall f | f in facts :: !f.AgentFailed? && !f.OperationUnknown?
    requires forall f | f in facts[..|facts| - 1] :: !IsHandover(f)
    ensures Blocked(log + facts) <==> IsHandover(facts[|facts| - 1])
  {
    hide Blocked;
    var front, last := facts[..|facts| - 1], facts[|facts| - 1];
    assert log + facts == log + front + [last];
    assert last in facts && forall f | f in front :: f in facts;
    if front == [] {
      assert log + front == log;
    } else {
      assert front[|front| - 1] in front;
      assert forall f | f in front[..|front| - 1] :: f in front;
      OnlyTheLastBlocks(log, front);
    }
    FactBlocks(log + front, last);
  }

  // ---- what is left unfinished ----

  lemma RecoverableMeansUnfinished(log: LoopLog)
    ensures forall turn :: IsRecoverable(log, turn) <==> AskedModel(log, turn) && !HasResult(log, turn)
  {
    forall turn
      ensures IsRecoverable(log, turn) <==> AskedModel(log, turn) && !HasResult(log, turn)
    {
      if f :| f in log && (f.ModelRequested? || f.ModelCompleted?) && f.turn == turn {
        assert f == ModelRequested(turn) || f == ModelCompleted(turn, f.response);
      }
    }
  }

  lemma SettledMeansOver(log: LoopLog)
    ensures forall f :: IsDangling(log, f) <==> f.OperationStarted? && !IsOver(log, f.op)
  {
    forall op
      ensures IsSettled(log, op) <==> IsOver(log, op)
    {
      if f :| f in log && (f.OperationCompleted? || f.OperationUnknown?) && f.op == op {
        assert f == OperationCompleted(f.turn, op) || f == OperationUnknown(f.turn, op);
      }
    }
  }

  lemma OnlyTurnTwice(a: LoopLog, b: LoopLog, c: LoopLog, turn: Turn)
    requires OnlyTurn(a, b, turn) && OnlyTurn(b, c, turn)
    ensures OnlyTurn(a, c, turn)
  {}

  /** A turn that got its result, with every operation it started completed, leaves nothing open. */
  lemma ResultLeavesNothingOpen(before: LoopLog, after: LoopLog, turn: Turn)
    requires OnlyTurn(before, after, turn) && HasResult(after, turn)
    requires forall i | |before| <= i < |after| && after[i].OperationStarted? :: IsOver(after, after[i].op)
    ensures LeavesNothingOpen(before, after)
  {
    OverStaysOver(before, after);
    forall t | AskedModel(after, t) && !HasResult(after, t)
      ensures AskedModel(before, t) && !HasResult(before, t)
    {
      assert t != turn;
      assert forall f | f in after && TurnOf(f) == Some(t) :: f in before;
      assert forall f | f in before :: f in after;
      if !(ModelRequested(t) in after) {
        var response :| ModelCompleted(t, response) in after;
        assert TurnOf(ModelCompleted(t, response)) == Some(t);
      }
    }
    forall f | f in after && f.OperationStarted? && !IsOver(after, f.op)
      ensures f in before && !IsOver(before, f.op)
    {
      var i :| 0 <= i < |after| && after[i] == f;
    }
  }

  lemma OverStaysOver(before: LoopLog, after: LoopLog)
    requires before <= after
    ensures forall op | IsOver(before, op) :: IsOver(after, op)
  {
    assert forall f | f in before :: f in after;
  }

  lemma {:induction false} NoneStarted(before: LoopLog, after: LoopLog)
    requires before <= after && StartedTotal(after) == StartedTotal(before)
    ensures forall i | |before| <= i < |after| :: !after[i].OperationStarted?
  {
    if |before| < |after| {
      var last := |after| - 1;
      StartedGrows(before, after[..last]);
      NoneStarted(before, after[..last]);
    }
  }

  lemma {:induction false} StartedGrows(before: LoopLog, after: LoopLog)
    requires before <= after
    ensures StartedTotal(before) <= StartedTotal(after)
  {
    if |before| < |after| {
      StartedGrows(before, after[..|after| - 1]);
    } else {
      assert before == after;
    }
  }

  lemma FinishedStaysFinished(before: LoopLog, after: LoopLog)
    requires AllFinished(before) && LeavesNothingOpen(before, after)
    ensures AllFinished(after)
  {}

  lemma NothingIsUnfinishedYet()
    ensures AllFinished([Seed])
  {}

  lemma SampleIsOfTurn(config: Config, before: LoopLog, after: LoopLog, turn: Turn, oracle: Oracle)
    requires before <= after <= before + SampleTrail(config, turn, oracle)
    ensures OnlyTurn(before, after, turn)
  {
    var trail := SampleTrail(config, turn, oracle);
    assert forall f | f in trail :: TurnOf(f) == Some(turn);
    forall i | |before| <= i < |after|
      ensures TurnOf(after[i]) == Some(turn)
    {
      assert after[i] == trail[i - |before|];
    }
  }

  lemma ToolTrailFinishes(before: LoopLog, turn: Turn, op: Operation)
    ensures Finishes(before, before + ToolTrail(turn, op), turn)
  {
    var after := before + ToolTrail(turn, op);
    assert after[|before| + 4] == ToolCompleted(turn, op) && ToolCompleted(turn, op) in after;
    assert after[|before| + 5] == OperationCompleted(turn, op) && OperationCompleted(turn, op) in after;
  }

  lemma TrailFinishes(config: Config, before: LoopLog, turn: Turn, action: Action, oracle: Oracle)
    requires !action.CallTool?
    ensures Finishes(before, before + Trail(config, before, turn, action, oracle), turn)
  {
    hide Trail;
    TrailSays(config, before, turn, action, oracle);
    FactsFinish(before, Trail(config, before, turn, action, oracle), turn);
  }

  lemma TrailSays(config: Config, log: LoopLog, turn: Turn, action: Action, oracle: Oracle)
    requires !action.CallTool?
    ensures var trail := Trail(config, log, turn, action, oracle);
      && trail != [] && IsResult(trail[|trail| - 1]) && EndsTurn(trail[|trail| - 1])
      && forall f | f in trail :: TurnOf(f) == Some(turn) && !f.OperationStarted?
  {
    hide NudgeTotal, NudgeLimit;
  }

  lemma FactsFinish(before: LoopLog, facts: LoopLog, turn: Turn)
    requires facts != [] && IsResult(facts[|facts| - 1]) && EndsTurn(facts[|facts| - 1])
    requires forall f | f in facts :: TurnOf(f) == Some(turn) && !f.OperationStarted?
    ensures Finishes(before, before + facts, turn)
  {
    hide IsResult, EndsTurn;
    var after := before + facts;
    assert after[|after| - 1] in after && after[|after| - 1] == facts[|facts| - 1];
    assert forall i | |before| <= i < |after| :: after[i] in facts;
  }

  lemma FailingFinishes(before: LoopLog, after: LoopLog, turn: Turn)
    requires OnlyTurn(before, after, turn) && |before| < |after| && after[|after| - 1] == ValidationFailed(turn)
    requires forall i | |before| <= i < |after| :: !after[i].OperationStarted?
    ensures Finishes(before, after, turn)
  {
    assert after[|after| - 1] in after;
  }

  /** Nothing was started and everything appended belongs to the turn. */
  ghost predicate IsQuiet(before: LoopLog, after: LoopLog, turn: Turn) {
    OnlyTurn(before, after, turn) && forall i | |before| <= i < |after| :: !after[i].OperationStarted?
  }

  lemma AuthorizedIsQuiet(before: LoopLog, decided: LoopLog, authorized: LoopLog, turn: Turn)
    requires IsQuiet(before, decided, turn)
    requires authorized == decided + [PhaseChanged(turn, ActionAuthorizing)]
      || authorized == decided + [PhaseChanged(turn, ActionAuthorizing)] + [PhaseChanged(turn, FailedPhase), ActionDenied(turn)]
    ensures IsQuiet(before, authorized, turn)
  {}

  lemma DenialFinishes(before: LoopLog, after: LoopLog, turn: Turn)
    requires IsQuiet(before, after, turn) && |before| < |after| && after[|after| - 1] == ActionDenied(turn)
    ensures Finishes(before, after, turn)
  {
    assert after[|after| - 1] in after;
  }

  lemma QuietThenFinishes(before: LoopLog, middle: LoopLog, after: LoopLog, turn: Turn)
    requires IsQuiet(before, middle, turn) && Finishes(middle, after, turn)
    ensures Finishes(before, after, turn)
  {
    OnlyTurnTwice(before, middle, after, turn);
  }

  lemma FinishedLeavesNothingOpen(before: LoopLog, after: LoopLog, turn: Turn)
    requires Finishes(before, after, turn)
    ensures LeavesNothingOpen(before, after) && |before| < |after| && EndsTurn(after[|after| - 1])
  {
    hide EndsTurn, OnlyTurn, LeavesNothingOpen, HasResult, IsOver;
    ResultLeavesNothingOpen(before, after, turn);
  }

  lemma AnewStays(before: LoopLog, obtained: LoopLog, after: LoopLog, turn: Turn, oracle: Oracle)
    requires obtained <= after
    ensures IsNewSample(before, obtained, turn, oracle) ==> SampledAnew(before, after, oracle)
  {}

  ghost predicate IsNewSample(before: LoopLog, obtained: LoopLog, turn: Turn, oracle: Oracle) {
    && oracle.response.Some? && ModelCompleted(turn, oracle.response.value) in obtained
    && forall f | f in before :: TurnOf(f) != Some(turn)
  }

  lemma NothingOpenByItself(log: LoopLog)
    ensures LeavesNothingOpen(log, log)
  {}

  lemma QuarantineLeavesNothingOpen(before: LoopLog, turn: Turn, op: Operation)
    ensures LeavesNothingOpen(before, before + [PhaseChanged(turn, ResultRecording), OperationUnknown(turn, op)])
  {
    var after := before + [PhaseChanged(turn, ResultRecording), OperationUnknown(turn, op)];
    assert after[|before| + 1] == OperationUnknown(turn, op) && OperationUnknown(turn, op) in after;
    ResultLeavesNothingOpen(before, after, turn);
  }

  lemma BlockedMeansHeldUp(log: LoopLog)
    ensures Blocked(log) <==> IsHeldUp(log)
  {
    UnknownMeansUnreconciled(log);
    WaitMeansUnanswered(log);
  }

  lemma UnknownMeansUnreconciled(log: LoopLog)
    ensures HasUnresolvedUnknown(log) <==> exists turn, op :: OperationUnknown(turn, op) in log && OperationReconciled(op) !in log
  {
    if HasUnresolvedUnknown(log) {
      var f :| f in log && f.OperationUnknown? && OperationReconciled(f.op) !in log;
      assert f == OperationUnknown(f.turn, f.op);
    }
  }

  lemma WaitMeansUnanswered(log: LoopLog)
    ensures HasActiveWait(log) <==> exists i | 0 <= i < |log| :: IsUnansweredWait(log, i)
  {
    hide HasActiveWait, LastWait;
    if exists i :: 0 <= i < |log| && log[i].AgentWaiting? {
      var last := LastWaitIndex(log);
      WaitDecided(log, last + 1);
      assert forall i | 0 <= i < |log| && IsUnansweredWait(log, i) :: i == last;
      assert HasActiveWait(log) <==> IsUnansweredWait(log, last);
    } else {
      assert forall f | f in log :: !f.AgentWaiting?;
      NoWaitNoActiveWait(log);
    }
  }

  lemma {:induction false} LastWaitIndex(log: LoopLog) returns (last: nat)
    requires exists i :: 0 <= i < |log| && log[i].AgentWaiting?
    ensures last < |log| && log[last].AgentWaiting? && forall j | last < j < |log| :: !log[j].AgentWaiting?
  {
    if log[|log| - 1].AgentWaiting? {
      last := |log| - 1;
    } else {
      var i :| 0 <= i < |log| && log[i].AgentWaiting?;
      assert log[..|log| - 1][i].AgentWaiting?;
      last := LastWaitIndex(log[..|log| - 1]);
    }
  }
}
