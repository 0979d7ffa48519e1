/** The facts of one agent's log, and what they say about turns, phases and operations. */
module LoopFacts {
  import opened Contracts

  type Turn = nat
  type Operation = nat
  type ToolName = Text
  type Correlation = nat

  datatype Phase =
    | ContextBuilding | ModelCalling | DecisionValidating | ActionAuthorizing | ActionExecuting
    | ResultRecording | WaitingPhase | SubmittedPhase | FailedPhase

  /** `ALLOWED_TRANSITIONS` */
  predicate TransitionAllowed(previous: Phase, current: Phase) {
    match previous
    case ContextBuilding => current.ModelCalling?
    case ModelCalling => current.DecisionValidating? || current.FailedPhase?
    case DecisionValidating => current.ActionAuthorizing? || current.FailedPhase?
    case ActionAuthorizing => current.ActionExecuting? || current.ResultRecording? || current.FailedPhase?
    case ActionExecuting => current.ResultRecording? || current.FailedPhase?
    case ResultRecording => current.WaitingPhase? || current.SubmittedPhase? || current.FailedPhase?
    case WaitingPhase => current.ContextBuilding? || current.FailedPhase?
    case SubmittedPhase => false
    case FailedPhase => false
  }

  datatype NudgeKind = SchemaNudge | EvidenceNudge | PendingOperationNudge

  datatype Action =
    | CallTool(tool: ToolName)
    | Stop
    | ReportBlocked
    | SubmitOutput
    | WaitForEvent
    | RequestHuman
    | EmitArtifact
    | SendMessage
    | Continue

  /** A persisted response: whether its finish reason was complete, and the action it parses to, if any. */
  datatype Response = Response(complete: bool, parsed: Option<Action>)

  datatype LoopFact =
    | Seed
    | PhaseChanged(turn: Turn, phase: Phase)
    | CapabilitiesCompiled(turn: Turn, disclosed: set<ToolName>)
    | ContextCompiled(turn: Turn)
    | ModelRequested(turn: Turn)
    | ModelCompleted(turn: Turn, response: Response)
    | ResponseReused(turn: Turn)
    | ValidationFailed(turn: Turn)
    | CommandValidated(turn: Turn, action: Action)
    | CommandReused(turn: Turn)
    | ActionDenied(turn: Turn)
    | OperationStarted(turn: Turn, op: Operation)
    | ToolRequested(turn: Turn, op: Operation)
    | ToolCompleted(turn: Turn, op: Operation)
    | OperationCompleted(turn: Turn, op: Operation)
    | OperationUnknown(turn: Turn, op: Operation)
    | GateDecided(turn: Turn, passed: bool)
    | Nudged(turn: Turn, kind: NudgeKind)
    | AgentStopped(turn: Turn)
    | AgentSubmitted(turn: Turn)
    | AgentWaiting(turn: Turn, correlation: Option<Correlation>)
    | ArtifactCreated(turn: Turn)
    | MessageSent(turn: Turn)
    | MessageDenied(turn: Turn)
    | Continued(turn: Turn)
    | AgentFailed
    | Woken(woken: Correlation)
    | OperationReconciled(reconciled: Operation)
    | Elsewhere

  type LoopLog = seq<LoopFact>

  /** Facts the loop reads but other components write. */
  predicate External(f: LoopFact) {
    f.Seed? || f.AgentFailed? || f.Woken? || f.OperationReconciled? || f.Elsewhere?
  }

  function TurnOf(f: LoopFact): Option<Turn> {
    if External(f) then None else Some(f.turn)
  }

  /** The most recent phase of a turn. */
  function PhaseOf(log: LoopLog, turn: Turn): Option<Phase> {
    if log == [] then None
    else
      var f := log[|log| - 1];
      if f.PhaseChanged? && f.turn == turn then Some(f.phase) else PhaseOf(log[..|log| - 1], turn)
  }

  datatype Kind = StartedKind | CommandKind | ResponseKind

  predicate IsKind(f: LoopFact, kind: Kind) {
    match kind
    case StartedKind => f.OperationStarted?
    case CommandKind => f.CommandValidated?
    case ResponseKind => f.ModelCompleted?
  }

  function Count(log: LoopLog, kind: Kind, turn: Turn): nat {
    if log == [] then 0
    else
      Count(log[..|log| - 1], kind, turn)
      + (if IsKind(log[|log| - 1], kind) && TurnOf(log[|log| - 1]) == Some(turn) then 1 else 0)
  }

  function StartedTotal(log: LoopLog): nat {
    if log == [] then 0
    else StartedTotal(log[..|log| - 1]) + (if log[|log| - 1].OperationStarted? then 1 else 0)
  }

  function NudgeTotal(log: LoopLog, kind: NudgeKind): nat {
    if log == [] then 0
    else NudgeTotal(log[..|log| - 1], kind) + (if log[|log| - 1].Nudged? && log[|log| - 1].kind == kind then 1 else 0)
  }

  // ---- what blocks the loop ----

  predicate IsTerminal(log: LoopLog) {
    exists f | f in log :: f.AgentStopped? || f.AgentSubmitted? || f.AgentFailed?
  }

  predicate HasUnresolvedUnknown(log: LoopLog) {
    exists f | f in log :: f.OperationUnknown? && OperationReconciled(f.op) !in log
  }

  predicate IsSettled(log: LoopLog, op: Operation) {
    OperationReconciled(op) in log
    || exists f | f in log :: (f.OperationCompleted? || f.OperationUnknown?) && f.op == op
  }

  /** The last wait of the log has not been answered. */
  predicate HasActiveWait(log: LoopLog) {
    if log == [] then false
    else
      var f := log[|log| - 1];
      if f.AgentWaiting? then true
      else HasActiveWait(log[..|log| - 1]) && KeepsWaiting(log[..|log| - 1], f)
  }

  /** A plain wait ends with any later fact, a correlated one with an answer to it. */
  predicate KeepsWaiting(log: LoopLog, f: LoopFact) {
    match LastWait(log)
    case None => false
    case Some(wait) => wait.Some? && f != Woken(wait.value)
  }

  function LastWait(log: LoopLog): Option<Option<Correlation>> {
    if log == [] then None
    else if log[|log| - 1].AgentWaiting? then Some(log[|log| - 1].correlation)
    else LastWait(log[..|log| - 1])
  }

  predicate Blocked(log: LoopLog) {
    IsTerminal(log) || HasUnresolvedUnknown(log) || HasActiveWait(log)
  }

  // ---- the invariant ----

  datatype Config = Config(
    tools: set<ToolName>,
    compilesCapabilities: bool,
    compilesContext: bool,
    authority: bool,
    toolLimit: Option<nat>,
    gated: bool,
    nudgeLimits: map<NudgeKind, nat>,
    handlesMessages: bool)

  /** A tool call, with the number of facts that were durable when it was made. */
  datatype Call = Call(turn: Turn, op: Operation, durable: nat)

  function CallCount(calls: seq<Call>, turn: Turn): nat {
    if calls == [] then 0
    else CallCount(calls[..|calls| - 1], turn) + (if calls[|calls| - 1].turn == turn then 1 else 0)
  }

  function AtMost(reached: bool): nat {
    if reached then 1 else 0
  }

  /** A phase past which the turn may have asked for, decided on, or started something. */
  predicate HasSampled(phase: Phase) {
    !phase.ContextBuilding?
  }

  predicate HasDecided(phase: Phase) {
    HasSampled(phase) && !phase.ModelCalling?
  }

  predicate HasExecuted(phase: Phase) {
    HasDecided(phase) && !phase.DecisionValidating? && !phase.ActionAuthorizing?
  }

  /** One response, one command, one operation and one tool call a turn, each not before its phase. */
  ghost predicate TurnOk(log: LoopLog, calls: seq<Call>, turn: Turn) {
    && CallCount(calls, turn) <= Count(log, StartedKind, turn)
    && match PhaseOf(log, turn)
       case None => forall f | f in log :: TurnOf(f) != Some(turn)
       case Some(phase) =>
         && Count(log, ResponseKind, turn) <= AtMost(HasSampled(phase))
         && Count(log, CommandKind, turn) <= AtMost(HasDecided(phase))
         && Count(log, StartedKind, turn) <= AtMost(HasExecuted(phase))
  }

  /** Every operation comes from a persisted command, and every command from a persisted response. */
  ghost predicate Provenance(log: LoopLog) {
    && (forall i | 0 <= i < |log| && log[i].OperationStarted? :: CommandsTool(log[..i], log[i].turn))
    && (forall i | 0 <= i < |log| && log[i].CommandValidated? :: RespondsWith(log[..i], log[i].turn, log[i].action))
  }

  ghost predicate CommandsTool(log: LoopLog, turn: Turn) {
    exists f | f in log :: f.CommandValidated? && f.turn == turn && f.action.CallTool?
  }

  ghost predicate RespondsWith(log: LoopLog, turn: Turn, action: Action) {
    ModelCompleted(turn, Response(true, Some(action))) in log
  }

  ghost predicate CallsAreStarted(log: LoopLog, calls: seq<Call>) {
    forall call | call in calls :: call.durable <= |log| && OperationStarted(call.turn, call.op) in log[..call.durable]
  }

  ghost predicate WithinLimits(config: Config, log: LoopLog) {
    && (config.toolLimit.Some? ==> StartedTotal(log) <= config.toolLimit.value)
    && (forall kind :: NudgeTotal(log, kind) <= NudgeLimit(config, kind))
  }

  function NudgeLimit(config: Config, kind: NudgeKind): nat {
    if kind in config.nudgeLimits then config.nudgeLimits[kind] else 0
  }

  ghost predicate LoopOk(config: Config, log: LoopLog, calls: seq<Call>) {
    && (forall turn :: TurnOk(log, calls, turn))
    && Provenance(log)
    && CallsAreStarted(log, calls)
    && WithinLimits(config, log)
  }

  // ---- appending a fact ----

  /** When a fact may follow a log, kind by kind. */
  ghost predicate MayFollow(config: Config, log: LoopLog, f: LoopFact) {
    match f
    case PhaseChanged(turn, phase) =>
      (match PhaseOf(log, turn)
       case None => phase.ContextBuilding?
       case Some(previous) => TransitionAllowed(previous, phase) && !phase.ContextBuilding?)
    case ModelCompleted(turn, _) => PhaseOf(log, turn) == Some(ModelCalling) && Count(log, ResponseKind, turn) == 0
    case CommandValidated(turn, action) =>
      PhaseOf(log, turn) == Some(DecisionValidating) && Count(log, CommandKind, turn) == 0 && RespondsWith(log, turn, action)
    case OperationStarted(turn, _) =>
      && PhaseOf(log, turn) == Some(ActionExecuting) && Count(log, StartedKind, turn) == 0
      && CommandsTool(log, turn)
      && (config.toolLimit.Some? ==> StartedTotal(log) < config.toolLimit.value)
    case Nudged(turn, kind) => PhaseOf(log, turn).Some? && NudgeTotal(log, kind) < NudgeLimit(config, kind)
    case _ => TurnOf(f).Some? ==> PhaseOf(log, TurnOf(f).value).Some?
  }

  lemma CountAppend(log: LoopLog, f: LoopFact, turn: Turn)
    ensures forall kind ::
      Count(log + [f], kind, turn) == Count(log, kind, turn) + (if IsKind(f, kind) && TurnOf(f) == Some(turn) then 1 else 0)
    ensures PhaseOf(log + [f], turn) == if f.PhaseChanged? && f.turn == turn then Some(f.phase) else PhaseOf(log, turn)
  {
    assert (log + [f])[..|log|] == log;
  }

  lemma TotalsAppend(log: LoopLog, f: LoopFact)
    ensures StartedTotal(log + [f]) == StartedTotal(log) + (if f.OperationStarted? then 1 else 0)
    ensures forall kind :: NudgeTotal(log + [f], kind) == NudgeTotal(log, kind) + (if f.Nudged? && f.kind == kind then 1 else 0)
  {
    assert (log + [f])[..|log|] == log;
  }

  lemma {:induction false} UnmentionedHasNone(log: LoopLog, turn: Turn)
    requires forall f | f in log :: TurnOf(f) != Some(turn)
    ensures PhaseOf(log, turn).None? && forall kind :: Count(log, kind, turn) == 0
  {
    if log != [] {
      assert log[|log| - 1] in log;
      assert forall f | f in log[..|log| - 1] :: f in log;
      UnmentionedHasNone(log[..|log| - 1], turn);
    }
  }

  lemma FactKeepsTurn(config: Config, log: LoopLog, calls: seq<Call>, f: LoopFact, turn: Turn)
    requires TurnOk(log, calls, turn) && MayFollow(config, log, f)
    ensures TurnOk(log + [f], calls, turn)
  {
    hide Count, PhaseOf, CallCount, CommandsTool, RespondsWith, NudgeTotal, StartedTotal;
    CountAppend(log, f, turn);
    if PhaseOf(log, turn).None? {
      UnmentionedHasNone(log, turn);
    }
  }

  lemma FactKeepsProvenance(config: Config, log: LoopLog, f: LoopFact)
    requires Provenance(log) && MayFollow(config, log, f)
    ensures Provenance(log + [f])
  {
    hide CommandsTool, RespondsWith, PhaseOf, Count;
    var after := log + [f];
    assert forall i | 0 <= i < |log| :: after[..i] == log[..i];
    assert after[..|log|] == log;
  }

  lemma FactKeepsLoop(config: Config, log: LoopLog, calls: seq<Call>, f: LoopFact)
    requires LoopOk(config, log, calls) && MayFollow(config, log, f)
    ensures LoopOk(config, log + [f], calls)
  {
    hide TurnOk, Provenance;
    forall turn
      ensures TurnOk(log + [f], calls, turn)
    {
      FactKeepsTurn(config, log, calls, f, turn);
    }
    FactKeepsProvenance(config, log, f);
    TotalsAppend(log, f);
    assert forall call | call in calls :: (log + [f])[..call.durable] == log[..call.durable];
  }

  lemma ExternalMayFollow(config: Config, log: LoopLog, f: LoopFact)
    requires External(f)
    ensures MayFollow(config, log, f)
  {}

  /** A tool may be called for an operation that is started and not yet called. */
  lemma CallKeepsLoop(config: Config, log: LoopLog, calls: seq<Call>, call: Call)
    requires LoopOk(config, log, calls) && call.durable == |log| && OperationStarted(call.turn, call.op) in log
    requires CallCount(calls, call.turn) < Count(log, StartedKind, call.turn)
    ensures LoopOk(config, log, calls + [call])
  {
    hide Provenance, PhaseOf, Count, WithinLimits;
    assert log[..|log|] == log;
    forall turn
      ensures TurnOk(log, calls + [call], turn)
    {
      assert TurnOk(log, calls, turn);
      assert (calls + [call])[..|calls|] == calls;
    }
  }

  /** Entering a phase for the first time: what it is for has not happened yet. */
  lemma EnteredPhaseIsFresh(log: LoopLog, calls: seq<Call>, turn: Turn, phase: Phase)
    requires TurnOk(log, calls, turn)
    requires PhaseOf(log, turn).Some? && TransitionAllowed(PhaseOf(log, turn).value, phase)
    ensures var after := log + [PhaseChanged(turn, phase)];
      && PhaseOf(after, turn) == Some(phase)
      && (phase.ModelCalling? ==> Count(after, ResponseKind, turn) == 0)
      && (phase.DecisionValidating? ==> Count(after, CommandKind, turn) == 0)
      && (phase.ActionExecuting? ==> Count(after, StartedKind, turn) == 0 && CallCount(calls, turn) == 0)
  {
    hide Count, PhaseOf, CallCount;
    CountAppend(log, PhaseChanged(turn, phase), turn);
  }

  lemma {:induction false} CountFinds(log: LoopLog, kind: Kind, turn: Turn)
    ensures Count(log, kind, turn) > 0 <==> exists f :: f in log && IsKind(f, kind) && TurnOf(f) == Some(turn)
  {
    if log != [] {
      CountFinds(log[..|log| - 1], kind, turn);
      assert log == log[..|log| - 1] + [log[|log| - 1]];
    }
  }

  lemma MentionedHasPhase(log: LoopLog, calls: seq<Call>, f: LoopFact)
    requires TurnOf(f).Some? && TurnOk(log, calls, TurnOf(f).value) && f in log
    ensures PhaseOf(log, TurnOf(f).value).Some?
  {
    hide Count, PhaseOf;
  }

  // ---- the transition table ----

  /** How far a turn has come. */
  function Progress(phase: Phase): nat {
    match phase
    case ContextBuilding => 0
    case ModelCalling => 1
    case DecisionValidating => 2
    case ActionAuthorizing => 3
    case ActionExecuting => 4
    case ResultRecording => 5
    case WaitingPhase => 6
    case SubmittedPhase => 6
    case FailedPhase => 7
  }

  /**
    A turn goes one phase on, or from authorising past execution to recording; it fails from any phase but
    the first and the last ones; only a finished wait leads back. So no phase is entered twice in between.
   */
  lemma TurnsGoForward(previous: Phase, current: Phase)
    ensures TransitionAllowed(previous, current) <==>
      || (previous == WaitingPhase && current == ContextBuilding)
      || (previous == ActionAuthorizing && current == ResultRecording)
      || (current != FailedPhase && Progress(current) == Progress(previous) + 1)
      || (current == FailedPhase && previous !in {ContextBuilding, SubmittedPhase, FailedPhase})
    ensures TransitionAllowed(previous, current) && !current.ContextBuilding? ==> Progress(previous) < Progress(current)
  {}

  // ---- the guarantees, read off the invariant ----

  /** At most one tool call a turn, and it is the call of that turn's durable operation. */
  lemma ToolIsCalledAtMostOnce(config: Config, log: LoopLog, calls: seq<Call>, i: nat, j: nat)
    requires LoopOk(config, log, calls) && i < j < |calls|
    ensures calls[i].turn != calls[j].turn
    ensures calls[i].durable <= |log| && OperationStarted(calls[i].turn, calls[i].op) in log[..calls[i].durable]
  {
    hide Provenance, WithinLimits;
    assert calls[i] in calls;
    if calls[i].turn == calls[j].turn {
      CallsAreCounted(calls, i, j);
      assert TurnOk(log, calls, calls[i].turn);
      StartedOnlyInPhase(log, calls, calls[i].turn);
      assert false;
    }
  }

  lemma StartedOnlyInPhase(log: LoopLog, calls: seq<Call>, turn: Turn)
    requires TurnOk(log, calls, turn)
    ensures Count(log, StartedKind, turn) <= 1
  {
    hide Count;
    if PhaseOf(log, turn).None? {
      UnmentionedHasNone(log, turn);
    }
  }

  lemma {:induction false} CallsAreCounted(calls: seq<Call>, i: nat, j: nat)
    requires i < j < |calls| && calls[i].turn == calls[j].turn
    ensures CallCount(calls, calls[i].turn) >= 2
  {
    var last := |calls| - 1;
    if j < last {
      CallsAreCounted(calls[..last], i, j);
    } else {
      OneCallIsCounted(calls[..last], i);
    }
  }

  lemma {:induction false} OneCallIsCounted(calls: seq<Call>, i: nat)
    requires i < |calls|
    ensures CallCount(calls, calls[i].turn) >= 1
  {
    var last := |calls| - 1;
    if i < last {
      OneCallIsCounted(calls[..last], i);
    }
  }
}
