/** Values shared by every component: identifiers, declarative team contracts and agent cards. */
module Contracts {

  datatype Option<+T> = None | Some(value: T)

  // Identifiers are compared for equality and, where the runtime sorts them, by order.
  type RunId = nat
  type TaskId = nat
  type StageId = nat
  type AgentId = nat
  type Capability = nat
  type Text = string

  datatype AssignmentContract = AssignmentContract(
    version: nat,
    goal: Text,
    exitCriteria: seq<Text>,
    evidenceRequirements: seq<Text>,
    maxToolCalls: Option<nat>)

  datatype TeamStageSpec = TeamStageSpec(
    stageId: StageId,
    resultKind: Text,
    goal: Text,
    requiredCapabilities: set<Capability>,
    exitCriteria: seq<Text>,
    dependsOn: seq<StageId>,
    assignmentContract: Option<AssignmentContract>)

  datatype TeamContract = TeamContract(
    contractId: Text,
    version: nat,
    stages: seq<TeamStageSpec>,
    maxParallelAssignments: nat,
    maxStageAttempts: nat,
    leaseSeconds: nat)

  datatype AgentStatus = Idle | Busy | Waiting | Degraded | Offline

  datatype AgentCard = AgentCard(
    agentId: AgentId,
    capabilities: set<Capability>,
    maxConcurrency: int)

  function Elements<T>(s: seq<T>): set<T> {
    set x | x in s
  }

  function StageIds(stages: seq<TeamStageSpec>): set<StageId> {
    set s | s in stages :: s.stageId
  }

  ghost predicate DistinctStageIds(stages: seq<TeamStageSpec>) {
    forall i, j | 0 <= i < j < |stages| :: stages[i].stageId != stages[j].stageId
  }

  lemma DistinctWithHead(head: TeamStageSpec, rest: seq<TeamStageSpec>)
    ensures DistinctStageIds([head] + rest) <==>
      DistinctStageIds(rest) && forall s | s in rest :: s.stageId != head.stageId
  {
    var all := [head] + rest;
    if DistinctStageIds(all) {
      forall i, j | 0 <= i < j < |rest|
        ensures rest[i].stageId != rest[j].stageId
      {
        assert all[i + 1].stageId != all[j + 1].stageId;
      }
      forall s | s in rest
        ensures s.stageId != head.stageId
      {
        var i :| 0 <= i < |rest| && rest[i] == s;
        assert all[0].stageId != all[i + 1].stageId;
      }
    }
  }

  lemma DistinctWithLast(front: seq<TeamStageSpec>, last: TeamStageSpec)
    ensures DistinctStageIds(front + [last]) <==>
      DistinctStageIds(front) && forall s | s in front :: s.stageId != last.stageId
  {
    var all := front + [last];
    if DistinctStageIds(all) {
      forall i, j | 0 <= i < j < |front|
        ensures front[i].stageId != front[j].stageId
      {
        assert all[i].stageId != all[j].stageId;
      }
      forall s | s in front
        ensures s.stageId != last.stageId
      {
        var i :| 0 <= i < |front| && front[i] == s;
        assert all[i].stageId != all[|front|].stageId;
      }
    }
  }

  /** The specification carried for a stage id (`{stage.stage_id: stage for stage in stages}`). */
  function StageOf(stages: seq<TeamStageSpec>, id: StageId): (stage: TeamStageSpec)
    requires id in StageIds(stages)
    ensures stage in stages && stage.stageId == id
  {
    if stages[0].stageId == id then stages[0] else StageOf(stages[1..], id)
  }

  lemma StageOfIsUnique(stages: seq<TeamStageSpec>, stage: TeamStageSpec)
    requires DistinctStageIds(stages) && stage in stages
    ensures StageOf(stages, stage.stageId) == stage
  {
    var found := StageOf(stages, stage.stageId);
    var i :| 0 <= i < |stages| && stages[i] == stage;
    var j :| 0 <= j < |stages| && stages[j] == found;
    if i < j {
      assert stages[i].stageId == stages[j].stageId;
    } else if j < i {
      assert stages[j].stageId == stages[i].stageId;
    }
  }
}
