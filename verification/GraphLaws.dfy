/** Which team contracts are accepted, told on their stages. */
module GraphLaws {
  import opened Contracts
  import opened TeamGraph

  /** The stages, each depending on the next one, lead back to where they began. */
  ghost predicate IsStageCycle(stages: seq<TeamStageSpec>, path: seq<TeamStageSpec>) {
    && |path| >= 2 && path[0] == path[|path| - 1]
    && (forall i | 0 <= i < |path| :: path[i] in stages)
    && forall i | 0 <= i < |path| - 1 :: path[i + 1].stageId in path[i].dependsOn
  }

  /** At least one stage, no id twice, dependencies on stages of the contract only, and assignment contracts that repeat their stage. */
  ghost predicate IsWellFormed(contract: TeamContract) {
    && contract.stages != []
    && (forall i, j | 0 <= i < j < |contract.stages| :: contract.stages[i].stageId != contract.stages[j].stageId)
    && (forall s, d | s in contract.stages && d in s.dependsOn :: exists t :: t in contract.stages && t.stageId == d)
    && forall s | s in contract.stages && s.assignmentContract.Some? ::
         s.assignmentContract.value.goal == s.goal && s.assignmentContract.value.exitCriteria == s.exitCriteria
  }

  lemma AcceptedMeansWellFormed(contract: TeamContract)
    ensures AcceptedContract(contract) <==> IsWellFormed(contract) && Acyclic(DependenciesOf(contract.stages))
  {
    hide Acyclic;
    forall s | s in contract.stages
      ensures Elements(s.dependsOn) <= StageIds(contract.stages) <==>
        forall d | d in s.dependsOn :: exists t :: t in contract.stages && t.stageId == d
    {
      DependenciesAreKnownIff(contract.stages, s);
    }
  }

  lemma DependenciesAreKnownIff(stages: seq<TeamStageSpec>, s: TeamStageSpec)
    ensures Elements(s.dependsOn) <= StageIds(stages) <==>
      forall d | d in s.dependsOn :: exists t :: t in stages && t.stageId == d
  {
    assert forall d :: d in Elements(s.dependsOn) <==> d in s.dependsOn;
  }

  /** In an accepted contract no stage depends on itself, over however many others. */
  lemma AcceptedHasNoCycle(contract: TeamContract, path: seq<TeamStageSpec>)
    requires AcceptedContract(contract)
    ensures !IsStageCycle(contract.stages, path)
  {
    hide Acyclic;
    if IsStageCycle(contract.stages, path) {
      var ids := seq(|path|, i requires 0 <= i < |path| => path[i].stageId);
      forall i | 0 <= i < |path|
        ensures ids[i] in DependenciesOf(contract.stages)
        ensures i + 1 < |path| ==> ids[i + 1] in DependenciesOf(contract.stages)[ids[i]]
      {
        StageOfIsUnique(contract.stages, path[i]);
      }
      RankExcludesCycles(DependenciesOf(contract.stages), ids);
    }
  }

  /** A cycle of stage ids is one of stages. */
  lemma CycleOfStages(contract: TeamContract, ids: seq<StageId>)
    requires IsCycle(DependenciesOf(contract.stages), ids)
    ensures exists path :: IsStageCycle(contract.stages, path)
  {
    forall i | 0 <= i < |ids|
      ensures ids[i] in StageIds(contract.stages)
    {
      assert ids[i] in DependenciesOf(contract.stages);
    }
    var path := seq(|ids|, i requires 0 <= i < |ids| => StageOf(contract.stages, ids[i]));
    forall i | 0 <= i < |path| - 1
      ensures path[i + 1].stageId in path[i].dependsOn
    {
      assert ids[i + 1] in DependenciesOf(contract.stages)[ids[i]];
    }
    assert IsStageCycle(contract.stages, path);
  }
}
