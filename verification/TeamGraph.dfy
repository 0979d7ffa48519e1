/** Validation of a team contract's dependency graph by depth-first search. */
module TeamGraph {
  import opened Contracts

  type Dependencies = map<StageId, set<StageId>>

  ghost predicate Closed(deps: Dependencies) {
    forall s | s in deps :: deps[s] <= deps.Keys
  }

  /** A rank strictly decreases along every dependency. */
  ghost predicate IsRank(deps: Dependencies, rank: map<StageId, nat>) {
    rank.Keys == deps.Keys
    && forall s, d | s in deps && d in deps[s] && d in rank :: rank[d] < rank[s]
  }

  ghost predicate Acyclic(deps: Dependencies) {
    exists rank :: IsRank(deps, rank)
  }

  /** Every stage of a path depends on the stage after it. */
  ghost predicate IsPath(deps: Dependencies, path: seq<StageId>) {
    && (forall i | 0 <= i < |path| :: path[i] in deps)
    && (forall i | 0 <= i < |path| - 1 :: path[i + 1] in deps[path[i]])
  }

  ghost predicate IsCycle(deps: Dependencies, path: seq<StageId>) {
    |path| >= 2 && IsPath(deps, path) && path[0] == path[|path| - 1]
  }

  lemma {:induction false} RankFallsAlongPath(deps: Dependencies, rank: map<StageId, nat>, path: seq<StageId>)
    requires IsRank(deps, rank) && IsPath(deps, path) && |path| >= 2
    ensures rank[path[|path| - 1]] < rank[path[0]]
  {
    var last := |path| - 1;
    if last > 1 {
      var shorter := path[..last];
      forall i | 0 <= i < |shorter| - 1
        ensures shorter[i + 1] in deps[shorter[i]]
      {
        assert shorter[i] == path[i] && shorter[i + 1] == path[i + 1];
      }
      RankFallsAlongPath(deps, rank, shorter);
    }
    assert path[last - 1 + 1] in deps[path[last - 1]];
  }

  lemma RankExcludesCycles(deps: Dependencies, path: seq<StageId>)
    requires Acyclic(deps)
    ensures !IsCycle(deps, path)
  {
    if IsCycle(deps, path) {
      var rank :| IsRank(deps, rank);
      RankFallsAlongPath(deps, rank, path);
    }
  }

  /**
    The colouring kept by the search: the stages on the stack form a path, finished stages are closed
    under dependencies, and the order in which they finished is a rank for them.
   */
  ghost predicate Coloured(deps: Dependencies, stack: seq<StageId>, visited: set<StageId>, finish: map<StageId, nat>) {
    && IsPath(deps, stack)
    && Elements(stack) !! visited
    && Finished(deps, visited, finish)
  }

  ghost predicate Finished(deps: Dependencies, visited: set<StageId>, finish: map<StageId, nat>) {
    && visited <= deps.Keys
    && finish.Keys == visited
    && (forall v | v in visited :: finish[v] < |visited|)
    && (forall v | v in visited :: deps[v] <= visited)
    && (forall v, d | v in visited && d in deps[v] && d in finish :: finish[d] < finish[v])
  }

  /** A stage may be entered when the stage on top of the stack depends on it. */
  ghost predicate Enterable(deps: Dependencies, stack: seq<StageId>, stage: StageId) {
    stage in deps && (stack != [] && stack[|stack| - 1] in deps ==> stage in deps[stack[|stack| - 1]])
  }

  lemma ColouredStackIsPath(deps: Dependencies, stack: seq<StageId>, visited: set<StageId>, finish: map<StageId, nat>)
    requires Coloured(deps, stack, visited, finish)
    ensures IsPath(deps, stack)
  {}

  lemma ColouredIsKnown(deps: Dependencies, stack: seq<StageId>, visited: set<StageId>, finish: map<StageId, nat>)
    requires Coloured(deps, stack, visited, finish)
    ensures visited <= deps.Keys
  {}

  lemma StackClosesCycle(deps: Dependencies, stack: seq<StageId>, stage: StageId)
    requires IsPath(deps, stack) && Enterable(deps, stack, stage) && stage in stack
    ensures exists path :: IsCycle(deps, path)
  {
    var i :| 0 <= i < |stack| && stack[i] == stage;
    var path := stack[i..] + [stage];
    forall k | 0 <= k < |path| - 1
      ensures path[k] in deps && path[k + 1] in deps[path[k]]
    {
      assert path[k] == stack[i + k];
      if k + 1 < |path| - 1 {
        assert path[k + 1] == stack[i + k + 1];
      }
    }
    assert IsCycle(deps, path);
  }

  lemma EnterStage(deps: Dependencies, stack: seq<StageId>, stage: StageId, visited: set<StageId>, finish: map<StageId, nat>)
    requires Coloured(deps, stack, visited, finish) && Enterable(deps, stack, stage) && stage !in visited
    ensures Coloured(deps, stack + [stage], visited, finish)
    ensures Elements(stack + [stage]) == Elements(stack) + {stage}
  {
    var longer := stack + [stage];
    forall i | 0 <= i < |longer| - 1
      ensures longer[i + 1] in deps[longer[i]]
    {
      assert longer[i] == stack[i];
      if i + 1 < |stack| {
        assert longer[i + 1] == stack[i + 1];
      }
    }
  }

  lemma FinishOne(deps: Dependencies, stage: StageId, visited: set<StageId>, finish: map<StageId, nat>)
    requires Finished(deps, visited, finish) && stage in deps && stage !in visited && deps[stage] <= visited
    ensures Finished(deps, visited + {stage}, finish[stage := |visited|])
  {
    var finish' := finish[stage := |visited|];
    forall v, d | v in visited + {stage} && d in deps[v]
      ensures d in visited && finish'[d] < finish'[v]
    {
      if v != stage {
        assert deps[v] <= visited;
      }
    }
  }

  lemma PathWithoutTop(deps: Dependencies, stack: seq<StageId>, stage: StageId)
    requires IsPath(deps, stack + [stage])
    ensures IsPath(deps, stack)
    ensures Elements(stack + [stage]) == Elements(stack) + {stage}
  {
    var longer := stack + [stage];
    forall i | 0 <= i < |stack|
      ensures stack[i] in deps && (i + 1 < |stack| ==> stack[i + 1] in deps[stack[i]])
    {
      assert longer[i] == stack[i] && (i + 1 < |stack| ==> longer[i + 1] == stack[i + 1]);
    }
  }

  lemma LeaveStage(deps: Dependencies, stack: seq<StageId>, stage: StageId, visited: set<StageId>, finish: map<StageId, nat>)
    requires Coloured(deps, stack + [stage], visited, finish)
    requires stage in deps && stage !in stack && deps[stage] <= visited
    ensures Coloured(deps, stack, visited + {stage}, finish[stage := |visited|])
    ensures Elements(stack) == Elements(stack + [stage]) - {stage}
  {
    hide IsPath, Finished;
    PathWithoutTop(deps, stack, stage);
    assert stage in stack + [stage];
    FinishOne(deps, stage, visited, finish);
  }

  lemma FinishedIsRanked(deps: Dependencies, visited: set<StageId>, finish: map<StageId, nat>)
    requires Coloured(deps, [], visited, finish) && visited == deps.Keys
    ensures Acyclic(deps)
  {
    assert IsRank(deps, finish);
  }

  /** The recursive search, with the two colour sets the validator mutates. */
  class CycleDetector {
    const dependencies: Dependencies
    var visiting: set<StageId>
    var visited: set<StageId>
    ghost var stack: seq<StageId>
    ghost var finish: map<StageId, nat>

    ghost predicate Valid()
      reads this
    {
      && Closed(dependencies)
      && Elements(stack) == visiting
      && Coloured(dependencies, stack, visited, finish)
    }

    constructor (dependencies: Dependencies)
      requires Closed(dependencies)
      ensures Valid() && this.dependencies == dependencies
      ensures stack == [] && visited == {} && visiting == {}
    {
      this.dependencies := dependencies;
      visiting, visited := {}, {};
      stack, finish := [], map[];
    }

    /** Returns false exactly where the validator raises "stage dependency cycle detected". */
    method Visit(stage: StageId) returns (acyclic: bool)
      requires Valid() && Enterable(dependencies, stack, stage)
      modifies this
      ensures acyclic ==>
        && Valid() && stage in visited && old(visited) <= visited
        && visiting == old(visiting) && stack == old(stack)
      ensures !acyclic ==> exists path :: IsCycle(dependencies, path)
      decreases dependencies.Keys - visiting
    {
      hide Coloured, IsCycle, IsPath;
      if stage in visiting {
        ColouredStackIsPath(dependencies, stack, visited, finish);
        StackClosesCycle(dependencies, stack, stage);
        return false;
      }
      if stage in visited {
        return true;
      }
      ghost var outer := stack;
      EnterStage(dependencies, stack, stage, visited, finish);
      visiting := visiting + {stage};
      stack := stack + [stage];
      var pending := dependencies[stage];
      while pending != {}
        invariant Valid() && pending <= dependencies[stage] && dependencies[stage] - pending <= visited
        invariant visiting == old(visiting) + {stage} && stack == outer + [stage]
        invariant old(visited) <= visited
        decreases pending
      {
        var dependency :| dependency in pending;
        assert dependency in dependencies.Keys;
        acyclic := Visit(dependency);
        if !acyclic {
          return false;
        }
        pending := pending - {dependency};
      }
      LeaveStage(dependencies, outer, stage, visited, finish);
      visiting := visiting - {stage};
      finish := finish[stage := |visited|];
      visited := visited + {stage};
      stack := outer;
      return true;
    }
  }

  datatype GraphError =
    | NoStages
    | DuplicateStageIds
    | UnknownDependencies(stage: StageId)
    | AssignmentContractDisagrees(stage: StageId)
    | DependencyCycle

  /** The dependency relation of a contract whose stage ids are distinct. */
  function DependenciesOf(stages: seq<TeamStageSpec>): Dependencies {
    map id | id in StageIds(stages) :: Elements(StageOf(stages, id).dependsOn)
  }

  predicate StageAgrees(stage: TeamStageSpec) {
    stage.assignmentContract.Some? ==>
      && stage.assignmentContract.value.goal == stage.goal
      && stage.assignmentContract.value.exitCriteria == stage.exitCriteria
  }

  ghost predicate KnownDependencies(stages: seq<TeamStageSpec>) {
    forall s | s in stages :: Elements(s.dependsOn) <= StageIds(stages)
  }

  /** What an accepted contract guarantees to every later reader of it. */
  ghost predicate AcceptedContract(contract: TeamContract) {
    && contract.stages != []
    && DistinctStageIds(contract.stages)
    && KnownDependencies(contract.stages)
    && (forall s | s in contract.stages :: StageAgrees(s))
    && Acyclic(DependenciesOf(contract.stages))
  }

  lemma DependenciesAreClosed(stages: seq<TeamStageSpec>)
    requires KnownDependencies(stages)
    ensures Closed(DependenciesOf(stages))
  {
    forall id | id in StageIds(stages)
      ensures Elements(StageOf(stages, id).dependsOn) <= StageIds(stages)
    {
      assert StageOf(stages, id) in stages;
    }
  }

  method HasDuplicates(stages: seq<TeamStageSpec>) returns (duplicate: bool)
    ensures duplicate <==> !DistinctStageIds(stages)
  {
    var known: set<StageId> := {};
    for i := 0 to |stages|
      invariant forall id :: id in known <==> exists j :: 0 <= j < i && stages[j].stageId == id
      invariant forall j, k | 0 <= j < k < i :: stages[j].stageId != stages[k].stageId
    {
      if stages[i].stageId in known {
        return true;
      }
      known := known + {stages[i].stageId};
    }
    return false;
  }

  /** The error names a stage with an unknown dependency, or one whose assignment contract says something else. */
  ghost predicate NamesIllFormed(stages: seq<TeamStageSpec>, error: GraphError) {
    match error
    case UnknownDependencies(id) =>
      exists s, d | s in stages && d in s.dependsOn :: s.stageId == id && forall t | t in stages :: t.stageId != d
    case AssignmentContractDisagrees(id) =>
      exists s | s in stages && s.assignmentContract.Some? :: s.stageId == id
        && (s.assignmentContract.value.goal != s.goal || s.assignmentContract.value.exitCriteria != s.exitCriteria)
    case _ => false
  }

  lemma UnknownIsNamed(stages: seq<TeamStageSpec>, stage: TeamStageSpec)
    requires stage in stages && !(Elements(stage.dependsOn) <= StageIds(stages))
    ensures NamesIllFormed(stages, UnknownDependencies(stage.stageId))
  {
    var d :| d in Elements(stage.dependsOn) && d !in StageIds(stages);
    assert stage in stages && d in stage.dependsOn;
  }

  method FirstIllFormedStage(stages: seq<TeamStageSpec>) returns (error: Option<GraphError>)
    ensures error.None? <==> KnownDependencies(stages) && forall s | s in stages :: StageAgrees(s)
    ensures error.Some? ==> NamesIllFormed(stages, error.value)
  {
    var known := StageIds(stages);
    for i := 0 to |stages|
      invariant forall j | 0 <= j < i :: Elements(stages[j].dependsOn) <= known && StageAgrees(stages[j])
    {
      assert stages[i] in stages;
      if !(Elements(stages[i].dependsOn) <= known) {
        UnknownIsNamed(stages, stages[i]);
        return Some(UnknownDependencies(stages[i].stageId));
      }
      if !StageAgrees(stages[i]) {
        return Some(AssignmentContractDisagrees(stages[i].stageId));
      }
    }
    return None;
  }

  /** The outer loop: every declared stage is visited in contract order. */
  method SearchCycles(stages: seq<TeamStageSpec>) returns (acyclic: bool)
    requires KnownDependencies(stages)
    ensures acyclic ==> Acyclic(DependenciesOf(stages))
    ensures !acyclic ==> exists path :: IsCycle(DependenciesOf(stages), path)
  {
    hide Coloured, IsCycle, IsPath, IsRank, Acyclic;
    var dependencies := DependenciesOf(stages);
    DependenciesAreClosed(stages);
    var detector := new CycleDetector(dependencies);
    for i := 0 to |stages|
      invariant detector.Valid() && detector.dependencies == dependencies && detector.stack == []
      invariant forall j | 0 <= j < i :: stages[j].stageId in detector.visited
    {
      assert stages[i] in stages;
      acyclic := detector.Visit(stages[i].stageId);
      if !acyclic {
        return false;
      }
    }
    ColouredIsKnown(dependencies, detector.stack, detector.visited, detector.finish);
    assert detector.visited == dependencies.Keys;
    FinishedIsRanked(dependencies, detector.visited, detector.finish);
    return true;
  }

  method ValidateGraph(contract: TeamContract) returns (error: Option<GraphError>)
    ensures error.None? <==> AcceptedContract(contract)
    ensures error == Some(DependencyCycle) ==>
      exists path :: IsCycle(DependenciesOf(contract.stages), path)
    ensures error == Some(NoStages) <==> contract.stages == []
    ensures error == Some(DuplicateStageIds) <==>
      exists i, j :: 0 <= i < j < |contract.stages| && contract.stages[i].stageId == contract.stages[j].stageId
    ensures error.Some? && !error.value.NoStages? && !error.value.DuplicateStageIds? && !error.value.DependencyCycle? ==>
      NamesIllFormed(contract.stages, error.value)
  {
    if contract.stages == [] {
      return Some(NoStages);
    }
    var duplicate := HasDuplicates(contract.stages);
    if duplicate {
      return Some(DuplicateStageIds);
    }
    error := FirstIllFormedStage(contract.stages);
    if error.Some? {
      return;
    }
    var acyclic := SearchCycles(contract.stages);
    if !acyclic {
      ghost var path :| IsCycle(DependenciesOf(contract.stages), path);
      if Acyclic(DependenciesOf(contract.stages)) {
        RankExcludesCycles(DependenciesOf(contract.stages), path);
      }
      return Some(DependencyCycle);
    }
    return None;
  }
}
