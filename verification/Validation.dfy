/** The checks made on a definition before a run, in the program's own loops. */
module Validation {
  import opened Options
  import opened Definition

  const ITERATION := "<iteration>"

  /** Branch paths form a map, so their keys are distinct at every level. */
  predicate MapKeys(steps: seq<Step>)
    decreases steps
  {
    forall i :: 0 <= i < |steps| ==> MapKeysStep(steps[i])
  }

  predicate MapKeysStep(step: Step)
    decreases step
  {
    match step.kind
    case Action(_, _) => true
    case Poll(_) => true
    case Branch(paths) =>
      && (forall i, j :: 0 <= i < j < |paths| ==> paths[i].key != paths[j].key)
      && forall k :: 0 <= k < |paths| ==> MapKeys(paths[k].steps)
    case Repeat(steps, _, _, _) => MapKeys(steps)
  }

  /** The path leads, by names and keys, to an action with a compensator below these steps. */
  predicate Points(steps: seq<Step>, path: Path)
    decreases steps, 1
  {
    path != [] && exists i :: 0 <= i < |steps| && PointsFrom(steps[i], path)
  }

  predicate PointsFrom(step: Step, path: Path)
    requires path != []
    decreases step, 0
  {
    && path[0] == step.name
    && match step.kind
       case Action(compensated, _) => |path| == 1 && compensated
       case Poll(_) => false
       case Branch(paths) =>
         |path| >= 2 && exists k :: 0 <= k < |paths| && paths[k].key == path[1] && Points(paths[k].steps, path[2..])
       case Repeat(steps, _, _, _) => |path| >= 2 && path[1] == ITERATION && Points(steps, path[2..])
  }

  /** The positions of a list, as the set of entries a range over a map has still to visit. */
  function Positions(n: nat): (r: set<nat>)
    ensures forall k: nat :: k in r <==> k < n
  {
    if n == 0 then {} else Positions(n - 1) + {n - 1}
  }

  lemma PointsDeeper(parent: Path, a: string, b: string, rest: Path)
    ensures (parent + [a] + [b] + rest)[|parent|..] == [a, b] + rest
    ensures ([a, b] + rest)[2..] == rest
  {
  }

  /**
   * Finds a compensated action anywhere below these steps, or establishes that there is none.
   * Branch paths are visited in any order.
   */
  method FindCompensatorPath(steps: seq<Step>, parent: Path) returns (found: Option<Path>)
    ensures found.None? <==> NoCompensators(steps)
    ensures found.Some? ==>
      parent <= found.value && Points(steps, found.value[|parent|..])
    decreases steps
  {
    for i := 0 to |steps|
      invariant forall j :: 0 <= j < i ==> UncompensatedStep(steps[j])
    {
      var step := steps[i];
      var path := parent + [step.name];
      if step.kind.Action? && step.kind.compensated {
        assert PointsFrom(steps[i], path[|parent|..]);
        return Some(path);
      }
      if step.kind.Branch? {
        var below := FindInPaths(step.kind.paths, path);
        if below.Some? {
          ghost var rest := below.value[|path|..];
          assert below.value == parent + [step.name] + [rest[0]] + rest[1..];
          PointsDeeper(parent, step.name, rest[0], rest[1..]);
          assert PointsFrom(steps[i], below.value[|parent|..]);
          return below;
        }
      }
      if step.kind.Repeat? {
        var below := FindCompensatorPath(step.kind.steps, path + [ITERATION]);
        if below.Some? {
          ghost var rest := below.value[|parent| + 2..];
          assert below.value == parent + [step.name] + [ITERATION] + rest;
          PointsDeeper(parent, step.name, ITERATION, rest);
          assert PointsFrom(steps[i], below.value[|parent|..]);
          return below;
        }
      }
    }
    return None;
  }

  method FindInPaths(paths: seq<BranchPath>, parent: Path) returns (found: Option<Path>)
    ensures found.None? <==> forall k :: 0 <= k < |paths| ==> NoCompensators(paths[k].steps)
    ensures found.Some? ==>
      && parent < found.value
      && var rest := found.value[|parent|..];
      exists k :: 0 <= k < |paths| && paths[k].key == rest[0] && Points(paths[k].steps, rest[1..])
    decreases paths
  {
    var todo: set<nat> := Positions(|paths|);
    while todo != {}
      invariant forall k :: 0 <= k < |paths| && k !in todo ==> NoCompensators(paths[k].steps)
      invariant forall k :: k in todo ==> k < |paths|
      decreases |todo|
    {
      var k: nat :| k in todo;
      var below := FindCompensatorPath(paths[k].steps, parent + [paths[k].key]);
      if below.Some? {
        assert below.value[|parent|..][1..] == below.value[|parent| + 1..];
        return below;
      }
      todo := todo - {k};
    }
    return None;
  }

  /** Accepts exactly the valid step lists; names already seen are kept in a set. */
  method ValidateSteps(steps: seq<Step>) returns (ok: bool)
    requires MapKeys(steps)
    ensures ok <==> ValidSteps(steps)
    decreases steps
  {
    var names: set<string> := {};
    for i := 0 to |steps|
      invariant names == set j | 0 <= j < i :: steps[j].name
      invariant forall j, k :: 0 <= j < k < i ==> steps[j].name != steps[k].name
      invariant forall j :: 0 <= j < i ==> steps[j].name != "" && ValidStep(steps[j])
    {
      var step := steps[i];
      if step.name == "" || step.name in names {
        return false;
      }
      names := names + {step.name};
      if step.kind.Poll? && step.kind.maxDuration < 0 {
        return false;
      }
      if step.kind.Action? && step.kind.retry.Some? && step.kind.retry.value.initialDelay < 0 {
        return false;
      }
      if step.kind.Branch? {
        var valid := ValidatePaths(step.kind.paths);
        if !valid {
          return false;
        }
      }
      if step.kind.Repeat? {
        if step.kind.maxIterations < 0 || step.kind.maxDuration < 0 {
          return false;
        }
        if step.kind.compact {
          var below := FindCompensatorPath(step.kind.steps, []);
          if below.Some? {
            return false;
          }
        }
        var valid := ValidateSteps(step.kind.steps);
        if !valid {
          return false;
        }
      }
    }
    return true;
  }

  method ValidatePaths(paths: seq<BranchPath>) returns (ok: bool)
    requires forall k :: 0 <= k < |paths| ==> MapKeys(paths[k].steps)
    ensures ok <==> paths != [] && forall k :: 0 <= k < |paths| ==> ValidSteps(paths[k].steps)
    decreases paths
  {
    if paths == [] {
      return false;
    }
    var todo: set<nat> := Positions(|paths|);
    while todo != {}
      invariant forall k :: 0 <= k < |paths| && k !in todo ==> ValidSteps(paths[k].steps)
      invariant forall k :: k in todo ==> k < |paths|
      decreases |todo|
    {
      var k: nat :| k in todo;
      var valid := ValidateSteps(paths[k].steps);
      if !valid {
        return false;
      }
      todo := todo - {k};
    }
    return true;
  }

  method Validate(top: seq<Step>) returns (ok: bool)
    requires MapKeys(top)
    ensures ok <==> Valid(top)
  {
    if |top| == 0 {
      return false;
    }
    ok := ValidateSteps(top);
  }

  /** What is found is the reason a compact repeat is refused: some action there is compensated. */
  lemma {:induction false} PointsCompensated(steps: seq<Step>, path: Path)
    requires Points(steps, path)
    ensures !NoCompensators(steps)
    decreases steps
  {
    var i :| 0 <= i < |steps| && PointsFrom(steps[i], path);
    var step := steps[i];
    match step.kind
    case Action(_, _) => assert !UncompensatedStep(steps[i]);
    case Branch(paths) =>
      var k :| 0 <= k < |paths| && paths[k].key == path[1] && Points(paths[k].steps, path[2..]);
      PointsCompensated(paths[k].steps, path[2..]);
      assert !UncompensatedStep(steps[i]);
    case Repeat(inner, _, _, _) =>
      PointsCompensated(inner, path[2..]);
      assert !UncompensatedStep(steps[i]);
  }
}
