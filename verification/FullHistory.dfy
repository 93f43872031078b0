/** The same pipeline with Full history everywhere: no repeat forgets its finished iterations. */
module FullHistory {
  import opened Options
  import opened Definition
  import opened Journal

  function Full(steps: seq<Step>): (full: seq<Step>)
    ensures |full| == |steps| && forall i :: 0 <= i < |steps| ==> full[i] == FullStep(steps[i])
    decreases steps
  {
    seq(|steps|, i requires 0 <= i < |steps| => FullStep(steps[i]))
  }

  function FullStep(step: Step): (full: Step)
    ensures full.name == step.name
    decreases step
  {
    match step.kind
    case Action(_, _) => step
    case Poll(_) => step
    case Branch(paths) => Step(step.name, Branch(FullPaths(paths)))
    case Repeat(steps, n, d, _) => Step(step.name, Repeat(Full(steps), n, d, false))
  }

  function FullPaths(paths: seq<BranchPath>): (full: seq<BranchPath>)
    ensures |full| == |paths| && forall k :: 0 <= k < |paths| ==> full[k] == BranchPath(paths[k].key, Full(paths[k].steps))
    decreases paths
  {
    seq(|paths|, k requires 0 <= k < |paths| => BranchPath(paths[k].key, Full(paths[k].steps)))
  }

  lemma FullFind(steps: seq<Step>, name: string)
    ensures Find(Full(steps), name) == Find(steps, name)
  {
    assert forall i :: 0 <= i < |steps| ==> Full(steps)[i].name == steps[i].name;
  }

  lemma FullKey(paths: seq<BranchPath>, key: string)
    ensures FindKey(FullPaths(paths), key) == FindKey(paths, key)
  {
    assert forall k :: 0 <= k < |paths| ==> FullPaths(paths)[k].key == paths[k].key;
  }

  /** Steps are found at the same paths. */
  lemma {:induction false} FullFinds(steps: seq<Step>, path: Path)
    ensures FindStep(Full(steps), path)
         == match FindStep(steps, path) case None => None case Some(step) => Some(FullStep(step))
    decreases |path|
  {
    if path != [] {
      FullFind(steps, path[0]);
      var f := Find(steps, path[0]);
      if f.Some? && |path| >= 3 {
        var step := steps[f.value];
        match step.kind
        case Action(_, _) =>
        case Poll(_) =>
        case Branch(paths) =>
          FullKey(paths, path[1]);
          var k := FindKey(paths, path[1]);
          if k.Some? {
            FullFinds(paths[k.value].steps, path[2..]);
          }
        case Repeat(inner, _, _, _) => FullFinds(inner, path[2..]);
      }
    }
  }

  lemma {:induction false} FullValidSteps(steps: seq<Step>)
    requires ValidSteps(steps)
    ensures ValidSteps(Full(steps))
    decreases steps
  {
    forall i | 0 <= i < |steps| ensures ValidStep(Full(steps)[i]) {
      FullValidStep(steps[i]);
    }
  }

  lemma {:induction false} FullValidStep(step: Step)
    requires ValidStep(step)
    ensures ValidStep(FullStep(step))
    decreases step
  {
    match step.kind
    case Action(_, _) =>
    case Poll(_) =>
    case Branch(paths) =>
      forall k | 0 <= k < |paths| ensures ValidSteps(FullPaths(paths)[k].steps) {
        FullValidSteps(paths[k].steps);
      }
    case Repeat(steps, _, _, _) => FullValidSteps(steps);
  }

  /** Where nothing is compensated, no path leads to a compensated step. */
  lemma {:induction false} NothingCompensable(steps: seq<Step>, path: Path)
    requires NoCompensators(steps) && FindStep(steps, path).Some?
    ensures !Compensable(FindStep(steps, path).value)
    decreases |path|
  {
    var step := steps[Find(steps, path[0]).value];
    assert UncompensatedStep(step);
    if |path| >= 3 {
      match step.kind
      case Action(_, _) =>
      case Poll(_) =>
      case Branch(paths) => NothingCompensable(paths[FindKey(paths, path[1]).value].steps, path[2..]);
      case Repeat(inner, _, _, _) => NothingCompensable(inner, path[2..]);
    }
  }

  /** Paths of steps have odd length: a name, then pairs of a branch key or iteration and a name. */
  lemma {:induction false} FoundOdd(steps: seq<Step>, path: Path)
    ensures FindStep(steps, path).Some? ==> |path| % 2 == 1
    decreases |path|
  {
    if |path| >= 3 {
      var f := Find(steps, path[0]);
      if f.Some? {
        var step := steps[f.value];
        match step.kind
        case Action(_, _) =>
        case Poll(_) =>
        case Branch(paths) =>
          var k := FindKey(paths, path[1]);
          if k.Some? {
            FoundOdd(paths[k.value].steps, path[2..]);
          }
        case Repeat(inner, _, _, _) => FoundOdd(inner, path[2..]);
      }
    }
  }
}
