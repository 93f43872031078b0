/** The declarative step tree of a pipeline and the checks made on it before a run. */
module Definition {
  import opened Options
  import opened Decimal

  type Path = seq<string>

  datatype Retry = Retry(maxAttempts: int, initialDelay: int, backoff: bool)

  datatype BranchPath = BranchPath(key: string, steps: seq<Step>)

  /** Exactly one kind per step. Callbacks are not stored: the environment answers for a path. */
  datatype Kind =
    | Action(compensated: bool, retry: Option<Retry>)
    | Poll(maxDuration: int)
    | Branch(paths: seq<BranchPath>)
    | Repeat(steps: seq<Step>, maxIterations: int, maxDuration: int, compact: bool)

  datatype Step = Step(name: string, kind: Kind)

  /** Position of the first step called name, if any. */
  function Find(steps: seq<Step>, name: string): (r: Option<nat>)
    ensures r.Some? ==> r.value < |steps| && steps[r.value].name == name
                        && forall j :: 0 <= j < r.value ==> steps[j].name != name
    ensures r.None? ==> forall j :: 0 <= j < |steps| ==> steps[j].name != name
  {
    if steps == [] then None
    else if steps[0].name == name then Some(0)
    else match Find(steps[1..], name) case None => None case Some(i) => Some(i + 1)
  }

  /** Where a scope restarts: the first step called name, or the beginning when there is none. */
  function StartIndex(steps: seq<Step>, name: string): nat {
    match Find(steps, name) case None => 0 case Some(i) => i
  }

  /** Position of a branch path key; keys are map keys in the program, hence distinct. */
  function FindKey(paths: seq<BranchPath>, key: string): (r: Option<nat>)
    ensures r.Some? ==> r.value < |paths| && paths[r.value].key == key
                        && forall j :: 0 <= j < r.value ==> paths[j].key != key
    ensures r.None? ==> forall j :: 0 <= j < |paths| ==> paths[j].key != key
  {
    if paths == [] then None
    else if paths[0].key == key then Some(0)
    else match FindKey(paths[1..], key) case None => None case Some(i) => Some(i + 1)
  }

  /** Locates a step by its full path; path[1] of a Repeat is a decimal iteration number. */
  function FindStep(steps: seq<Step>, path: Path): Option<Step>
    decreases |path|
  {
    if path == [] then None
    else match Find(steps, path[0])
      case None => None
      case Some(i) =>
        if |path| == 1 then Some(steps[i])
        else if steps[i].kind.Branch? && |path| >= 3 then
          match FindKey(steps[i].kind.paths, path[1])
          case None => None
          case Some(k) => FindStep(steps[i].kind.paths[k].steps, path[2..])
        else if steps[i].kind.Repeat? && |path| >= 3 then
          if Atoi(path[1]).None? then None else FindStep(steps[i].kind.steps, path[2..])
        else None
  }

  // ---------- validation ----------

  /** No action anywhere below these steps has a compensator. */
  predicate NoCompensators(steps: seq<Step>)
    decreases steps
  {
    forall i :: 0 <= i < |steps| ==> UncompensatedStep(steps[i])
  }

  predicate UncompensatedStep(step: Step)
    decreases step
  {
    match step.kind
    case Action(compensated, _) => !compensated
    case Poll(_) => true
    case Branch(paths) => forall k :: 0 <= k < |paths| ==> NoCompensators(paths[k].steps)
    case Repeat(steps, _, _, _) => NoCompensators(steps)
  }

  predicate DistinctNames(steps: seq<Step>) {
    forall i, j :: 0 <= i < j < |steps| ==> steps[i].name != steps[j].name
  }

  predicate ValidSteps(steps: seq<Step>)
    decreases steps
  {
    && DistinctNames(steps)
    && forall i :: 0 <= i < |steps| ==> steps[i].name != "" && ValidStep(steps[i])
  }

  predicate ValidStep(step: Step)
    decreases step
  {
    match step.kind
    case Action(_, retry) => retry.Some? ==> retry.value.initialDelay >= 0
    case Poll(maxDuration) => maxDuration >= 0
    case Branch(paths) =>
      && paths != []
      && (forall i, j :: 0 <= i < j < |paths| ==> paths[i].key != paths[j].key)
      && forall k :: 0 <= k < |paths| ==> ValidSteps(paths[k].steps)
    case Repeat(steps, maxIterations, maxDuration, compact) =>
      && maxIterations >= 0 && maxDuration >= 0
      && (compact ==> NoCompensators(steps))
      && ValidSteps(steps)
  }

  /** A definition Run accepts: at least one step, every scope valid. */
  predicate Valid(top: seq<Step>) {
    top != [] && ValidSteps(top)
  }
}
