/**
 * What is called next, read off a state: the steps in order, inside a branch the chosen path, in a
 * repeat the children of its iteration and then Until. This is what going forward means, without
 * retries, snapshots, clocks or restarts.
 */
module NextCalls {
  import opened Options
  import opened Decimal
  import opened Definition
  import opened State
  import opened Journal
  import opened Frames
  import opened Records

  /** The first call of a step that has not begun, or of the iteration its record names. */
  function Opening(step: Step, path: Path, s: RunState): Call
    decreases step
  {
    match step.kind
    case Action(_, _) => Do(path)
    case Poll(_) => Check(path)
    case Branch(_) => Decide(path)
    case Repeat(steps, _, _, _) =>
      var rs := RepeatAt(s, path);
      if rs.awaitingCondition || steps == [] then Until(path, rs.iteration)
      else Opening(steps[0], path + [Itoa(rs.iteration)] + [steps[0].name], s)
  }

  function OpeningAt(steps: seq<Step>, i: nat, scope: Path, s: RunState): Option<Call> {
    if i < |steps| then Some(Opening(steps[i], scope + [steps[i].name], s)) else None
  }

  /** What is left to call in this step, which the saved path leads to. */
  function NextOfStep(step: Step, path: Path, s: RunState): Option<Call>
    decreases step, 0
  {
    if |s.currentPath| <= |path| then
      if IsCompleted(s, path) then None else Some(Opening(step, path, s))
    else
      match step.kind
      case Action(_, _) => None
      case Poll(_) => None
      case Branch(paths) =>
        (match FindKey(paths, s.currentPath[|path|])
         case None => None
         case Some(k) => NextOfScope(paths[k].steps, path + [paths[k].key], s))
      case Repeat(steps, _, _, _) =>
        var rs := RepeatAt(s, path);
        var inside := if rs.awaitingCondition then None else NextOfScope(steps, path + [Itoa(rs.iteration)], s);
        if inside.Some? then inside else Some(Until(path, rs.iteration))
  }

  function NextOfScope(steps: seq<Step>, scope: Path, s: RunState): Option<Call>
    decreases steps, 1
  {
    if |s.currentPath| <= |scope| then OpeningAt(steps, 0, scope, s)
    else
      match Find(steps, s.currentPath[|scope|])
      case None => None
      case Some(i) =>
        var inside := NextOfStep(steps[i], scope + [steps[i].name], s);
        if inside.Some? then inside else OpeningAt(steps, i + 1, scope, s)
  }

  function NextCall(top: seq<Step>, s: RunState): Option<Call> {
    NextOfScope(top, [], s)
  }

  // ---------- the same view ----------

  /** Equal in all that is read here, but perhaps for the saved path. */
  ghost predicate SameView(s: RunState, s': RunState) {
    forall q :: IsCompleted(s', q) == IsCompleted(s, q)
                && RepeatAt(s', q).iteration == RepeatAt(s, q).iteration
                && RepeatAt(s', q).awaitingCondition == RepeatAt(s, q).awaitingCondition
  }

  lemma {:induction false} OpeningSame(step: Step, path: Path, s: RunState, s': RunState)
    requires SameView(s, s')
    ensures Opening(step, path, s') == Opening(step, path, s)
    decreases step
  {
    if step.kind.Repeat? && step.kind.steps != [] {
      var rs := RepeatAt(s, path);
      assert RepeatAt(s', path).iteration == rs.iteration;
      OpeningSame(step.kind.steps[0], path + [Itoa(rs.iteration)] + [step.kind.steps[0].name], s, s');
    }
  }

  lemma OpeningAtSame(steps: seq<Step>, i: nat, scope: Path, s: RunState, s': RunState)
    requires SameView(s, s')
    ensures OpeningAt(steps, i, scope, s') == OpeningAt(steps, i, scope, s)
  {
    if i < |steps| {
      OpeningSame(steps[i], scope + [steps[i].name], s, s');
    }
  }

  lemma {:induction false} StepSame(step: Step, path: Path, s: RunState, s': RunState)
    requires SameView(s, s') && s'.currentPath == s.currentPath
    ensures NextOfStep(step, path, s') == NextOfStep(step, path, s)
    decreases step, 0
  {
    OpeningSame(step, path, s, s');
    if |s.currentPath| > |path| {
      match step.kind
      case Action(_, _) =>
      case Poll(_) =>
      case Branch(paths) =>
        var f := FindKey(paths, s.currentPath[|path|]);
        if f.Some? {
          ScopeSame(paths[f.value].steps, path + [paths[f.value].key], s, s');
        }
      case Repeat(steps, _, _, _) =>
        assert RepeatAt(s', path).iteration == RepeatAt(s, path).iteration;
        ScopeSame(steps, path + [Itoa(RepeatAt(s, path).iteration)], s, s');
    }
  }

  lemma {:induction false} ScopeSame(steps: seq<Step>, scope: Path, s: RunState, s': RunState)
    requires SameView(s, s') && s'.currentPath == s.currentPath
    ensures NextOfScope(steps, scope, s') == NextOfScope(steps, scope, s)
    decreases steps, 1
  {
    OpeningAtSame(steps, 0, scope, s, s');
    if |s.currentPath| > |scope| {
      var f := Find(steps, s.currentPath[|scope|]);
      if f.Some? {
        StepSame(steps[f.value], scope + [steps[f.value].name], s, s');
        OpeningAtSame(steps, f.value + 1, scope, s, s');
      }
    }
  }

  lemma NextSame(top: seq<Step>, s: RunState, s': RunState)
    requires SameView(s, s') && s'.currentPath == s.currentPath
    ensures NextCall(top, s') == NextCall(top, s)
  {
    ScopeSame(top, [], s, s');
  }

  // ---------- the whole from the part ----------

  /** What is next in this step, when the saved path leads here, is next for the whole pipeline. */
  ghost predicate StepLifts(top: seq<Step>, step: Step, path: Path) {
    forall s: RunState :: path <= s.currentPath && Inside(top, path, s) && NextOfStep(step, path, s).Some?
                ==> NextCall(top, s) == NextOfStep(step, path, s)
  }

  ghost predicate ScopeLifts(top: seq<Step>, steps: seq<Step>, scope: Path) {
    forall s: RunState :: scope <= s.currentPath && Around(top, scope, s) && NextOfScope(steps, scope, s).Some?
                ==> NextCall(top, s) == NextOfScope(steps, scope, s)
  }

  lemma TopLifts(top: seq<Step>)
    ensures ScopeLifts(top, top, [])
  {
  }

  lemma LiftStep(top: seq<Step>, steps: seq<Step>, i: nat, scope: Path)
    requires DistinctNames(steps) && i < |steps| && ScopeLifts(top, steps, scope) && !RepeatPath(top, scope)
    ensures StepLifts(top, steps[i], scope + [steps[i].name])
  {
    var path := scope + [steps[i].name];
    FindSelf(steps, i);
    forall s: RunState | path <= s.currentPath && Inside(top, path, s) && NextOfStep(steps[i], path, s).Some?
      ensures NextCall(top, s) == NextOfStep(steps[i], path, s)
    {
      PrefixTransitive(scope, path, s.currentPath);
      assert s.currentPath[|scope|] == path[|scope|];
      InsideAround(top, scope, steps[i].name, s);
    }
  }

  lemma LiftBranch(top: seq<Step>, step: Step, path: Path, k: nat)
    requires step.kind.Branch? && k < |step.kind.paths| && FindKey(step.kind.paths, step.kind.paths[k].key) == Some(k)
    requires StepLifts(top, step, path)
    ensures ScopeLifts(top, step.kind.paths[k].steps, path + [step.kind.paths[k].key])
  {
    var scope := path + [step.kind.paths[k].key];
    var steps := step.kind.paths[k].steps;
    forall s: RunState | scope <= s.currentPath && Around(top, scope, s) && NextOfScope(steps, scope, s).Some?
      ensures NextCall(top, s) == NextOfScope(steps, scope, s)
    {
      PrefixTransitive(path, scope, s.currentPath);
      assert s.currentPath[|path|] == scope[|path|];
      assert NextOfStep(step, path, s) == NextOfScope(steps, scope, s);
      InsideAround(top, path, step.kind.paths[k].key, s);
    }
  }

  lemma LiftRepeat(top: seq<Step>, step: Step, path: Path, n: nat)
    requires step.kind.Repeat? && RepeatPath(top, path) && StepLifts(top, step, path)
    ensures ScopeLifts(top, step.kind.steps, path + [Itoa(n)])
  {
    var scope := path + [Itoa(n)];
    var steps := step.kind.steps;
    forall s: RunState | scope <= s.currentPath && Around(top, scope, s) && NextOfScope(steps, scope, s).Some?
      ensures NextCall(top, s) == NextOfScope(steps, scope, s)
    {
      PrefixTransitive(path, scope, s.currentPath);
      assert path < scope && scope[|path|] == Itoa(n);
      assert Hosts(s, path, scope);
      assert NextOfStep(step, path, s) == NextOfScope(steps, scope, s);
      InsideAround(top, path, Itoa(n), s);
    }
  }

  // ---------- memory against the last durable state ----------

  /** Only the path and which repeats have a record differ. */
  ghost predicate Unmoved(d: RunState, s: RunState) {
    && s == d.(currentPath := s.currentPath, repeatStates := s.repeatStates)
    && forall q :: RepeatAt(s, q) == RepeatAt(d, q)
  }

  /**
   * s is d with another path, other data, perhaps a poll started or reset, and perhaps the repeat at
   * q now waiting for its condition, which is then what d is about to ask.
   */
  ghost predicate OffBy(top: seq<Step>, d: RunState, s: RunState, q: Path) {
    && s == d.(currentPath := s.currentPath, data := s.data, pollStartedAt := s.pollStartedAt,
               repeatStates := s.repeatStates)
    && (forall p :: p != q ==> RepeatAt(s, p) == RepeatAt(d, p))
    && var was, now := RepeatAt(d, q), RepeatAt(s, q);
    && now == was.(awaitingCondition := now.awaitingCondition)
    && (now != was ==> now.awaitingCondition && NextCall(top, d) == Some(Until(q, was.iteration)))
  }

  ghost predicate Halfway(top: seq<Step>, d: RunState, s: RunState) {
    exists q :: OffBy(top, d, s, q)
  }

  /** Memory is ahead of the store by nothing that would change what is called next. */
  ghost predicate Tracks(top: seq<Step>, d: RunState, s: RunState) {
    NextCall(top, s) == NextCall(top, d) && Halfway(top, d, s)
  }

  /** A compensator is called for this entry. */
  predicate Undoes(top: seq<Step>, e: CompletedStep) {
    e.hasCompensator && FindStep(top, e.path).Some? && Compensable(FindStep(top, e.path).value)
  }

  /** s is d with another path and other data, its rollback past entries that need none. */
  ghost predicate Skipped(top: seq<Step>, d: RunState, s: RunState) {
    && s == d.(currentPath := s.currentPath, data := s.data, compensationIndex := s.compensationIndex)
    && (s.status != Compensating ==> s.compensationIndex == d.compensationIndex)
    && s.compensationIndex <= d.compensationIndex
    && forall i :: 0 <= i < |d.completedSteps| && s.compensationIndex < i <= d.compensationIndex
                   ==> !Undoes(top, d.completedSteps[i])
  }

  lemma TracksSelf(top: seq<Step>, s: RunState)
    ensures Tracks(top, s, s) && Unmoved(s, s)
  {
    assert OffBy(top, s, s, []);
  }

  lemma UnmovedHalfway(top: seq<Step>, d: RunState, s: RunState)
    requires Unmoved(d, s)
    ensures Halfway(top, d, s) && SameView(d, s)
  {
    assert OffBy(top, d, s, []);
    assert forall q :: IsCompleted(s, q) == IsCompleted(d, q);
  }

  lemma HalfwayMoved(top: seq<Step>, d: RunState, s: RunState, s': RunState)
    requires Halfway(top, d, s)
    requires s' == s.(currentPath := s'.currentPath, data := s'.data, pollStartedAt := s'.pollStartedAt)
    ensures Halfway(top, d, s')
  {
    var q :| OffBy(top, d, s, q);
    assert forall p :: RepeatAt(s', p) == RepeatAt(s, p);
    assert OffBy(top, d, s', q);
  }

  lemma WaitTracks(top: seq<Step>, d: RunState, s: RunState, started: Option<int>)
    requires Tracks(top, d, s)
    ensures Tracks(top, d, s.(pollStartedAt := started))
  {
    var s' := s.(pollStartedAt := started);
    HalfwayMoved(top, d, s, s');
    assert forall q :: RepeatAt(s', q) == RepeatAt(s, q) && IsCompleted(s', q) == IsCompleted(s, q);
    NextSame(top, s, s');
  }

  lemma RecordTracks(top: seq<Step>, d: RunState, s: RunState, path: Path, rs: RepeatState)
    requires Unmoved(d, s) && Tracks(top, d, s) && rs == RepeatAt(s, path)
    ensures Unmoved(d, Record(s, path, rs)) && Tracks(top, d, Record(s, path, rs))
  {
    var s' := Record(s, path, rs);
    assert forall q :: RepeatAt(s', q) == RepeatAt(s, q) && IsCompleted(s', q) == IsCompleted(s, q);
    UnmovedHalfway(top, d, s');
    NextSame(top, s, s');
  }

  // ---------- moving on ----------

  /** Standing at a step that is not completed, its opening call is next. */
  lemma NextOpens(top: seq<Step>, step: Step, path: Path, s: RunState)
    requires StepLifts(top, step, path) && Inside(top, path, s)
    requires s.currentPath == path && !IsCompleted(s, path)
    ensures NextCall(top, s) == Some(Opening(step, path, s))
  {
  }

  /** Entering the step whose opening call is next changes nothing about what is next. */
  lemma EnterTracks(top: seq<Step>, step: Step, path: Path, d: RunState, s: RunState)
    requires StepLifts(top, step, path) && Inside(top, path, s) && !IsCompleted(s, path)
    requires Unmoved(d, s) && Tracks(top, d, s) && NextCall(top, s) == Some(Opening(step, path, s))
    ensures Unmoved(d, s.(currentPath := path)) && Tracks(top, d, s.(currentPath := path))
  {
    var s' := s.(currentPath := path);
    assert forall q :: RepeatAt(s', q) == RepeatAt(s, q) && IsCompleted(s', q) == IsCompleted(s, q);
    UnmovedHalfway(top, d, s');
    MovedSame(top, s, path, path);
    NextOpens(top, step, path, s');
    OpeningSame(step, path, s, s');
  }

  /** A repeat that waits for its condition asks it next. */
  lemma NextAsks(top: seq<Step>, step: Step, path: Path, s: RunState)
    requires step.kind.Repeat? && StepLifts(top, step, path) && Inside(top, path, s) && path <= s.currentPath
    requires !IsCompleted(s, path) && RepeatAt(s, path).awaitingCondition
    ensures NextCall(top, s) == Some(Until(path, RepeatAt(s, path).iteration))
  {
  }

  /** With nothing left to call in its iteration a repeat asks next, noted or not. */
  lemma DueTracks(top: seq<Step>, step: Step, path: Path, d: RunState, s: RunState)
    requires step.kind.Repeat? && StepLifts(top, step, path) && Inside(top, path, s) && path <= s.currentPath
    requires !IsCompleted(s, path) && Unmoved(d, s) && Tracks(top, d, s)
    requires NextOfScope(step.kind.steps, path + [Itoa(RepeatAt(s, path).iteration)], s) == None
    ensures Tracks(top, d, Record(s, path, RepeatAt(s, path).(awaitingCondition := true)))
  {
    var rs := RepeatAt(s, path);
    var s' := Record(s, path, rs.(awaitingCondition := true));
    assert NextOfStep(step, path, s) == Some(Until(path, rs.iteration));
    assert forall q :: q != path ==> RepeatAt(s', q) == RepeatAt(s, q);
    assert IsCompleted(s', path) == IsCompleted(s, path);
    InsideRecord(top, s, path, rs.(awaitingCondition := true));
    NextAsks(top, step, path, s');
    assert OffBy(top, d, s', path);
  }

  lemma InsideRecord(top: seq<Step>, s: RunState, path: Path, rs: RepeatState)
    requires Inside(top, path, s)
    ensures Inside(top, path, Record(s, path, rs))
  {
    var s' := Record(s, path, rs);
    forall p | p < path && RepeatPath(top, p) ensures Hosts(s', p, path) {
      assert Hosts(s, p, path);
    }
  }

  // ---------- scopes ----------

  /** Nothing of this scope is left before step i, which is what the whole pipeline does next. */
  ghost predicate Poised(top: seq<Step>, steps: seq<Step>, i: nat, parent: Path, s: RunState) {
    && NextOfScope(steps, parent, s) == OpeningAt(steps, i, parent, s)
    && (i < |steps| ==> NextCall(top, s) == OpeningAt(steps, i, parent, s))
  }

  lemma PoisedAt(top: seq<Step>, steps: seq<Step>, i: nat, parent: Path, s: RunState)
    requires ScopeLifts(top, steps, parent) && Around(top, parent, s) && parent <= s.currentPath
    requires NextOfScope(steps, parent, s) == OpeningAt(steps, i, parent, s)
    ensures Poised(top, steps, i, parent, s)
  {
  }

  /** After the step at i, which has nothing left to call. */
  lemma PoisedAfter(top: seq<Step>, steps: seq<Step>, i: nat, parent: Path, s: RunState)
    requires ScopeLifts(top, steps, parent) && Around(top, parent, s)
    requires DistinctNames(steps) && i < |steps| && parent + [steps[i].name] <= s.currentPath
    requires NextOfStep(steps[i], parent + [steps[i].name], s) == None
    ensures Poised(top, steps, i + 1, parent, s)
  {
    var path := parent + [steps[i].name];
    FindSelf(steps, i);
    PrefixTransitive(parent, path, s.currentPath);
    assert s.currentPath[|parent|] == path[|parent|];
    PoisedAt(top, steps, i + 1, parent, s);
  }
}
