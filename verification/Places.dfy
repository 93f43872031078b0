/**
 * Where an execution stands: what the saved path leads into is in place, and nothing after that
 * place has happened yet. Good durable states are in place, and executing keeps the rest in place.
 */
module Places {
  import opened Options
  import opened Decimal
  import opened Definition
  import opened State
  import opened Executor
  import opened Journal
  import opened Frames
  import opened Runs
  import opened Footprint

  /** Nothing at or below path is completed, and no repeat there has finished an iteration. */
  ghost predicate FreshBelow(s: RunState, path: Path) {
    forall q :: IsPrefix(path, q) ==> Fresh(s, q)
  }

  ghost predicate Fresh(s: RunState, q: Path) {
    !IsCompleted(s, q) && RepeatAt(s, q).iteration == 0 && !RepeatAt(s, q).completed
  }

  ghost predicate LaterFresh(steps: seq<Step>, i: nat, parent: Path, s: RunState) {
    forall j :: i <= j < |steps| ==> FreshBelow(s, parent + [steps[j].name])
  }

  /** The saved path leads into these steps, and nothing after that place is completed. */
  ghost predicate PlacedScope(steps: seq<Step>, scope: Path, s: RunState)
    decreases steps, 1
  {
    if |s.currentPath| <= |scope| then FreshBelow(s, scope)
    else
      var f := Find(steps, s.currentPath[|scope|]);
      && f.Some? && LaterFresh(steps, f.value + 1, scope, s)
      && ((|s.currentPath| == |scope| + 1 && IsCompleted(s, scope + [steps[f.value].name]))
          || PlacedStep(steps[f.value], scope + [steps[f.value].name], s))
  }

  ghost predicate PlacedStep(step: Step, path: Path, s: RunState)
    decreases step, 0
  {
    if |s.currentPath| <= |path| then FreshBelow(s, path)
    else
      match step.kind
      case Action(_, _) => false
      case Poll(_) => false
      case Branch(paths) =>
        var f := FindKey(paths, s.currentPath[|path|]);
        f.Some? && PlacedScope(paths[f.value].steps, path + [paths[f.value].key], s)
      case Repeat(steps, _, _, _) =>
        var rs := RepeatAt(s, path);
        && s.currentPath[|path|] == Itoa(rs.iteration) && !rs.completed
        && (rs.awaitingCondition || PlacedScope(steps, path + [Itoa(rs.iteration)], s))
  }

  /** A scope execution about to start at step i: that step is in place, later ones are fresh. */
  ghost predicate Entry(steps: seq<Step>, i: nat, parent: Path, s: RunState, resume: Path, first: bool) {
    i < |steps| ==>
      var path := parent + [steps[i].name];
      && LaterFresh(steps, i + 1, parent, s)
      && if first && path <= resume then
           resume == s.currentPath && ((path == resume && IsCompleted(s, path)) || PlacedStep(steps[i], path, s))
         else FreshBelow(s, path)
  }

  lemma FreshDeeper(s: RunState, outer: Path, inner: Path)
    requires outer <= inner && FreshBelow(s, outer)
    ensures FreshBelow(s, inner)
  {
    forall q | IsPrefix(inner, q) ensures Fresh(s, q) {
      PrefixTransitive(outer, inner, q);
    }
  }

  lemma FreshScope(steps: seq<Step>, scope: Path, s: RunState, resume: Path)
    requires FreshBelow(s, scope) && |resume| <= |scope|
    ensures Entry(steps, 0, scope, s, resume, true)
  {
    forall j | 0 <= j < |steps| ensures FreshBelow(s, scope + [steps[j].name]) {
      FreshDeeper(s, scope, scope + [steps[j].name]);
    }
  }

  lemma PlacedEntry(steps: seq<Step>, scope: Path, s: RunState)
    requires PlacedScope(steps, scope, s)
    requires |s.currentPath| > |scope| ==> scope <= s.currentPath
    ensures var cp := s.currentPath;
      Entry(steps, if |cp| > |scope| then StartIndex(steps, cp[|scope|]) else 0, scope, s, cp, true)
  {
    if |s.currentPath| <= |scope| {
      FreshScope(steps, scope, s, s.currentPath);
    }
  }

  /** The step entered stands in place. */
  lemma EntryStep(steps: seq<Step>, i: nat, parent: Path, m: Machine, resume: Path, first: bool)
    requires i < |steps| && Entry(steps, i, parent, m.s, resume, first)
    requires var path := parent + [steps[i].name]; !(first && path == resume && IsCompleted(m.s, path))
    ensures var path := parent + [steps[i].name];
      var e := Enter(m, path, resume, first);
      PlacedStep(steps[i], path, e.s) && path <= e.s.currentPath
  {
    var path := parent + [steps[i].name];
    var e := Enter(m, path, resume, first);
    if first && path <= resume {
      assert e.s == m.s;
    } else {
      assert e.s.currentPath == path;
      forall q | IsPrefix(path, q) ensures Fresh(e.s, q) {
        assert Fresh(m.s, q);
      }
    }
  }

  /** Work at step i leaves the later steps of the scope fresh. */
  lemma EntryNext(env: Env, top: seq<Step>, steps: seq<Step>, i: nat, parent: Path, m: Machine, resume: Path, first: bool)
    requires i < |steps| && DistinctNames(steps) && m.data == m.s.data
    requires LaterFresh(steps, i + 1, parent, m.s)
    ensures var path := parent + [steps[i].name];
      var r := ExecStep(env, top, steps[i], path, Enter(m, path, resume, first));
      Entry(steps, i + 1, parent, r.m.s, resume, false)
  {
    var path := parent + [steps[i].name];
    var e := Enter(m, path, resume, first);
    var r := ExecStep(env, top, steps[i], path, e);
    forall j | i + 1 <= j < |steps| ensures FreshBelow(r.m.s, parent + [steps[j].name]) {
      var other := parent + [steps[j].name];
      forall q | IsPrefix(other, q) ensures Fresh(r.m.s, q) {
        Elsewhere(parent, steps[i].name, steps[j].name, q);
        StepLeaves(env, top, steps[i], path, e, q);
        assert Fresh(m.s, q);
      }
    }
  }

  lemma Elsewhere(parent: Path, a: string, b: string, q: Path)
    requires a != b && IsPrefix(parent + [b], q)
    ensures !IsPrefix(parent + [a], q)
  {
    Component(parent, b, q);
    assert (parent + [b])[|parent|] != (parent + [a])[|parent|];
  }

  /** A step leaves what is recorded elsewhere alone. */
  lemma StepLeaves(env: Env, top: seq<Step>, step: Step, path: Path, m: Machine, q: Path)
    requires path <= m.s.currentPath && m.data == m.s.data && !IsPrefix(path, q)
    ensures Kept(q, m.s, ExecStep(env, top, step, path, m).m.s)
  {
    BaseReached(q, path, m);
    StepReached(Base(q, path, m.s, m.log), env, top, step, path, m);
  }

  lemma LaterEntry(steps: seq<Step>, i: nat, parent: Path, s: RunState, resume: Path, first: bool)
    requires i < |steps| && Entry(steps, i, parent, s, resume, first)
    ensures LaterFresh(steps, i + 1, parent, s) && Entry(steps, i + 1, parent, s, resume, false)
  {
  }

  lemma FreshAt(step: Step, path: Path, s: RunState)
    requires PlacedStep(step, path, s) && |s.currentPath| <= |path|
    ensures FreshBelow(s, path)
  {
  }

  lemma DecidedEntry(steps: seq<Step>, path: Path, scope: Path, m: Machine, d: Machine)
    requires FreshBelow(m.s, path) && path < scope && d.s.currentPath == scope
    requires d.s.completedSteps == m.s.completedSteps + [CompletedStep(path, false)]
    requires d.s.repeatStates == m.s.repeatStates
    ensures Entry(steps, 0, scope, d.s, scope, true)
  {
    forall q | IsPrefix(scope, q) ensures Fresh(d.s, q) {
      PrefixTransitive(path, scope, q);
      assert Fresh(m.s, q);
      forall i | 0 <= i < |d.s.completedSteps| ensures d.s.completedSteps[i].path != q {
        assert i < |m.s.completedSteps| ==> d.s.completedSteps[i] == m.s.completedSteps[i];
      }
    }
    FreshScope(steps, scope, d.s, scope);
  }

  /** All recorded positions are the same, but for clocks that were started. */
  ghost predicate SamePlaces(s: RunState, s': RunState) {
    forall q :: RepeatAt(s', q) == RepeatAt(s, q).(startedAt := RepeatAt(s', q).startedAt)
  }

  lemma {:induction false} PlacedStarted(step: Step, path: Path, s: RunState, s': RunState)
    requires PlacedStep(step, path, s)
    requires s'.currentPath == s.currentPath && s'.completedSteps == s.completedSteps
    requires SamePlaces(s, s')
    ensures PlacedStep(step, path, s')
    decreases step, 0
  {
    FreshStarted(s, s', path);
    if |s.currentPath| > |path| {
      match step.kind
      case Action(_, _) =>
      case Poll(_) =>
      case Branch(paths) =>
        var f := FindKey(paths, s.currentPath[|path|]).value;
        PlacedScopeStarted(paths[f].steps, path + [paths[f].key], s, s');
      case Repeat(steps, _, _, _) =>
        var n := RepeatAt(s, path).iteration;
        assert RepeatAt(s', path).iteration == n;
        if !RepeatAt(s, path).awaitingCondition {
          PlacedScopeStarted(steps, path + [Itoa(n)], s, s');
        }
    }
  }

  lemma FreshSame(s: RunState, s': RunState)
    requires s'.completedSteps == s.completedSteps
    ensures forall q :: IsCompleted(s', q) == IsCompleted(s, q)
  {
  }

  lemma FreshStarted(s: RunState, s': RunState, path: Path)
    requires s'.completedSteps == s.completedSteps && SamePlaces(s, s')
    ensures FreshBelow(s, path) ==> FreshBelow(s', path)
  {
    FreshSame(s, s');
    forall q | FreshBelow(s, path) && IsPrefix(path, q) ensures Fresh(s', q) {
      assert Fresh(s, q);
    }
  }

  lemma {:induction false} PlacedScopeStarted(steps: seq<Step>, scope: Path, s: RunState, s': RunState)
    requires PlacedScope(steps, scope, s)
    requires s'.currentPath == s.currentPath && s'.completedSteps == s.completedSteps
    requires SamePlaces(s, s')
    ensures PlacedScope(steps, scope, s')
    decreases steps, 1
  {
    FreshSame(s, s');
    FreshStarted(s, s', scope);
    if |s.currentPath| > |scope| {
      var f := Find(steps, s.currentPath[|scope|]).value;
      var path := scope + [steps[f].name];
      forall j | f + 1 <= j < |steps| ensures FreshBelow(s', scope + [steps[j].name]) {
        FreshStarted(s, s', scope + [steps[j].name]);
      }
      if PlacedStep(steps[f], path, s) {
        PlacedStarted(steps[f], path, s, s');
      }
    }
  }

  /** A repeat in place runs the iteration it has recorded. */
  lemma PlacedIteration(step: Step, path: Path, s: RunState)
    requires PlacedStep(step, path, s) && step.kind.Repeat? && path <= s.currentPath
    ensures var rs := RepeatAt(s, path);
      CurrentIteration(s, path) == Some(rs.iteration) && Standing(step, path, s)
      && (|s.currentPath| <= |path| ==> Fresh(s, path))
  {
    AtoiItoa(RepeatAt(s, path).iteration);
    assert IsPrefix(path, path);
  }

  /** The recorded iteration of the repeat can be entered from s, in place. */
  ghost predicate Standing(step: Step, path: Path, s: RunState) {
    && step.kind.Repeat? && path <= s.currentPath
    && var rs := RepeatAt(s, path);
    && !rs.completed
    && if |s.currentPath| <= |path| then FreshBelow(s, path)
       else
         && s.currentPath[|path|] == Itoa(rs.iteration)
         && (rs.awaitingCondition || PlacedScope(step.kind.steps, path + [Itoa(rs.iteration)], s))
  }

  /** The same, and the repeat has time left. */
  ghost predicate Iterates(env: Env, step: Step, path: Path, m: Machine, rs: RepeatState) {
    && Standing(step, path, m.s) && rs == RepeatAt(m.s, path)
    && (step.kind.maxDuration <= 0 || rs.startedAt.Some?)
    && !TimedOutAt(step.kind.maxDuration, rs, env.now(m.log))
  }

  lemma IterationEntry(step: Step, path: Path, m: Machine, rs: RepeatState)
    requires Standing(step, path, m.s) && rs == RepeatAt(m.s, path) && !rs.awaitingCondition
    ensures var steps, scope := step.kind.steps, path + [Itoa(rs.iteration)];
      var e := WithRepeat(m, path, rs);
      Entry(steps, ChildIndex(steps, m.s, path), scope, e.s, e.s.currentPath, true)
  {
    var steps, scope := step.kind.steps, path + [Itoa(rs.iteration)];
    var e := WithRepeat(m, path, rs);
    assert SamePlaces(m.s, e.s);
    if |m.s.currentPath| <= |path| {
      FreshStarted(m.s, e.s, path);
      FreshDeeper(e.s, path, scope);
      FreshScope(steps, scope, e.s, e.s.currentPath);
    } else {
      assert m.s.currentPath[..|scope|] == scope;
      PlacedScopeStarted(steps, scope, m.s, e.s);
      PlacedEntry(steps, scope, e.s);
    }
  }

  lemma UntouchedFresh(ever: iset<Path>, s: RunState, q: Path)
    requires Untouched(ever, s, q) && Marks(s) <= ever
    ensures FreshBelow(s, q)
  {
    forall p | IsPrefix(q, p) ensures Fresh(s, p) {
      assert Marked(s, p) ==> p in Marks(s);
    }
  }

  lemma {:induction false} PosPlacedStep(ever: iset<Path>, step: Step, path: Path, s: RunState)
    requires StepPos(ever, step, path, s) && Marks(s) <= ever
    requires |s.currentPath| <= |path| ==> !IsCompleted(s, path)
    ensures PlacedStep(step, path, s)
    decreases step, 0
  {
    if |s.currentPath| <= |path| {
      forall q | IsPrefix(path, q) ensures Fresh(s, q) {
        assert Marked(s, q) ==> q in Marks(s);
      }
    } else {
      match step.kind
      case Action(_, _) =>
      case Poll(_) =>
      case Branch(paths) =>
        var k := FindKey(paths, s.currentPath[|path|]).value;
        PosPlacedChild(ever, paths[k].steps, path + [paths[k].key], s);
      case Repeat(steps, _, _, _) =>
        var n := s.repeatStates[path].iteration;
        if !s.repeatStates[path].awaitingCondition {
          PosPlacedChild(ever, steps, path + [Itoa(n)], s);
        }
    }
  }

  lemma {:induction false} PosPlacedChild(ever: iset<Path>, steps: seq<Step>, scope: Path, s: RunState)
    requires ChildPos(ever, steps, scope, s) && Marks(s) <= ever
    ensures PlacedScope(steps, scope, s)
    decreases steps, 2
  {
    if |s.currentPath| <= |scope| {
      UntouchedFresh(ever, s, scope);
    } else {
      PosPlacedScope(ever, steps, scope, s);
    }
  }

  lemma {:induction false} PosPlacedScope(ever: iset<Path>, steps: seq<Step>, scope: Path, s: RunState)
    requires ScopePos(ever, steps, scope, s) && Marks(s) <= ever
    ensures PlacedScope(steps, scope, s)
    decreases steps, 1
  {
    var f := Find(steps, s.currentPath[|scope|]).value;
    var path := scope + [steps[f].name];
    forall j | f + 1 <= j < |steps| ensures FreshBelow(s, scope + [steps[j].name]) {
      UntouchedFresh(ever, s, scope + [steps[j].name]);
    }
    if |s.currentPath| > |path| || !IsCompleted(s, path) {
      PosPlacedStep(ever, steps[f], path, s);
    }
  }

  lemma TopEntry(ever: iset<Path>, top: seq<Step>, s: RunState)
    requires TopPos(ever, top, s) && Marks(s) <= ever
    ensures Entry(top, StartOf(top, s), [], s, s.currentPath, true)
  {
    if s.currentPath == [] {
      forall j | 0 <= j < |top| ensures FreshBelow(s, [] + [top[j].name]) {
        UntouchedFresh(ever, s, [] + [top[j].name]);
      }
    } else {
      PosPlacedScope(ever, top, [], s);
      PlacedEntry(top, [], s);
    }
  }

  lemma StepEnds(env: Env, top: seq<Step>, step: Step, path: Path, m: Machine)
    requires path != [] && path <= m.s.currentPath && m.data == m.s.data
    ensures var r := ExecStep(env, top, step, path, m);
      && (r.err == NoError && r.m.s.status == Running ==> r.m.data == r.m.s.data)
      && (r.err.StepFailed? ==> |path| <= |r.err.path|)
  {
    BaseReached([], path, m);
    StepReached(Base([], path, m.s, m.log), env, top, step, path, m);
  }
}
