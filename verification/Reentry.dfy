/**
 * Going on from the state a cancelled run returned, rather than from the last one it saved. Both
 * go on alike exactly when the same call comes next - which is not what the program promises.
 */
module Reentry {
  import opened Options
  import opened Decimal
  import opened Definition
  import opened State
  import opened Executor
  import opened Frames
  import opened NextCalls
  import opened Lockstep
  import opened CutForward
  import opened FirstCalls

  // ---------- where calls belong ----------

  lemma {:induction false} OpeningBelow(step: Step, path: Path, s: RunState)
    ensures path <= Opening(step, path, s).path
    decreases step
  {
    if step.kind.Repeat? && step.kind.steps != [] {
      var child := path + [Itoa(RepeatAt(s, path).iteration)] + [step.kind.steps[0].name];
      OpeningBelow(step.kind.steps[0], child, s);
      PrefixTransitive(path, child, Opening(step.kind.steps[0], child, s).path);
    }
  }

  lemma OpeningAtBelow(steps: seq<Step>, i: nat, scope: Path, s: RunState)
    requires i < |steps|
    ensures scope + [steps[i].name] <= OpeningAt(steps, i, scope, s).value.path
  {
    OpeningBelow(steps[i], scope + [steps[i].name], s);
  }

  lemma {:induction false} NextOfStepBelow(step: Step, path: Path, s: RunState)
    ensures NextOfStep(step, path, s).Some? ==> path <= NextOfStep(step, path, s).value.path
    ensures step.kind.Branch? && |s.currentPath| > |path| && NextOfStep(step, path, s).Some? ==>
              path < NextOfStep(step, path, s).value.path
    decreases step, 0
  {
    OpeningBelow(step, path, s);
    if |s.currentPath| > |path| {
      match step.kind
      case Action(_, _) =>
      case Poll(_) =>
      case Branch(paths) =>
        var f := FindKey(paths, s.currentPath[|path|]);
        if f.Some? {
          NextOfScopeBelow(paths[f.value].steps, path + [paths[f.value].key], s);
          PartBelow(path, paths[f.value].key, NextOfStep(step, path, s));
        }
      case Repeat(steps, _, _, _) =>
        var n := RepeatAt(s, path).iteration;
        NextOfScopeBelow(steps, path + [Itoa(n)], s);
        PartBelow(path, Itoa(n), NextOfScope(steps, path + [Itoa(n)], s));
    }
  }

  lemma PartBelow(path: Path, part: string, call: Option<Call>)
    requires call.Some? ==> path + [part] < call.value.path
    ensures call.Some? ==> path < call.value.path
  {
    if call.Some? {
      PrefixTransitive(path, path + [part], call.value.path);
    }
  }

  /** The step of this scope a call belongs to. */
  lemma {:induction false} NextOfScopeBelow(steps: seq<Step>, scope: Path, s: RunState)
    ensures var c := NextOfScope(steps, scope, s);
      c.Some? ==> scope < c.value.path && exists i :: 0 <= i < |steps| && scope + [steps[i].name] <= c.value.path
    decreases steps, 1
  {
    var c := NextOfScope(steps, scope, s);
    if c.Some? {
      var i: nat;
      if |s.currentPath| <= |scope| {
        i := 0;
        OpeningAtBelow(steps, 0, scope, s);
      } else {
        var f := Find(steps, s.currentPath[|scope|]).value;
        NextOfStepBelow(steps[f], scope + [steps[f].name], s);
        if NextOfStep(steps[f], scope + [steps[f].name], s).Some? {
          i := f;
        } else {
          i := f + 1;
          OpeningAtBelow(steps, i, scope, s);
        }
      }
      assert scope + [steps[i].name] <= c.value.path;
      PrefixTransitive(scope, scope + [steps[i].name], c.value.path);
    }
  }

  lemma SameStep(steps: seq<Step>, i: nat, j: nat, scope: Path, path: Path)
    requires DistinctNames(steps) && i < |steps| && j < |steps|
    requires scope + [steps[i].name] <= path && scope + [steps[j].name] <= path
    ensures i == j
  {
    assert path[|scope|] == (scope + [steps[i].name])[|scope|];
    assert path[|scope|] == (scope + [steps[j].name])[|scope|];
  }

  // ---------- picking up inside a step ----------

  /** If one repeat waits in m alone, its condition is what comes next. */
  ghost predicate OffNext(p: Pair, m: Machine, call: Call) {
    p.off.Some? ==> call == Until(p.off.value, RepeatAt(m.s, p.off.value).iteration)
  }

  lemma SamePlace(p: Pair, top: seq<Step>, step: Step, path: Path, m: Machine, m': Machine)
    requires Steady(p.env) && StepInTime(p.env, step) && Twins(p, m, m') && p.off.None?
    requires m'.s.currentPath == m.s.currentPath
    ensures TwinResults(p, ExecStep(p.env, top, step, path, m), ExecStep(p.env, top, step, path, m'))
  {
    hide Paired, NearBut, SameShape, ExecStep;
    assert Twins(p.(placed := true), m, m');
    StepTwins(p.(placed := true), top, step, path, m, m');
    UnplaceTwins(p, ExecStep(p.env, top, step, path, m), ExecStep(p.env, top, step, path, m'));
  }

  /**
   * m enters the step afresh, m' where its path leads; the same call comes first. From then on they
   * do the same.
   */
  lemma {:induction false} ReenterStep(p: Pair, top: seq<Step>, step: Step, path: Path, m: Machine, m': Machine)
    requires Steady(p.env) && StepInTime(p.env, step) && ValidStep(step) && Twins(p, m, m') && !p.placed
    requires m.s.status == Running && m.s.currentPath == path
    requires path <= m'.s.currentPath && PositionedStep(step, path, m'.s)
    requires FirstOfStep(step, path, m'.s) == Some(Opening(step, path, m.s))
    requires OffNext(p, m, Opening(step, path, m.s))
    ensures TwinResults(p.(off := None), ExecStep(p.env, top, step, path, m), ExecStep(p.env, top, step, path, m'))
    decreases step, 1
  {
    hide Twins, ExecStep;
    if step.kind.Repeat? {
      ReenterRepeat(p, top, step, path, m, m');
    } else {
      NextOfStepBelow(step, path, m'.s);
      assert m'.s.currentPath == path;
      assert p.(off := None) == p;
      SamePlace(p, top, step, path, m, m');
    }
  }

  lemma {:induction false} ReenterRepeat(p: Pair, top: seq<Step>, step: Step, path: Path, m: Machine, m': Machine)
    requires Steady(p.env) && StepInTime(p.env, step) && ValidStep(step) && Twins(p, m, m') && !p.placed
    requires m.s.status == Running && m.s.currentPath == path && step.kind.Repeat?
    requires path <= m'.s.currentPath && PositionedStep(step, path, m'.s)
    requires FirstOfStep(step, path, m'.s) == Some(Opening(step, path, m.s))
    requires OffNext(p, m, Opening(step, path, m.s))
    ensures TwinResults(p.(off := None), ExecStep(p.env, top, step, path, m), ExecStep(p.env, top, step, path, m'))
    decreases step, 0, 1
  {
    hide Twins, EnsureStarted, FinishIteration, RunIteration, PositionedStep, Opening, NextOfStep, Clocked, Steady;
    var env, maxDuration := p.env, step.kind.maxDuration;
    TwinsClocked(p, m, m');
    StartTwins(p, m, m', maxDuration, path);
    StartCalls(env, maxDuration, path, m);
    StartCalls(env, maxDuration, path, m');
    var r, r' := EnsureStarted(env, maxDuration, path, m), EnsureStarted(env, maxDuration, path, m');
    TwinFields(p, r.m, r'.m);
    RepeatTwin(p, r.m, r'.m, path);
    NotTimedOut(env, maxDuration, RepeatAt(r.m.s, path), r.m.log);
    NotTimedOut(env, maxDuration, RepeatAt(r'.m.s, path), r'.m.log);
    var rs, rs' := RepeatAt(r.m.s, path).(completed := false), RepeatAt(r'.m.s, path).(completed := false);
    FirstSame(step, path, m.s, r.m.s);
    FirstSame(step, path, m'.s, r'.m.s);
    PositionedStepSame(step, path, m'.s, r'.m.s);
    PositionedIteration(step, path, r'.m.s);
    if rs.awaitingCondition {
      AwaitingFirst(step, path, r.m.s);
      ReenterWaiting(p, top, step, path, r.m, r'.m, rs, rs');
    } else {
      ReenterIteration(p, top, step, path, r.m, r'.m, rs, rs');
    }
  }

  lemma FirstSame(step: Step, path: Path, s: RunState, s': RunState)
    requires SameView(s, s') && s'.currentPath == s.currentPath
    ensures FirstOfStep(step, path, s') == FirstOfStep(step, path, s)
    ensures Opening(step, path, s') == Opening(step, path, s)
    ensures forall q :: RepeatAt(s', q).iteration == RepeatAt(s, q).iteration
  {
    StepSame(step, path, s, s');
    OpeningSame(step, path, s, s');
  }

  lemma PositionedIteration(step: Step, path: Path, s: RunState)
    requires PositionedStep(step, path, s) && step.kind.Repeat?
    ensures CurrentIteration(s, path) == Some(RepeatAt(s, path).iteration)
  {
    AtoiItoa(RepeatAt(s, path).iteration);
  }

  /** Machines that both ask the condition of the repeat next. */
  lemma AskTwins(p: Pair, step: Step, path: Path, m: Machine, m': Machine, rs: RepeatState, rs': RepeatState)
    requires Steady(p.env) && step.kind.Repeat? && Ample(p.env, step.kind.maxDuration) && Twins(p, m, m')
    requires p.off.Some? ==> p.off.value == path
    requires RecordTwin(rs, rs') && ClockedRecord(p.env, rs) && ClockedRecord(p.env, rs')
    ensures TwinResults(p.(off := None), FinishIteration(p.env, step, path, WithRepeat(m, path, rs), rs),
                        FinishIteration(p.env, step, path, WithRepeat(m', path, rs'), rs'))
  {
    hide Twins, FinishIteration;
    var q := p.(off := None);
    RecordTwins(p, m, m', path, rs, rs');
    if p.off.None? {
      assert q == p;
    }
    FinishTwins(q, WithRepeat(m, path, rs), WithRepeat(m', path, rs'), step, path, rs, rs');
  }

  /** m' has nothing left to call in its iteration: it asks the condition as well. */
  lemma AsksToo(env: Env, top: seq<Step>, step: Step, path: Path, m: Machine, rs: RepeatState)
    requires Steady(env) && StepInTime(env, step) && Clocked(env, m.s) && m.s.status == Running && step.kind.Repeat?
    requires PositionedStep(step, path, m.s) && path <= m.s.currentPath
    requires rs == RepeatAt(m.s, path).(completed := false) && !rs.awaitingCondition
    requires FirstOfStep(step, path, m.s) == Some(Until(path, rs.iteration))
    ensures var due := rs.(awaitingCondition := true);
      RunIteration(env, top, step, path, m, rs) == FinishIteration(env, step, path, WithRepeat(m, path, due), due)
  {
    hide Clocked, FinishIteration, ExecSteps, Steady, NextOfStep, NextOfScope, Opening;
    var steps, scope, cp := step.kind.steps, path + [Itoa(rs.iteration)], m.s.currentPath;
    var e, due := WithRepeat(m, path, rs), rs.(awaitingCondition := true);
    IterationFirst(step, path, m.s);
    NextOfScopeBelow(steps, scope, m.s);
    RecordView(env, m.s, path, rs);
    ScopeSame(steps, scope, m.s, e.s);
    PositionedStepSame(step, path, m.s, e.s);
    if |cp| > |path| {
      assert cp[..|scope|] == scope;
    }
    ScopeCalls(env, top, steps, ChildIndex(steps, m.s, path), scope, e);
    assert WithRepeat(e, path, due) == WithRepeat(m, path, due);
  }

  lemma ReenterWaiting(p: Pair, top: seq<Step>, step: Step, path: Path, m: Machine, m': Machine,
                       rs: RepeatState, rs': RepeatState)
    requires Steady(p.env) && StepInTime(p.env, step) && Twins(p, m, m') && step.kind.Repeat?
    requires m'.s.status == Running && path <= m'.s.currentPath && PositionedStep(step, path, m'.s)
    requires rs == RepeatAt(m.s, path).(completed := false) && rs' == RepeatAt(m'.s, path).(completed := false)
    requires rs.awaitingCondition
    requires FirstOfStep(step, path, m'.s) == Some(Until(path, rs.iteration))
    requires OffNext(p, m, Until(path, rs.iteration))
    ensures TwinResults(p.(off := None), FinishIteration(p.env, step, path, WithRepeat(m, path, rs), rs),
      if rs'.awaitingCondition then FinishIteration(p.env, step, path, WithRepeat(m', path, rs'), rs')
      else RunIteration(p.env, top, step, path, m', rs'))
  {
    hide Twins, FinishIteration, RunIteration, Clocked, PositionedStep, FirstOfStep, Steady, Ample;
    TwinsClocked(p, m, m');
    RepeatTwin(p, m, m', path);
    assert ClockedRecord(p.env, rs) && ClockedRecord(p.env, rs');
    if rs'.awaitingCondition {
      AskTwins(p, step, path, m, m', rs, rs');
    } else {
      var due := rs'.(awaitingCondition := true);
      AsksToo(p.env, top, step, path, m', rs');
      AskTwins(p, step, path, m, m', rs, due);
    }
  }

  lemma {:induction false} ReenterIteration(p: Pair, top: seq<Step>, step: Step, path: Path, m: Machine, m': Machine,
                                            rs: RepeatState, rs': RepeatState)
    requires Steady(p.env) && StepInTime(p.env, step) && ValidStep(step) && Twins(p, m, m') && !p.placed && step.kind.Repeat?
    requires m.s.status == Running && m.s.currentPath == path
    requires path <= m'.s.currentPath && PositionedStep(step, path, m'.s)
    requires rs == RepeatAt(m.s, path).(completed := false) && rs' == RepeatAt(m'.s, path).(completed := false)
    requires !rs.awaitingCondition && FirstOfStep(step, path, m'.s) == Some(Opening(step, path, m.s))
    requires OffNext(p, m, Opening(step, path, m.s))
    ensures TwinResults(p.(off := None), RunIteration(p.env, top, step, path, m, rs),
      if rs'.awaitingCondition then FinishIteration(p.env, step, path, WithRepeat(m', path, rs'), rs')
      else RunIteration(p.env, top, step, path, m', rs'))
    decreases step, 0, 0
  {
    hide Twins, FinishIteration, RunIteration, Clocked, Steady, Ample;
    TwinsClocked(p, m, m');
    RepeatTwin(p, m, m', path);
    TwinFields(p, m, m');
    assert ClockedRecord(p.env, rs) && ClockedRecord(p.env, rs') && RecordTwin(rs, rs');
    if step.kind.steps == [] {
      var due, due' := rs.(awaitingCondition := true), rs'.(awaitingCondition := true);
      AsksToo(p.env, top, step, path, m, rs);
      AsksToo(p.env, top, step, path, m', rs');
      AskTwins(p, step, path, m, m', due, due');
    } else {
      ReenterChildren(p, top, step, path, m, m', rs, rs');
    }
  }

  /** The call that comes first belongs to the first child: m' stands there too. */
  lemma FirstChild(steps: seq<Step>, scope: Path, s: RunState, call: Call)
    requires steps != [] && DistinctNames(steps) && NextOfScope(steps, scope, s) == Some(call)
    requires PositionedScope(steps, scope, s) && (|s.currentPath| <= |scope| ==> s.currentPath <= scope)
    requires scope + [steps[0].name] <= call.path
    ensures |s.currentPath| > |scope| ==> StartIndex(steps, s.currentPath[|scope|]) == 0
    ensures var path := scope + [steps[0].name];
      var at := if path <= s.currentPath then s.currentPath else path;
      && !(s.currentPath == path && IsCompleted(s, path))
      && PositionedStep(steps[0], path, s.(currentPath := at))
      && FirstOfStep(steps[0], path, s.(currentPath := at)) == Some(call)
  {
    hide PositionedStep, NextOfStep, Opening, FirstOfStep, IsCompleted;
    var path := scope + [steps[0].name];
    var at := if path <= s.currentPath then s.currentPath else path;
    if |s.currentPath| > |scope| {
      LeadsToFirst(steps, scope, s, call);
      assert s.currentPath[..|scope| + 1] == path;
      assert s.(currentPath := at) == s;
      LeadFirst(steps[0], path, s);
    } else {
      FreshFirst(steps[0], path, s);
    }
  }

  lemma LeadsToFirst(steps: seq<Step>, scope: Path, s: RunState, call: Call)
    requires steps != [] && DistinctNames(steps) && NextOfScope(steps, scope, s) == Some(call)
    requires |s.currentPath| > |scope| && PositionedScope(steps, scope, s) && scope + [steps[0].name] <= call.path
    ensures Find(steps, s.currentPath[|scope|]) == Some(0) && NextOfStep(steps[0], scope + [steps[0].name], s) == Some(call)
    ensures PositionedStep(steps[0], scope + [steps[0].name], s)
  {
    hide PositionedStep, NextOfStep, Opening;
    var f := Find(steps, s.currentPath[|scope|]).value;
    NextOfStepBelow(steps[f], scope + [steps[f].name], s);
    if NextOfStep(steps[f], scope + [steps[f].name], s).Some? {
      SameStep(steps, 0, f, scope, call.path);
    } else {
      OpeningAtBelow(steps, f + 1, scope, s);
      SameStep(steps, 0, f + 1, scope, call.path);
    }
  }

  lemma LeadFirst(step: Step, path: Path, s: RunState)
    requires path <= s.currentPath && NextOfStep(step, path, s).Some?
    ensures !(s.currentPath == path && IsCompleted(s, path)) && FirstOfStep(step, path, s) == NextOfStep(step, path, s)
  {
  }

  lemma FreshFirst(step: Step, path: Path, s: RunState)
    ensures var t := s.(currentPath := path);
      PositionedStep(step, path, t) && FirstOfStep(step, path, t) == Some(Opening(step, path, s))
  {
    var t := s.(currentPath := path);
    assert forall q :: RepeatAt(t, q) == RepeatAt(s, q) && IsCompleted(t, q) == IsCompleted(s, q);
    OpeningSame(step, path, s, t);
  }

  lemma {:induction false} ReenterChildren(p: Pair, top: seq<Step>, step: Step, path: Path, m: Machine, m': Machine,
                                           rs: RepeatState, rs': RepeatState)
    requires Steady(p.env) && StepInTime(p.env, step) && ValidStep(step) && Twins(p, m, m') && !p.placed
    requires step.kind.Repeat? && step.kind.steps != []
    requires m.s.status == Running && m.s.currentPath == path
    requires path <= m'.s.currentPath && PositionedStep(step, path, m'.s)
    requires rs == RepeatAt(m.s, path) .(completed := false) && rs' == RepeatAt(m'.s, path).(completed := false)
    requires !rs.awaitingCondition && RecordTwin(rs, rs') && ClockedRecord(p.env, rs) && ClockedRecord(p.env, rs')
    requires FirstOfStep(step, path, m'.s) == Some(Opening(step, path, m.s)) && OffNext(p, m, Opening(step, path, m.s))
    ensures TwinResults(p.(off := None), RunIteration(p.env, top, step, path, m, rs),
                        RunIteration(p.env, top, step, path, m', rs'))
    decreases step, 0, 0, 0
  {
    hide Twins, FinishIteration, Clocked, Steady, Ample, ExecSteps, PositionedStep, NextOfStep, NextOfScope, StepInTime;
    var steps, scope := step.kind.steps, path + [Itoa(rs.iteration)];
    var e, e' := WithRepeat(m, path, rs), WithRepeat(m', path, rs');
    RecordTwins(p, m, m', path, rs, rs');
    ChildScopes(p, top, step, path, m, m', rs, rs');
    var c, c' := ExecScope(p.env, top, steps, 0, scope, e),
                 ExecScope(p.env, top, steps, ChildIndex(steps, m'.s, path), scope, e');
    var q := p.(off := None);
    TwinFields(q, c.m, c'.m);
    if c.err == NoError && c.m.s.status == Running {
      var due, due' := rs.(awaitingCondition := true), rs'.(awaitingCondition := true);
      assert ClockedRecord(p.env, due) && ClockedRecord(p.env, due');
      assert Ample(p.env, step.kind.maxDuration) by { RepeatAmple(p.env, step); }
      AskTwins(q, step, path, c.m, c'.m, due, due');
    }
  }

  lemma RepeatAmple(env: Env, step: Step)
    requires StepInTime(env, step) && step.kind.Repeat?
    ensures Ample(env, step.kind.maxDuration) && InTime(env, step.kind.steps)
  {
  }

  /** The children of the iteration, entered afresh by m and where its path leads by m'. */
  lemma {:induction false} ChildScopes(p: Pair, top: seq<Step>, step: Step, path: Path, m: Machine, m': Machine,
                                       rs: RepeatState, rs': RepeatState)
    requires Steady(p.env) && StepInTime(p.env, step) && ValidStep(step) && !p.placed
    requires step.kind.Repeat? && step.kind.steps != []
    requires Twins(p, m, m') && Twins(p, WithRepeat(m, path, rs), WithRepeat(m', path, rs'))
    requires m.s.status == Running && m.s.currentPath == path
    requires path <= m'.s.currentPath && PositionedStep(step, path, m'.s)
    requires rs == RepeatAt(m.s, path).(completed := false) && rs' == RepeatAt(m'.s, path).(completed := false)
    requires !rs.awaitingCondition && RecordTwin(rs, rs')
    requires FirstOfStep(step, path, m'.s) == Some(Opening(step, path, m.s)) && OffNext(p, m, Opening(step, path, m.s))
    ensures var steps, scope := step.kind.steps, path + [Itoa(rs.iteration)];
      TwinResults(p.(off := None), ExecScope(p.env, top, steps, 0, scope, WithRepeat(m, path, rs)),
                  ExecScope(p.env, top, steps, ChildIndex(steps, m'.s, path), scope, WithRepeat(m', path, rs')))
    decreases step, 0, 0, 0, 0
  {
    hide Twins, Clocked, Steady, Ample, ExecSteps, ExecStep, NextOfStep, NextOfScope, Opening, StepInTime, Rest,
         PositionedStep, PositionedScope, FirstOfStep, OffNext, Enter;
    var steps, scope := step.kind.steps, path + [Itoa(rs.iteration)];
    var e, e' := WithRepeat(m, path, rs), WithRepeat(m', path, rs');
    var child, cp' := scope + [steps[0].name], m'.s.currentPath;
    var e0, e0' := Enter(e, child, path, true), Enter(e', child, cp', true);
    ChildEntered(p, step, path, m, m', rs, rs');
    RepeatAmple(p.env, step);
    assert StepInTime(p.env, steps[0]) && ValidStep(steps[0]);
    ReenterStep(p, top, steps[0], child, e0, e0');
    EntersStep(p.env, top, steps, 0, scope, e, path, true);
    EntersStep(p.env, top, steps, 0, scope, e', cp', true);
    RestTwins(p.(off := None), top, steps, 0, scope, ExecStep(p.env, top, steps[0], child, e0),
              ExecStep(p.env, top, steps[0], child, e0'), path, cp');
  }

  lemma ChildEntered(p: Pair, step: Step, path: Path, m: Machine, m': Machine, rs: RepeatState, rs': RepeatState)
    requires ValidStep(step) && !p.placed && step.kind.Repeat? && step.kind.steps != []
    requires Twins(p, m, m') && Twins(p, WithRepeat(m, path, rs), WithRepeat(m', path, rs'))
    requires m.s.status == Running && m.s.currentPath == path
    requires path <= m'.s.currentPath && PositionedStep(step, path, m'.s)
    requires rs == RepeatAt(m.s, path).(completed := false) && rs' == RepeatAt(m'.s, path).(completed := false)
    requires !rs.awaitingCondition && RecordTwin(rs, rs')
    requires FirstOfStep(step, path, m'.s) == Some(Opening(step, path, m.s)) && OffNext(p, m, Opening(step, path, m.s))
    ensures var steps, scope := step.kind.steps, path + [Itoa(rs.iteration)];
      var e, e' := WithRepeat(m, path, rs), WithRepeat(m', path, rs');
      var child, cp' := scope + [steps[0].name], m'.s.currentPath;
      var e0, e0' := Enter(e, child, path, true), Enter(e', child, cp', true);
      && Twins(p, e0, e0') && e0.s.status == Running && e0.s.currentPath == child && child <= e0'.s.currentPath
      && PositionedStep(steps[0], child, e0'.s)
      && FirstOfStep(steps[0], child, e0'.s) == Some(Opening(steps[0], child, e0.s))
      && OffNext(p, e0, Opening(steps[0], child, e0.s))
      && ChildIndex(steps, m'.s, path) == 0 && !(child == cp' && IsCompleted(e'.s, child)) && child != path
  {
    hide Twins, Clocked, NextOfStep, NextOfScope, PositionedStep, FirstOfStep, Opening;
    var steps, scope := step.kind.steps, path + [Itoa(rs.iteration)];
    var e, e' := WithRepeat(m, path, rs), WithRepeat(m', path, rs');
    var child, call, cp' := scope + [steps[0].name], Opening(step, path, m.s), m'.s.currentPath;
    var e0, e0' := Enter(e, child, path, true), Enter(e', child, cp', true);
    TwinsClocked(p, m, m');
    RecordView(p.env, m.s, path, rs);
    RecordView(p.env, m'.s, path, rs');
    ChildFirst(step, path, m.s, m'.s, e.s, e'.s, call);
    FirstChild(steps, scope, e'.s, call);
    assert e0'.s == e'.s.(currentPath := if child <= cp' then cp' else child);
    ApartTwins(p, e, e', e0.s.currentPath, e0'.s.currentPath);
    OpenedSame(steps[0], child, e.s, e0.s);
  }

  /** Where the paths do not matter, each may move its own way. */
  lemma ApartTwins(p: Pair, m: Machine, m': Machine, at: Path, at': Path)
    requires Twins(p, m, m') && !p.placed
    ensures Twins(p, m.(s := m.s.(currentPath := at)), m'.(s := m'.s.(currentPath := at')))
  {
    hide Twins;
    TwinFields(p, m, m');
    MoveTwins(p, m, m', m.s.(currentPath := at), m'.s.(currentPath := at'));
  }

  lemma OpenedSame(step: Step, path: Path, s: RunState, t: RunState)
    requires t == s.(currentPath := t.currentPath)
    ensures Opening(step, path, t) == Opening(step, path, s)
  {
    assert forall q :: RepeatAt(t, q) == RepeatAt(s, q) && IsCompleted(t, q) == IsCompleted(s, q);
    OpeningSame(step, path, s, t);
  }

  /** In both the call that comes first is that of the first child. */
  lemma ChildFirst(step: Step, path: Path, s: RunState, s': RunState, t: RunState, t': RunState, call: Call)
    requires step.kind.Repeat? && step.kind.steps != [] && PositionedStep(step, path, s') && path <= s'.currentPath
    requires !RepeatAt(s, path).awaitingCondition && !RepeatAt(s', path).awaitingCondition
    requires RepeatAt(s', path).iteration == RepeatAt(s, path).iteration
    requires SameView(s, t) && SameView(s', t') && t'.currentPath == s'.currentPath && t.currentPath == s.currentPath
    requires call == Opening(step, path, s) && FirstOfStep(step, path, s') == Some(call)
    ensures var steps, scope := step.kind.steps, path + [Itoa(RepeatAt(s, path).iteration)];
      && call == Opening(steps[0], scope + [steps[0].name], t) && scope + [steps[0].name] <= call.path
      && NextOfScope(steps, scope, t') == Some(call)
      && PositionedScope(steps, scope, t') && (|t'.currentPath| <= |scope| ==> t'.currentPath <= scope)
  {
    var steps, scope := step.kind.steps, path + [Itoa(RepeatAt(s, path).iteration)];
    OpeningSame(steps[0], scope + [steps[0].name], s, t);
    OpeningBelow(steps[0], scope + [steps[0].name], t);
    IterationFirst(step, path, s');
    ScopeSame(steps, scope, s', t');
    if |s'.currentPath| > |path| {
      assert s'.currentPath[..|scope|] == scope;
      PositionedScopeSame(steps, scope, s', t');
    }
  }
}
