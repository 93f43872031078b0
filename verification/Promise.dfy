/**
 * When a run started from the state that a cancelled run returned does continue from the interrupted
 * step, and when it does not.
 */
module Promise {
  import opened Options
  import opened Decimal
  import opened Definition
  import opened State
  import opened Executor
  import opened Journal
  import opened Frames
  import opened Footprint
  import opened Scopes
  import opened Runs
  import opened Guarantees
  import opened Places
  import opened Records
  import opened Courses
  import opened Lifecycle
  import opened NextCalls
  import opened Lockstep
  import opened CutRollback
  import opened FirstCalls
  import opened Resume
  import opened Reentry
  import opened Returned

  // ---------- where the saved state stands ----------

  /** The saved state stands at or below the step at path, or that step is what it enters next. */
  ghost predicate Reaches(top: seq<Step>, step: Step, path: Path, d: RunState) {
    path <= d.currentPath || (NextCall(top, d) == Some(Opening(step, path, d)) && !IsCompleted(d, path))
  }

  /** Before step i is executed from here. */
  lemma BeforeStep(c: Course, i: nat, m: Machine, resume: Path, first: bool)
    requires AtScope(c, c.top, i, [], m, resume, first) && i < |c.top|
    requires Leading(c.top, i, [], resume, first) ==> Durable(m.log).currentPath == m.s.currentPath
    ensures Reaches(c.top, c.top[i], Top(c.top[i]), Durable(m.log))
  {
    hide Chronicle, Sound, Linked, NextCall, Opening, ScopeLifts, Around, Located, Halfway;
    var d, path := Durable(m.log), Top(c.top[i]);
    if !Leading(c.top, i, [], resume, first) {
      UnmovedHalfway(c.top, d, m.s);
      assert IsPrefix(path, path) && Fresh(m.s, path);
      OpeningSame(c.top[i], path, d, m.s);
      assert Opening(c.top[i], path, d) == Opening(c.top[i], path, m.s);
    }
  }

  /** While a step is executed: what it saved stands at or below it. */
  lemma DuringStep(c: Course, step: Step, path: Path, m: Machine)
    requires path != [] && path <= m.s.currentPath && m.data == m.s.data && Reaches(c.top, step, path, Durable(m.log))
    requires Durable(ExecStep(c.env, c.top, step, path, m).m.log).status == Running
    ensures Reaches(c.top, step, path, Durable(ExecStep(c.env, c.top, step, path, m).m.log))
  {
    hide NextCall, Opening, ExecStep;
    var r := ExecStep(c.env, c.top, step, path, m);
    StepGrows(c.env, c.top, step, path, m);
    BaseReached([], path, m);
    StepReached(Base([], path, m.s, m.log), c.env, c.top, step, path, m);
    LastSaved(r.m.log, |m.log|);
    assert r.m.log[..|m.log|] == m.log;
  }

  /** Whichever step the run was cancelled at, the saved state reaches it. */
  lemma {:induction false} CancelSite(c: Course, i: nat, m: Machine, resume: Path, first: bool, j: nat)
    requires AtScope(c, c.top, i, [], m, resume, first) && j < |c.top|
    requires Leading(c.top, i, [], resume, first) ==> Durable(m.log).currentPath == m.s.currentPath
    requires var r := ExecSteps(c.env, c.top, c.top, i, [], m, resume, first);
      && r.err == Cancelled && r.m.s.status == Running && Durable(r.m.log).status == Running
      && r.m.s.currentPath == Top(c.top[j])
    ensures var r := ExecSteps(c.env, c.top, c.top, i, [], m, resume, first);
      Reaches(c.top, c.top[j], Top(c.top[j]), Durable(r.m.log))
    decreases |c.top| - i
  {
    hide Chronicle, Sound, Linked, Unmoved, Tracks, Remembers, PlacedStep, Entry, Leads, Around, Located, StepLocated, ScopeLifts,
         StepLifts, ExecStep, EnterCompensation, Reaches, Inside;
    ScopeTurn(c.env, c.top, c.top, i, [], m, resume, first);
    var path := Top(c.top[i]);
    LaterEntry(c.top, i, [], m.s, resume, first);
    if first && path == resume && IsCompleted(m.s, path) {
      SkipLeads(c, c.top, i, [], m, resume);
      CancelSite(c, i + 1, m, resume, false, j);
    } else if c.env.cancelled(m.log) {
      SameName(c.top, i, j);
      BeforeStep(c, i, m, resume, first);
    } else {
      var e := Enter(m, path, resume, first);
      var r := ExecStep(c.env, c.top, c.top[i], path, e);
      EntersAt(c, c.top, i, [], m, resume, first);
      if r.err == NoError {
        StepEndsAt(c, c.top[i], path, e);
        NextAtScope(c, c.top, i, [], m, resume, first);
        CancelSite(c, i + 1, r.m, resume, false, j);
      } else {
        RollbackLeaves(c.env, c.top, r.m, path, if r.err.StepFailed? then r.err.cause else Plain, r.err);
        SameName(c.top, i, j);
        BeforeStep(c, i, m, resume, first);
        DuringStep(c, c.top[i], path, e);
      }
    }
  }

  lemma SameName(top: seq<Step>, i: nat, j: nat)
    requires DistinctNames(top) && i < |top| && j < |top|
    ensures Top(top[i]) == Top(top[j]) ==> i == j
  {
    assert Top(top[i])[0] == top[i].name && Top(top[j])[0] == top[j].name;
  }

  /** The step whose path a cancelled run returned: the last saved state reaches it. */
  lemma ReturnedReaches(env: Env, top: seq<Step>, log: Log, j: nat)
    requires History(env, top, log) && Loadable(Durable(log)) && j < |top|
    requires var r := Run(env, top, Durable(log), log);
      && r.err == Cancelled && r.m.s.status == Running && !Dropped(top, r.m.log)
      && r.m.s.currentPath == Top(top[j]) && r.m.log != log
    ensures Reaches(top, top[j], Top(top[j]), Durable(Run(env, top, Durable(log), log).m.log))
  {
    hide LogGood, Valid, Sound, Chronicle, AtScope, SnapshotData, ExecSteps, Halfway, Reaches, Clocked, CompensateFrom;
    var c, d := Course(env, top, |log|), Durable(log);
    HistoryIsGood(env, top, log);
    HistoryIsSound(env, top, log);
    RunCourse(env, top, log);
    var r := Run(env, top, d, log);
    if !d.IsTerminal() && !env.cancelled(log) {
      if d.status == Compensating {
        BackwardStays(env, top, d, log);
      } else {
        StartAtScope(env, top, log);
        RunGoing(env, top, d, log);
        HalfwayRunning(top, Durable(r.m.log), r.m.s);
        var m := SnapshotData(env, Machine(d.(status := Running), d.data, log)).m;
        GoingCancelled(env, top, m);
        CancelSite(c, StartOf(top, m.s), m, m.s.currentPath, true, j);
      }
    }
  }

  lemma GoingCancelled(env: Env, top: seq<Step>, m: Machine)
    requires Going(env, top, m).err == Cancelled
    ensures Going(env, top, m) == ExecScope(env, top, top, StartOf(top, m.s), [], m)
  {
    hide ExecSteps;
  }

  lemma HalfwayRunning(top: seq<Step>, d: RunState, s: RunState)
    requires Halfway(top, d, s) && s.status == Running
    ensures d.status == Running
  {
  }

  // ---------- when the same call comes next ----------

  /** The opening call of a step is the same from s and d, if what sets them apart comes to it. */
  lemma {:induction false} OpeningOff(top: seq<Step>, step: Step, path: Path, d: RunState, s: RunState, q: Path)
    requires OffBy(top, d, s, q)
    requires RepeatAt(s, q) != RepeatAt(d, q) ==> Opening(step, path, d) == Until(q, RepeatAt(d, q).iteration)
    ensures Opening(step, path, s) == Opening(step, path, d)
    decreases step
  {
    hide NextCall;
    if step.kind.Repeat? && step.kind.steps != [] && !RepeatAt(s, path).awaitingCondition {
      var child := path + [Itoa(RepeatAt(d, path).iteration)] + [step.kind.steps[0].name];
      OpeningOff(top, step.kind.steps[0], child, d, s, q);
    }
  }

  /**
   * The saved state has not got inside the interrupted step; or that is a repeat which waits for its
   * condition, or has only just begun its iteration.
   */
  predicate Undisturbed(step: Step, path: Path, s: RunState, d: RunState) {
    || !(path < d.currentPath)
    || (&& step.kind.Repeat? && !IsCompleted(s, path)
        && (RepeatAt(s, path).awaitingCondition || |d.currentPath| == |path| + 1))
  }

  /** Inside a repeat: it asks its condition, or begins with its first child. */
  lemma InsideNext(top: seq<Step>, step: Step, path: Path, d: RunState, s: RunState, q: Path)
    requires OffBy(top, d, s, q) && step.kind.Repeat? && s.currentPath == path && path < d.currentPath
    requires Undisturbed(step, path, s, d) && NextCall(top, d) == NextOfStep(step, path, d)
    ensures NextOfStep(step, path, s) == NextOfStep(step, path, d)
  {
    hide NextCall;
    if !RepeatAt(s, path).awaitingCondition {
      assert RepeatAt(d, path) == RepeatAt(s, path);
      assert NextOfStep(step, path, d) == Some(Opening(step, path, d));
      OpeningOff(top, step, path, d, s, q);
    }
  }

  lemma StandsAt(top: seq<Step>, j: nat, s: RunState)
    requires DistinctNames(top) && j < |top| && Top(top[j]) <= s.currentPath
    ensures Find(top, s.currentPath[0]) == Some(j)
    ensures var path := Top(top[j]); var inside := NextOfStep(top[j], path, s);
      NextCall(top, s) == if inside.Some? then inside else OpeningAt(top, j + 1, [], s)
  {
    hide NextOfStep, Opening;
    assert s.currentPath[0] == Top(top[j])[0];
    FindSelf(top, j);
  }

  lemma OpeningAtOff(top: seq<Step>, i: nat, d: RunState, s: RunState, q: Path)
    requires OffBy(top, d, s, q)
    requires RepeatAt(s, q) != RepeatAt(d, q) ==> OpeningAt(top, i, [], d) == Some(Until(q, RepeatAt(d, q).iteration))
    ensures OpeningAt(top, i, [], s) == OpeningAt(top, i, [], d)
  {
    if i < |top| {
      OpeningOff(top, top[i], [] + [top[i].name], d, s, q);
    }
  }

  /** Then the same call comes next. */
  lemma UndisturbedNext(top: seq<Step>, j: nat, d: RunState, s: RunState)
    requires DistinctNames(top) && j < |top| && Halfway(top, d, s) && PositionedScope(top, [], d)
    requires s.currentPath == Top(top[j]) && Reaches(top, top[j], Top(top[j]), d)
    requires Undisturbed(top[j], Top(top[j]), s, d)
    ensures NextCall(top, s) == NextCall(top, d)
  {
    hide NextCall, Opening;
    var step, path := top[j], Top(top[j]);
    var q :| OffBy(top, d, s, q);
    assert IsCompleted(s, path) == IsCompleted(d, path);
    StandsAt(top, j, s);
    if path <= d.currentPath {
      StandsAt(top, j, d);
      if path < d.currentPath {
        InsideNext(top, step, path, d, s, q);
      } else if IsCompleted(d, path) {
        OpeningAtOff(top, j + 1, d, s, q);
      } else {
        OpeningOff(top, step, path, d, s, q);
      }
    } else {
      OpeningOff(top, step, path, d, s, q);
    }
  }

  /** The saved state never stands inside an action or a poll. */
  lemma LeafUndisturbed(top: seq<Step>, j: nat, d: RunState, s: RunState)
    requires DistinctNames(top) && j < |top| && PositionedScope(top, [], d)
    requires top[j].kind.Action? || top[j].kind.Poll?
    ensures Undisturbed(top[j], Top(top[j]), s, d)
  {
    if Top(top[j]) < d.currentPath {
      StandsAt(top, j, d);
    }
  }

  /**
   * Where the promise holds. Let a run be cancelled in, or before, a step of the top level. Starting
   * from the returned state continues like starting from the saved one if the step is an action or a
   * poll, or a branch or repeat that the saved state has not got inside of, or a repeat that waits
   * for its condition or has done nothing of its iteration yet.
   */
  lemma PromiseKept(env: Env, top: seq<Step>, log: Log, r: Result, j: nat, env': Env, log1: Log, log2: Log)
    requires History(env, top, log) && Loadable(Durable(log)) && r == Run(env, top, Durable(log), log)
    requires r.err == Cancelled && r.m.s.status == Running && !Dropped(top, r.m.log) && r.m.log != log
    requires j < |top| && r.m.s.currentPath == [top[j].name]
    requires top[j].kind.Action? || top[j].kind.Poll? || Undisturbed(top[j], [top[j].name], r.m.s, Durable(r.m.log))
    requires Steady(env') && InTime(env', top) && SameClock(env, env')
    ensures Alike(env', top, r.m.s, log1, Durable(r.m.log).(data := r.m.s.data), log2)
  {
    hide Run, LogGood, Sound, Chronicle, Halfway, Clocked, NextCall, PositionedScope, Steady, InTime, Reaches, Undisturbed, Alike;
    HistoryIsGood(env, top, log);
    HistoryIsSound(env, top, log);
    RunGood(env, top, log);
    RunCourse(env, top, log);
    var s, d := r.m.s, Durable(r.m.log);
    assert Top(top[j]) == [top[j].name];
    ReturnedReaches(env, top, log, j);
    HalfwayRunning(top, d, s);
    DurablePositioned(top, r.m.log);
    if top[j].kind.Action? || top[j].kind.Poll? {
      LeafUndisturbed(top, j, d, s);
    }
    UndisturbedNext(top, j, d, s);
    DataNext(top, d, d.(data := s.data));
    CancelledAlike(env, top, log, r, env', log1, log2);
  }

  lemma DataNext(top: seq<Step>, d: RunState, d': RunState)
    requires d' == d.(data := d'.data)
    ensures NextCall(top, d') == NextCall(top, d)
  {
    assert forall q :: RepeatAt(d', q) == RepeatAt(d, q) && IsCompleted(d', q) == IsCompleted(d, q);
    NextSame(top, d, d');
  }

  /**
   * Where it fails: interrupted inside a branch with something left to call there, the run started
   * from the returned state never calls it - it passes over the branch, or decides it again.
   */
  lemma BranchLost(env: Env, top: seq<Step>, log: Log, r: Result, j: nat, env': Env, log1: Log, log2: Log)
    requires History(env, top, log) && Loadable(Durable(log)) && r == Run(env, top, Durable(log), log)
    requires r.err == Cancelled && r.m.s.status == Running && !Dropped(top, r.m.log)
    requires j < |top| && r.m.s.currentPath == [top[j].name] && top[j].kind.Branch?
    requires var d := Durable(r.m.log);
      [top[j].name] < d.currentPath && NextOfStep(top[j], [top[j].name], d).Some?
    requires Steady(env') && InTime(env', top) && SameClock(env, env')
    ensures !Alike(env', top, r.m.s, log1, Durable(r.m.log).(data := r.m.s.data), log2)
  {
    hide Run, NextOfStep, Opening, Alike, Steady, InTime, LogGood, Sound;
    HistoryIsSound(env, top, log);
    var s, d := r.m.s, Durable(r.m.log);
    var path := Top(top[j]);
    assert path == [top[j].name];
    StandsAt(top, j, s);
    StandsAt(top, j, d);
    NextOfStepBelow(top[j], path, d);
    BranchNext(top[j], path, s);
    if j + 1 < |top| {
      OpeningAtBelow(top, j + 1, [], s);
      if path <= OpeningAt(top, j + 1, [], s).value.path {
        SameStep(top, j, j + 1, [], OpeningAt(top, j + 1, [], s).value.path);
      }
    }
    PrefixTransitive(path, path, NextCall(top, d).value.path);
    DataNext(top, d, d.(data := s.data));
    CancelledAlike(env, top, log, r, env', log1, log2);
  }

  lemma BranchNext(step: Step, path: Path, s: RunState)
    requires step.kind.Branch? && s.currentPath == path
    ensures NextOfStep(step, path, s) == None || NextOfStep(step, path, s) == Some(Decide(path))
  {
  }
}
