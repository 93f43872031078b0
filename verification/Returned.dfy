/**
 * A run that was cancelled returns a state the caller may keep and start from, instead of the last
 * one that was saved. What follows is the same if and only if the same call comes next in both.
 */
module Returned {
  import opened Options
  import opened Decimal
  import opened Definition
  import opened State
  import opened Executor
  import opened Journal
  import opened Frames
  import opened Footprint
  import opened Runs
  import opened Guarantees
  import opened Places
  import opened Records
  import opened Courses
  import opened Lifecycle
  import opened NextCalls
  import opened Lockstep
  import opened CutRollback
  import opened CutForward
  import opened FirstCalls
  import opened Resume
  import opened Reentry

  // ---------- arriving at the next call ----------

  lemma {:induction false} PlacedPositioned(steps: seq<Step>, scope: Path, s: RunState)
    requires PlacedScope(steps, scope, s) && (|s.currentPath| > |scope| ==> scope <= s.currentPath)
    ensures PositionedScope(steps, scope, s)
    decreases steps, 1
  {
    if |s.currentPath| > |scope| {
      var f := Find(steps, s.currentPath[|scope|]).value;
      assert s.currentPath[..|scope| + 1] == scope + [steps[f].name];
      if |s.currentPath| > |scope| + 1 {
        PlacedStepPositioned(steps[f], scope + [steps[f].name], s);
      }
    }
  }

  lemma {:induction false} PlacedStepPositioned(step: Step, path: Path, s: RunState)
    requires PlacedStep(step, path, s) && path <= s.currentPath
    ensures PositionedStep(step, path, s)
    decreases step, 0
  {
    if |s.currentPath| > |path| {
      match step.kind
      case Action(_, _) =>
      case Poll(_) =>
      case Branch(paths) =>
        var k := FindKey(paths, s.currentPath[|path|]).value;
        assert s.currentPath[..|path| + 1] == path + [paths[k].key];
        PlacedPositioned(paths[k].steps, path + [paths[k].key], s);
      case Repeat(steps, _, _, _) =>
        var n := RepeatAt(s, path).iteration;
        assert s.currentPath[..|path| + 1] == path + [Itoa(n)];
        if !RepeatAt(s, path).awaitingCondition {
          PlacedPositioned(steps, path + [Itoa(n)], s);
        }
    }
  }

  /** Where m stands when it enters the step at path: deeper already, or right there. */
  function At(m: Machine, path: Path): Machine {
    m.(s := m.s.(currentPath := if path <= m.s.currentPath then m.s.currentPath else path))
  }

  function Top(step: Step): Path {
    [] + [step.name]
  }

  /** Everything before the step whose call comes next passes without a trace. */
  lemma Arrives(env: Env, top: seq<Step>, m: Machine, j: nat, call: Call)
    requires Steady(env) && InTime(env, top) && Clocked(env, m.s) && m.s.status == Running
    requires PositionedScope(top, [], m.s) && DistinctNames(top)
    requires NextCall(top, m.s) == Some(call) && j < |top| && Top(top[j]) <= call.path
    ensures var path := Top(top[j]); var e := At(m, path);
      && ExecScope(env, top, top, StartOf(top, m.s), [], m)
           == Rest(env, top, top, j, [], ExecStep(env, top, top[j], path, e), m.s.currentPath)
      && PositionedStep(top[j], path, e.s) && FirstOfStep(top[j], path, e.s) == Some(call)
  {
    hide Clocked, Steady, ExecStep, ExecSteps, NextOfStep, Opening, PositionedStep, FirstOfStep, InTime, Rest;
    var cp, path := m.s.currentPath, Top(top[j]);
    if cp == [] {
      OpeningAtBelow(top, 0, [], m.s);
      SameStep(top, 0, j, [], call.path);
      Enters(env, top, j, m, cp, true);
      FreshFirst(top[j], path, m.s);
    } else {
      var f := Find(top, cp[0]).value;
      NextOfStepBelow(top[f], Top(top[f]), m.s);
      assert cp[..1] == Top(top[f]);
      if NextOfStep(top[f], Top(top[f]), m.s).Some? {
        SameStep(top, f, j, [], call.path);
        LeadFirst(top[f], Top(top[f]), m.s);
        Enters(env, top, j, m, cp, true);
        assert At(m, path) == m;
      } else {
        OpeningAtBelow(top, f + 1, [], m.s);
        SameStep(top, f + 1, j, [], call.path);
        Passes(env, top, m, f);
        Enters(env, top, j, m, cp, false);
        FreshFirst(top[j], path, m.s);
      }
    }
  }

  /** The step at i is executed, not skipped. */
  lemma Enters(env: Env, top: seq<Step>, i: nat, m: Machine, cp: Path, first: bool)
    requires Steady(env) && i < |top| && cp == m.s.currentPath
    requires !(first && Top(top[i]) == cp && IsCompleted(m.s, cp)) && (!first ==> !(Top(top[i]) <= cp))
    ensures ExecSteps(env, top, top, i, [], m, cp, first)
         == Rest(env, top, top, i, [], ExecStep(env, top, top[i], Top(top[i]), At(m, Top(top[i]))), cp)
  {
    hide Steady, ExecStep, ExecSteps, Rest;
    EntersStep(env, top, top, i, [], m, cp, first);
    assert Enter(m, Top(top[i]), cp, first) == At(m, Top(top[i]));
  }

  /** A step with nothing left to call is passed. */
  lemma Passes(env: Env, top: seq<Step>, m: Machine, f: nat)
    requires Steady(env) && InTime(env, top) && Clocked(env, m.s) && m.s.status == Running
    requires f < |top| && Top(top[f]) <= m.s.currentPath && PositionedStep(top[f], Top(top[f]), m.s)
    requires NextOfStep(top[f], Top(top[f]), m.s) == None
    ensures var cp := m.s.currentPath;
      ExecSteps(env, top, top, f, [], m, cp, true) == ExecSteps(env, top, top, f + 1, [], m, cp, false)
  {
    hide Clocked, Steady, ExecStep, ExecSteps, PositionedStep, StepInTime;
    var cp, path := m.s.currentPath, Top(top[f]);
    if path == cp && IsCompleted(m.s, path) {
      SkipsDone(env, top, top, f, [], m);
    } else {
      EntersStep(env, top, top, f, [], m, cp, true);
      assert Enter(m, path, cp, true) == m;
      NothingLeft(top[f], path, m.s);
      StepCalls(env, top, top[f], path, m);
    }
  }

  lemma NothingLeft(step: Step, path: Path, s: RunState)
    requires NextOfStep(step, path, s) == None && !(s.currentPath == path && IsCompleted(s, path)) && path <= s.currentPath
    ensures FirstOfStep(step, path, s) == None
  {
  }

  // ---------- the same call comes next ----------

  /** m stands at a step of the top level, m' wherever; the same call comes next. */
  lemma TopReenters(p: Pair, top: seq<Step>, m: Machine, m': Machine)
    requires Steady(p.env) && InTime(p.env, top) && Valid(top) && Twins(p, m, m') && !p.placed
    requires m.s.status == Running && |m.s.currentPath| == 1
    requires PositionedScope(top, [], m.s) && PositionedScope(top, [], m'.s)
    requires NextCall(top, m'.s) == NextCall(top, m.s)
    requires p.off.Some? ==> NextCall(top, m.s).Some? && OffNext(p, m, NextCall(top, m.s).value)
    ensures TwinResults(p.(off := None), ExecScope(p.env, top, top, StartOf(top, m.s), [], m),
                        ExecScope(p.env, top, top, StartOf(top, m'.s), [], m'))
  {
    hide Twins, Clocked, Steady, InTime, ExecSteps, PositionedScope, NextOfScope;
    var cp, cp' := m.s.currentPath, m'.s.currentPath;
    TwinsClocked(p, m, m');
    TwinFields(p, m, m');
    if NextCall(top, m.s).Some? {
      var call := NextCall(top, m.s).value;
      NextOfScopeBelow(top, [], m.s);
      var j: nat :| j < |top| && [] + [top[j].name] <= call.path;
      TopEnters(p, top, m, m', j, call);
    } else {
      assert p.(off := None) == p;
      ScopeCalls(p.env, top, top, StartOf(top, m.s), [], m);
      ScopeCalls(p.env, top, top, StartOf(top, m'.s), [], m');
    }
  }

  lemma TopEnters(p: Pair, top: seq<Step>, m: Machine, m': Machine, j: nat, call: Call)
    requires Steady(p.env) && InTime(p.env, top) && Valid(top) && Twins(p, m, m') && !p.placed
    requires Clocked(p.env, m.s) && Clocked(p.env, m'.s) && m'.s.status == Running
    requires m.s.status == Running && |m.s.currentPath| == 1
    requires PositionedScope(top, [], m.s) && PositionedScope(top, [], m'.s)
    requires NextCall(top, m.s) == Some(call) && NextCall(top, m'.s) == Some(call)
    requires j < |top| && Top(top[j]) <= call.path && OffNext(p, m, call)
    ensures TwinResults(p.(off := None), ExecScope(p.env, top, top, StartOf(top, m.s), [], m),
                        ExecScope(p.env, top, top, StartOf(top, m'.s), [], m'))
  {
    hide Twins, Clocked, Steady, InTime, StepInTime, ExecScope, ExecSteps, ExecStep, Rest, PositionedScope, PositionedStep,
         NextCall, FirstOfStep;
    var path := Top(top[j]);
    var e, e' := At(m, path), At(m', path);
    Arrives(p.env, top, m, j, call);
    Arrives(p.env, top, m', j, call);
    TwinFields(p, m, m');
    MoveTwins(p, m, m', e.s, e'.s);
    assert |path| == 1 && e.s.currentPath == path;
    OffMoved(p, m, e, call);
    AtFirst(top[j], path, e.s);
    assert StepInTime(p.env, top[j]) by { TopInTime(p.env, top, j); }
    ReenterStep(p, top, top[j], path, e, e');
    RestTwins(p.(off := None), top, top, j, [], ExecStep(p.env, top, top[j], path, e),
              ExecStep(p.env, top, top[j], path, e'), m.s.currentPath, m'.s.currentPath);
  }

  lemma TopInTime(env: Env, top: seq<Step>, j: nat)
    requires InTime(env, top) && j < |top|
    ensures StepInTime(env, top[j])
  {
  }

  lemma AtFirst(step: Step, path: Path, s: RunState)
    requires s.currentPath == path
    ensures FirstOfStep(step, path, s) == Some(Opening(step, path, s))
  {
  }

  lemma OffMoved(p: Pair, m: Machine, e: Machine, call: Call)
    requires OffNext(p, m, call) && e.s.repeatStates == m.s.repeatStates
    ensures OffNext(p, e, call)
  {
  }

  // ---------- two states to start from ----------

  /** Runs from s and s' make the same calls, get the same answers and end alike. */
  ghost predicate Alike(env: Env, top: seq<Step>, s: RunState, log: Log, s': RunState, log': Log) {
    && Loadable(s) && Loadable(s')
    && var r, r' := Run(env, top, s, log), Run(env, top, s', log');
    && Paired(Calls(log), Calls(log'), r.m.log, r'.m.log)
    && Near(env, r.m.s, r'.m.s) && r'.err == r.err
  }

  /** Both states may be started from, and they differ in nothing that is not about to be made up for. */
  ghost predicate Comparable(env: Env, top: seq<Step>, s: RunState, s': RunState, off: Option<Path>) {
    && NearBut(env, off, s, s') && s'.data == s.data && s.status == Running && |s.currentPath| == 1
    && PositionedScope(top, [], s) && PositionedScope(top, [], s')
    && (off.Some? ==> NextCall(top, s') == Some(Until(off.value, RepeatAt(s, off.value).iteration)))
  }

  lemma StartedView(env: Env, top: seq<Step>, s: RunState, log: Log)
    requires s.status == Running && PositionedScope(top, [], s)
    ensures var m := Started(s, log);
      && PositionedScope(top, [], m.s) && NextCall(top, m.s) == NextCall(top, s) && m.s.status == Running
      && m.s.currentPath == s.currentPath && forall q :: RepeatAt(m.s, q) == RepeatAt(s, q)
  {
    var m := Started(s, log);
    assert forall q :: RepeatAt(m.s, q) == RepeatAt(s, q) && IsCompleted(m.s, q) == IsCompleted(s, q);
    NextSame(top, s, m.s);
    PositionedScopeSame(top, [], s, m.s);
  }

  lemma StartedPair(env: Env, off: Option<Path>, s: RunState, log: Log, s': RunState, log': Log)
    requires NearBut(env, off, s, s') && s'.data == s.data && s.status == Running
    ensures var m, m' := Started(s, log), Started(s', log');
      Twins(Pair(env, Calls(log), Calls(log'), false, false, off), m, m')
  {
    hide Reading;
    var m, m' := Started(s, log), Started(s', log');
    StartedCalls(s, log);
    StartedCalls(s', log');
    BothPaired(m.log, m'.log);
    assert forall q :: RepeatAt(m.s, q) == RepeatAt(s, q) && RepeatAt(m'.s, q) == RepeatAt(s', q);
  }

  lemma SameNextAlike(env: Env, top: seq<Step>, s: RunState, log: Log, s': RunState, log': Log, off: Option<Path>)
    requires Steady(env) && InTime(env, top) && Valid(top) && Comparable(env, top, s, s', off)
    requires NextCall(top, s') == NextCall(top, s)
    ensures Alike(env, top, s, log, s', log')
  {
    hide Valid, Run, Paired, Calls, Twins, InTime, Steady, NearBut, ExecSteps, PositionedScope, NextCall;
    var m, m' := Started(s, log), Started(s', log');
    var p := Pair(env, Calls(log), Calls(log'), false, false, off);
    assert s'.status == s.status by { NearStatus(env, off, s, s'); }
    StartedPair(env, off, s, log, s', log');
    StartedView(env, top, s, log);
    StartedView(env, top, s', log');
    TopReenters(p, top, m, m');
    RunForward(env, top, s, log);
    RunForward(env, top, s', log');
    var e, e' := ExecScope(env, top, top, StartOf(top, m.s), [], m), ExecScope(env, top, top, StartOf(top, m'.s), [], m');
    var q := p.(off := None);
    CompletedTwins(q, e, e');
    TwinFields(q, e.m, e'.m);
    var r, r' := Run(env, top, s, log), Run(env, top, s', log');
    assert TwinResults(q, r, r');
    TwinsNear(q, r.m, r'.m);
  }

  lemma NearStatus(env: Env, off: Option<Path>, s: RunState, s': RunState)
    requires NearBut(env, off, s, s')
    ensures s'.status == s.status && s'.completedSteps == s.completedSteps
  {
  }

  lemma TwinsNear(p: Pair, m: Machine, m': Machine)
    requires Twins(p, m, m') && p.off.None?
    ensures Near(p.env, m.s, m'.s) && Paired(p.a, p.b, m.log, m'.log)
  {
  }

  /** The first call of a run, or none at all. */
  lemma RunBegins(env: Env, top: seq<Step>, s: RunState, log: Log)
    requires Steady(env) && InTime(env, top) && Valid(top) && Clocked(env, s)
    requires s.status == Running && PositionedScope(top, [], s)
    ensures var r := Run(env, top, s, log); var c := NextCall(top, s);
      if c.Some? then Begins(log, r.m.log, c.value) else Calls(r.m.log) == Calls(log)
  {
    hide Valid, Run, Calls, InTime, Steady, ExecSteps, PositionedScope, NextCall, Clocked, Begins, SnapshotData;
    var m := Started(s, log);
    RunForward(env, top, s, log);
    StartedView(env, top, s, log);
    StartedCalls(s, log);
    assert Clocked(env, m.s) by { StartedRestarted(env, s, log); }
    TopCalls(env, top, m);
    var e := ExecScope(env, top, top, StartOf(top, m.s), [], m);
    var done := e.m.(s := e.m.s.(status := Completed));
    SavesNoCall(env, done, false);
    SameStart(log, m.log, Run(env, top, s, log).m.log);
    if NextCall(top, s).Some? {
      BeginsLater(m.log, e.m.log, Run(env, top, s, log).m.log, NextCall(top, s).value);
    }
  }

  lemma TopCalls(env: Env, top: seq<Step>, m: Machine)
    requires Steady(env) && InTime(env, top) && Clocked(env, m.s) && m.s.status == Running
    requires PositionedScope(top, [], m.s)
    ensures Does(m, ExecScope(env, top, top, StartOf(top, m.s), [], m), NextCall(top, m.s))
  {
    ScopeCalls(env, top, top, StartOf(top, m.s), [], m);
  }

  lemma OtherNextDiffers(env: Env, top: seq<Step>, s: RunState, log: Log, s': RunState, log': Log, off: Option<Path>)
    requires Steady(env) && InTime(env, top) && Valid(top) && Comparable(env, top, s, s', off)
    requires NextCall(top, s') != NextCall(top, s)
    ensures !Alike(env, top, s, log, s', log')
  {
    hide Valid, Run, InTime, Steady, PositionedScope, NextCall, Clocked;
    NearStatus(env, off, s, s');
    RunBegins(env, top, s, log);
    RunBegins(env, top, s', log');
  }

  // ---------- what a cancelled run returns ----------

  /** As the cancellation passes up, each level writes its own path: only the top one is left. */
  lemma {:induction false} CancelledAtTop(env: Env, top: seq<Step>, i: nat, m: Machine, resume: Path, first: bool)
    returns (j: nat)
    requires var r := ExecSteps(env, top, top, i, [], m, resume, first);
      r.err == Cancelled && r.m.s.status == Running
    ensures j < |top| && ExecSteps(env, top, top, i, [], m, resume, first).m.s.currentPath == [top[j].name]
    decreases |top| - i
  {
    hide ExecStep, EnterCompensation;
    j := i;
    ScopeTurn(env, top, top, i, [], m, resume, first);
    var path := [] + [top[i].name];
    assert path == [top[i].name];
    if first && path == resume && IsCompleted(m.s, path) {
      j := CancelledAtTop(env, top, i + 1, m, resume, false);
    } else if !env.cancelled(m.log) {
      var r := ExecStep(env, top, top[i], path, Enter(m, path, resume, first));
      if r.err == NoError {
        j := CancelledAtTop(env, top, i + 1, r.m, resume, false);
      } else {
        RollbackLeaves(env, top, r.m, path, if r.err.StepFailed? then r.err.cause else Plain, r.err);
      }
    }
  }

  lemma RollbackLeaves(env: Env, top: seq<Step>, m: Machine, path: Path, cause: Cause, err: Error)
    ensures EnterCompensation(env, top, m, path, cause, err).m.s.status != Running
  {
    BaseReached([], [], m);
    EnterReached(Base([], [], m.s, m.log), env, top, m, path, cause, err);
  }

  /** A run cancelled before it saved anything returns what it was given; else a step of the top level. */
  lemma CancelledRun(env: Env, top: seq<Step>, s: RunState, log: Log)
    requires Valid(top) && Loadable(s)
    requires var r := Run(env, top, s, log); r.err == Cancelled && r.m.s.status == Running
    ensures var r := Run(env, top, s, log);
      r == Result(Machine(s, s.data, log), Cancelled)
      || exists j :: 0 <= j < |top| && r.m.s.currentPath == [top[j].name]
  {
    hide Valid, ExecSteps, CompensateFrom;
    if !s.IsTerminal() && !env.cancelled(log) {
      if s.status == Compensating {
        BackwardStays(env, top, s, log);
      } else {
        RunGoing(env, top, s, log);
        var m := SnapshotData(env, Machine(s.(status := Running), s.data, log)).m;
        var j := CancelledAtTop(env, top, StartOf(top, m.s), m, m.s.currentPath, true);
      }
    }
  }

  lemma BackwardStays(env: Env, top: seq<Step>, s: RunState, log: Log)
    requires Valid(top) && Loadable(s) && s.status == Compensating && !env.cancelled(log)
    ensures Run(env, top, s, log).m.s.status != Running
  {
    hide Valid, CompensateFrom;
    var r := SnapshotData(env, Machine(s, s.data, log));
    if r.err == NoError {
      CompensateLeaves(env, top, r.m, r.m.s.compensationIndex);
    }
  }

  lemma HalfwayComparable(env: Env, top: seq<Step>, d: RunState, s: RunState)
    returns (off: Option<Path>)
    requires Halfway(top, d, s) && Clocked(env, d) && Clocked(env, s)
    ensures var d' := d.(data := s.data);
      && NearBut(env, off, s, d') && NextCall(top, d') == NextCall(top, d)
      && (off.Some? ==> NextCall(top, d) == Some(Until(off.value, RepeatAt(s, off.value).iteration)))
  {
    hide Reading, NextCall;
    var q :| OffBy(top, d, s, q);
    off := if RepeatAt(s, q) == RepeatAt(d, q) then None else Some(q);
    var d' := d.(data := s.data);
    assert forall p :: RepeatAt(d', p) == RepeatAt(d, p) && IsCompleted(d', p) == IsCompleted(d, p);
    NextSame(top, d, d');
  }

  /** A good durable state that goes forward has its path in the tree. */
  lemma DurablePositioned(top: seq<Step>, log: Log)
    requires LogGood(top, log) && Durable(log).status == Running
    ensures PositionedScope(top, [], Durable(log))
  {
    hide LogGood, JournalOK;
    DurableOK(top, log);
    if Durable(log).currentPath != [] {
      PosPlacedScope(Ever(log), top, [], Durable(log));
      PlacedPositioned(top, [], Durable(log));
    }
  }

  lemma PositionedData(top: seq<Step>, s: RunState, s': RunState)
    requires PositionedScope(top, [], s) && s' == s.(data := s'.data)
    ensures PositionedScope(top, [], s')
  {
    assert forall q :: RepeatAt(s', q) == RepeatAt(s, q) && IsCompleted(s', q) == IsCompleted(s, q);
    PositionedScopeSame(top, [], s, s');
  }

  ghost predicate SameClock(env: Env, env': Env) {
    forall log :: env'.now(log) == env.now(log)
  }

  lemma ClockedAlike(env: Env, env': Env, s: RunState)
    requires SameClock(env, env') && Clocked(env, s)
    ensures Clocked(env', s)
  {
    forall t | Reading(env, t) ensures Reading(env', t) {
      var log :| env.now(log) == t;
      assert env'.now(log) == t;
    }
  }

  lemma NearRunning(env: Env, off: Option<Path>, s: RunState, d: RunState)
    requires NearBut(env, off, s, d) && s.status == Running
    ensures d.status == Running
  {
  }

  lemma CancelledComparable(env: Env, top: seq<Step>, s: RunState, d: RunState, off: Option<Path>)
    requires Valid(top) && NearBut(env, off, s, d) && d.data == s.data && s.status == Running
    requires exists j :: 0 <= j < |top| && s.currentPath == [top[j].name]
    requires PositionedScope(top, [], d)
    requires off.Some? ==> NextCall(top, d) == Some(Until(off.value, RepeatAt(s, off.value).iteration))
    ensures Comparable(env, top, s, d, off)
  {
    var j :| 0 <= j < |top| && s.currentPath == [top[j].name];
    FindSelf(top, j);
  }

  /** Returned untouched: the two starting points are one. */
  lemma UnchangedAlike(env: Env, top: seq<Step>, s: RunState, log1: Log, log2: Log)
    requires Steady(env) && InTime(env, top) && Valid(top) && Clocked(env, s) && Loadable(s)
    ensures Alike(env, top, s, log1, s, log2)
  {
    hide Valid, Run, Paired, InTime, Steady, Clocked;
    TwinSelf(env, s);
    RunTwins(env, top, s, log1, s, log2);
  }

  /**
   * Take any cancelled run of any history, under any environment. From then on, in an environment
   * without cancellation and refusals, starting from the state it returned does the same - the same
   * calls with the same answers, the same error, and a final state that differs at most in its path,
   * its revision and in when clocks were started - as starting from the last state that was saved,
   * with the data as it was, if and only if the call that comes next is the same in both.
   */
  lemma CancelledAlike(env: Env, top: seq<Step>, log: Log, r: Result, env': Env, log1: Log, log2: Log)
    requires History(env, top, log) && Loadable(Durable(log)) && r == Run(env, top, Durable(log), log)
    requires r.err == Cancelled && r.m.s.status == Running && !Dropped(top, r.m.log)
    requires Steady(env') && InTime(env', top) && SameClock(env, env')
    ensures var s := r.m.s; var d := Durable(r.m.log).(data := s.data);
      Alike(env', top, s, log1, d, log2) <==> NextCall(top, s) == NextCall(top, d)
  {
    hide Valid, Run, LogGood, Sound, Chronicle, Halfway, Clocked, NextCall, PositionedScope, Steady, InTime, Comparable;
    HistoryIsGood(env, top, log);
    HistoryIsSound(env, top, log);
    RunGood(env, top, log);
    RunCourse(env, top, log);
    CancelledRun(env, top, Durable(log), log);
    var s, d0 := r.m.s, Durable(r.m.log);
    var d := d0.(data := s.data);
    RunClocked(env, top, log);
    ClockedAlike(env, env', s);
    ClockedAlike(env, env', d0);
    if r == Result(Machine(Durable(log), Durable(log).data, log), Cancelled) {
      assert d == s;
      UnchangedAlike(env', top, s, log1, log2);
    } else {
      var off := HalfwayComparable(env', top, d0, s);
      NearRunning(env', off, s, d);
      DurablePositioned(top, r.m.log);
      PositionedData(top, d0, d);
      CancelledComparable(env', top, s, d, off);
      if NextCall(top, s) == NextCall(top, d) {
        SameNextAlike(env', top, s, log1, d, log2, off);
      } else {
        OtherNextDiffers(env', top, s, log1, d, log2, off);
      }
    }
  }

  // ---------- cancelled during a rollback ----------

  /** A rollback passes over the entries down to j without a trace. */
  lemma {:induction false} PassesOver(env: Env, top: seq<Step>, m: Machine, i: int, j: int)
    requires Steady(env) && j <= i == m.s.compensationIndex && i < |m.s.completedSteps|
    requires forall k :: 0 <= k < |m.s.completedSteps| && j < k <= i ==> !Undoes(top, m.s.completedSteps[k])
    ensures CompensateFrom(env, top, m, i) == CompensateFrom(env, top, m.(s := m.s.(compensationIndex := j)), j)
    decreases i - j
  {
    if i == j {
      assert m.(s := m.s.(compensationIndex := j)) == m;
    } else if i >= 0 {
      var skipped := m.(s := m.s.(compensationIndex := i - 1));
      assert !Undoes(top, m.s.completedSteps[i]);
      PassesOver(env, top, skipped, i - 1, j);
    }
  }

  /** A run cancelled while it rolled back goes on rolling back alike, whichever state it starts from. */
  lemma RollbackAlike(env: Env, top: seq<Step>, log: Log, r: Result, env': Env, log1: Log, log2: Log)
    requires History(env, top, log) && Loadable(Durable(log)) && r == Run(env, top, Durable(log), log)
    requires r.err == Cancelled && (r.m.s.status == Compensating || r.m.s.status == Failed)
    requires Steady(env') && SameClock(env, env')
    ensures Alike(env', top, r.m.s, log1, Durable(r.m.log).(data := r.m.s.data), log2)
  {
    hide Valid, Run, LogGood, Sound, Chronicle, Halfway, Clocked, Skipped, Steady, Alike;
    HistoryIsGood(env, top, log);
    HistoryIsSound(env, top, log);
    RunGood(env, top, log);
    RunCourse(env, top, log);
    RunClocked(env, top, log);
    ClockedAlike(env, env', r.m.s);
    ClockedAlike(env, env', Durable(r.m.log));
    LoadableDurable(top, r.m.log);
    SkippedAlike(env', top, r.m.s, Durable(r.m.log), log1, log2);
  }

  lemma SkippedAlike(env: Env, top: seq<Step>, s: RunState, d: RunState, log1: Log, log2: Log)
    requires Steady(env) && Valid(top) && Clocked(env, s) && Clocked(env, d) && Skipped(top, d, s)
    requires s.status == Failed || s.status == Compensating
    requires Loadable(d)
    ensures Alike(env, top, s, log1, d.(data := s.data), log2)
  {
    hide Valid, Run, Clocked, Steady, Undoes, CompensateFrom, Calls, Paired;
    var d' := d.(data := s.data);
    assert forall q :: RepeatAt(s, q) == RepeatAt(d', q) && RepeatAt(d', q) == RepeatAt(d, q);
    assert Clocked(env, d') by { ClockedMoved(env, d, d'); }
    RunStarts(env, top, s, log1);
    RunStarts(env, top, d', log2);
    if s.status == Failed {
      BothPaired(log1, log2);
    } else {
      var m, m' := Started(s, log1), Started(d', log2);
      var n := m'.(s := m'.s.(compensationIndex := s.compensationIndex));
      var p := Pair(env, Calls(log1), Calls(log2), false, false, None);
      RunBackward(env, top, s, log1);
      RunBackward(env, top, d', log2);
      PassesOver(env, top, m', d'.compensationIndex, s.compensationIndex);
      SkippedPair(p, s, log1, d', log2);
      CompensateTwins(p, top, m, n, s.compensationIndex);
      TwinsNear(p, CompensateFrom(env, top, m, s.compensationIndex).m, CompensateFrom(env, top, n, s.compensationIndex).m);
    }
  }

  lemma SkippedPair(p: Pair, s: RunState, log1: Log, d: RunState, log2: Log)
    requires p == Pair(p.env, Calls(log1), Calls(log2), false, false, None)
    requires Clocked(p.env, s) && s.status == Compensating
    requires s == d.(currentPath := s.currentPath, compensationIndex := s.compensationIndex)
    ensures var m' := Started(d, log2);
      Twins(p, Started(s, log1), m'.(s := m'.s.(compensationIndex := s.compensationIndex)))
  {
    hide Reading;
    var m, m' := Started(s, log1), Started(d, log2);
    var n := m'.(s := m'.s.(compensationIndex := s.compensationIndex));
    StartedCalls(s, log1);
    StartedCalls(d, log2);
    BothPaired(m.log, m'.log);
    assert forall q :: RepeatAt(m.s, q) == RepeatAt(s, q) && RepeatAt(n.s, q) == RepeatAt(s, q);
  }
}
