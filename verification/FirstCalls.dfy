/**
 * From whatever state it starts, the first thing an execution calls is what NextCalls reads off that
 * state; with nothing left it calls nothing. The state need not be one that was saved.
 */
module FirstCalls {
  import opened Options
  import opened Decimal
  import opened Definition
  import opened State
  import opened Executor
  import opened Journal
  import opened Records
  import opened NextCalls
  import opened Lockstep
  import opened CutRollback
  import opened CutForward

  /** The saved path leads into these steps. */
  predicate PositionedScope(steps: seq<Step>, scope: Path, s: RunState)
    decreases steps, 1
  {
    |s.currentPath| <= |scope|
    || (&& scope <= s.currentPath
        && var f := Find(steps, s.currentPath[|scope|]);
        f.Some? && PositionedStep(steps[f.value], scope + [steps[f.value].name], s))
  }

  predicate PositionedStep(step: Step, path: Path, s: RunState)
    decreases step, 0
  {
    |s.currentPath| <= |path|
    || (&& path <= s.currentPath
        && match step.kind
           case Action(_, _) => false
           case Poll(_) => false
           case Branch(paths) =>
             var f := FindKey(paths, s.currentPath[|path|]);
             f.Some? && PositionedScope(paths[f.value].steps, path + [paths[f.value].key], s)
           case Repeat(steps, _, _, _) =>
             var rs := RepeatAt(s, path);
             && s.currentPath[|path|] == Itoa(rs.iteration)
             && (rs.awaitingCondition || PositionedScope(steps, path + [Itoa(rs.iteration)], s)))
  }

  lemma {:induction false} PositionedStepSame(step: Step, path: Path, s: RunState, s': RunState)
    requires SameView(s, s') && s'.currentPath == s.currentPath && PositionedStep(step, path, s)
    ensures PositionedStep(step, path, s')
    decreases step, 0
  {
    if |s.currentPath| > |path| {
      match step.kind
      case Action(_, _) =>
      case Poll(_) =>
      case Branch(paths) =>
        var k := FindKey(paths, s.currentPath[|path|]).value;
        PositionedScopeSame(paths[k].steps, path + [paths[k].key], s, s');
      case Repeat(steps, _, _, _) =>
        var rs := RepeatAt(s, path);
        assert RepeatAt(s', path).iteration == rs.iteration;
        if !rs.awaitingCondition {
          PositionedScopeSame(steps, path + [Itoa(rs.iteration)], s, s');
        }
    }
  }

  lemma {:induction false} PositionedScopeSame(steps: seq<Step>, scope: Path, s: RunState, s': RunState)
    requires SameView(s, s') && s'.currentPath == s.currentPath && PositionedScope(steps, scope, s)
    ensures PositionedScope(steps, scope, s')
    decreases steps, 1
  {
    if |s.currentPath| > |scope| {
      var f := Find(steps, s.currentPath[|scope|]).value;
      PositionedStepSame(steps[f], scope + [steps[f].name], s, s');
    }
  }

  // ---------- beginnings ----------

  /** The first call made from log to log' is this one. */
  predicate Begins(log: Log, log': Log, call: Call) {
    && Calls(log) < Calls(log')
    && Calls(log')[|Calls(log)|].Called? && Calls(log')[|Calls(log)|].call == call
  }

  lemma {:induction false} CallsGrow(a: Log, b: Log)
    requires a <= b
    ensures Calls(a) <= Calls(b)
    decreases |b|
  {
    if |a| < |b| {
      assert a <= b[..|b| - 1];
      CallsGrow(a, b[..|b| - 1]);
    } else {
      assert a == b;
    }
  }

  lemma BeginsLater(log: Log, mid: Log, log': Log, call: Call)
    requires Begins(log, mid, call) && mid <= log'
    ensures Begins(log, log', call)
  {
    CallsGrow(mid, log');
  }

  lemma InvokeBegins(env: Env, m: Machine, call: Call)
    ensures Begins(m.log, Invoke(env, m, call).m.log, call)
  {
    var log := Invoke(env, m, call).m.log;
    assert log[..|log| - 1] == m.log;
  }

  lemma SavesNoCall(env: Env, m: Machine, polling: bool)
    ensures Calls(Snapshot(env, m).m.log) == Calls(m.log) && m.log <= Snapshot(env, m).m.log
    ensures m.log <= SnapshotData(env, m).m.log && m.log <= PersistDeferred(env, m, polling).m.log
    ensures Calls(SnapshotData(env, m).m.log) == Calls(m.log)
  {
    hide Snapshot, Calls;
    SavesOne(env, m);
    SavesOne(env, m.(s := m.s.(data := m.data)));
    var t := m.(s := m.s.(status := Polling));
    SavesOne(env, t.(s := t.s.(data := t.data)));
  }

  lemma SavesOne(env: Env, m: Machine)
    ensures var r := Snapshot(env, m); Calls(r.m.log) == Calls(m.log) && m.log <= r.m.log
  {
    var log := Snapshot(env, m).m.log;
    assert log[..|log| - 1] == m.log;
  }

  lemma ActionBegins(env: Env, compensated: bool, retry: Option<Retry>, path: Path, m: Machine)
    ensures Begins(m.log, ExecAction(env, compensated, retry, path, m).m.log, Do(path))
  {
    hide Snapshot, SnapshotData, PersistDeferred;
    var n, delay, backoff := MaxAttempts(retry), InitialDelay(retry), Backoff(retry);
    var a := Attempt(env, m, path, n, delay, backoff);
    AttemptBegins(env, m, path, n, delay, backoff);
    SavesNoCall(env, a.m, false);
    SavesNoCall(env, a.m.(s := Complete(a.m.s, path, compensated)), false);
    BeginsLater(m.log, a.m.log, ExecAction(env, compensated, retry, path, m).m.log, Do(path));
  }

  lemma AttemptBegins(env: Env, m: Machine, path: Path, left: nat, delay: int, backoff: bool)
    requires left >= 1
    ensures Begins(m.log, Attempt(env, m, path, left, delay, backoff).m.log, Do(path))
  {
    var a := Invoke(env, m, Do(path));
    InvokeBegins(env, m, Do(path));
    if !(a.reply.Ok? || a.reply.failure == RetryAfter || left == 1) {
      var slept := a.m.(log := a.m.log + [Slept(delay)]);
      var whole := Attempt(env, m, path, left, delay, backoff);
      if !env.cancelled(slept.log) {
        AttemptSavesNothing(env, slept, path, left - 1, NextDelay(backoff, delay), backoff);
        LogsGrow(a.m.log, slept.log, whole.m.log);
      }
      BeginsLater(m.log, a.m.log, whole.m.log, Do(path));
    }
  }

  lemma PollBegins(env: Env, maxDuration: int, path: Path, m: Machine)
    requires Ample(env, maxDuration) && Clocked(env, m.s)
    ensures Begins(m.log, ExecPoll(env, maxDuration, path, m).m.log, Check(path))
  {
    hide Ample, Clocked, Snapshot, SnapshotData, PersistDeferred;
    PollNotTimedOut(env, maxDuration, m.s, m.log);
    var started := if m.s.pollStartedAt.None? then env.now(m.log) else m.s.pollStartedAt.value;
    var asked := m.(s := m.s.(pollStartedAt := Some(started)));
    var a := Invoke(env, asked, Check(path));
    InvokeBegins(env, asked, Check(path));
    SavesNoCall(env, a.m, true);
    SavesNoCall(env, a.m.(s := a.m.s.(pollStartedAt := None)), true);
    SavesNoCall(env, a.m.(s := Complete(a.m.s.(pollStartedAt := None, status := Running), path, false)), true);
    BeginsLater(m.log, a.m.log, ExecPoll(env, maxDuration, path, m).m.log, Check(path));
  }

  lemma DecideBegins(env: Env, paths: seq<BranchPath>, path: Path, m: Machine)
    ensures var d := DecideBranch(env, paths, path, m);
      Begins(m.log, if d.Settled? then d.r.m.log else d.m.log, Decide(path))
  {
    hide Snapshot, SnapshotData, PersistDeferred, Begins, Calls;
    var a := Invoke(env, m, Decide(path));
    InvokeBegins(env, m, Decide(path));
    SavesNoCall(env, a.m, false);
    var d := DecideBranch(env, paths, path, m);
    if a.reply.Ok? {
      var f := FindKey(paths, a.reply.key);
      var s := Complete(a.m.s, path, false);
      SavesNoCall(env, a.m.(s := s.(currentPath := path)), false);
      if f.Some? {
        SavesNoCall(env, a.m.(s := s.(currentPath := path + [paths[f.value].key])), false);
      }
    }
    BeginsLater(m.log, a.m.log, if d.Settled? then d.r.m.log else d.m.log, Decide(path));
  }

  lemma FinishBegins(env: Env, step: Step, path: Path, m: Machine, rs: RepeatState)
    requires step.kind.Repeat? && Ample(env, step.kind.maxDuration) && ClockedRecord(env, rs)
    ensures Begins(m.log, FinishIteration(env, step, path, m, rs).m.log, Until(path, rs.iteration))
  {
    hide Ample, Reading, Snapshot, SnapshotData, PersistDeferred, DoneState, NextState, Retained, Begins, Calls;
    NotTimedOut(env, step.kind.maxDuration, rs, m.log);
    var a := Invoke(env, m, Until(path, rs.iteration));
    InvokeBegins(env, m, Until(path, rs.iteration));
    SavesNoCall(env, a.m, false);
    SavesNoCall(env, a.m.(s := DoneState(step, path, a.m.s, rs)), false);
    SavesNoCall(env, a.m.(s := NextState(step, path, a.m.s, rs)), false);
    BeginsLater(m.log, a.m.log, FinishIteration(env, step, path, m, rs).m.log, Until(path, rs.iteration));
  }

  // ---------- steps and scopes ----------

  /** What executing this step calls first. */
  function FirstOfStep(step: Step, path: Path, s: RunState): Option<Call> {
    if |s.currentPath| <= |path| then Some(Opening(step, path, s)) else NextOfStep(step, path, s)
  }

  /** What executing this scope from step i calls first; lead if step i leads to the saved path. */
  function FirstOfScope(steps: seq<Step>, i: nat, parent: Path, s: RunState, lead: bool): Option<Call>
    requires lead ==> i < |steps|
  {
    if lead then
      var inside := NextOfStep(steps[i], parent + [steps[i].name], s);
      if inside.Some? then inside else OpeningAt(steps, i + 1, parent, s)
    else OpeningAt(steps, i, parent, s)
  }

  /** It calls this first, or it has nothing to call and changes nothing. */
  predicate Does(m: Machine, r: Result, first: Option<Call>) {
    if first.Some? then Begins(m.log, r.m.log, first.value) else r == Result(m, NoError)
  }

  predicate Leading(steps: seq<Step>, i: nat, parent: Path, resume: Path, first: bool) {
    first && i < |steps| && parent + [steps[i].name] <= resume
  }

  lemma {:induction false} StepsCall(env: Env, top: seq<Step>, steps: seq<Step>, i: nat, parent: Path, m: Machine,
                                     resume: Path, first: bool)
    requires Steady(env) && InTime(env, steps) && Clocked(env, m.s) && m.s.status == Running
    requires Leading(steps, i, parent, resume, first) ==>
      resume == m.s.currentPath && PositionedStep(steps[i], parent + [steps[i].name], m.s)
    ensures var lead := Leading(steps, i, parent, resume, first);
      Does(m, ExecSteps(env, top, steps, i, parent, m, resume, first), FirstOfScope(steps, i, parent, m.s, lead))
    decreases steps, 1, |steps| - i
  {
    hide Clocked, HandleError, StepInTime, Begins, ExecStep, NextOfStep, Opening;
    if i < |steps| {
      var path := parent + [steps[i].name];
      var lead := Leading(steps, i, parent, resume, first);
      if first && path == resume && IsCompleted(m.s, path) {
        assert NextOfStep(steps[i], path, m.s) == None by { DoneNext(steps[i], path, m.s); }
        StepsCall(env, top, steps, i + 1, parent, m, resume, false);
      } else {
        var e := Enter(m, path, resume, first);
        EnterCall(env, steps[i], path, m, resume, first);
        StepCalls(env, top, steps[i], path, e);
        var r := ExecStep(env, top, steps[i], path, e);
        var c := FirstOfStep(steps[i], path, e.s);
        if c.Some? {
          StepsLogs(env, top, steps, i, parent, m, resume, first);
          BeginsLater(m.log, r.m.log, ExecSteps(env, top, steps, i, parent, m, resume, first).m.log, c.value);
        } else {
          StepsCall(env, top, steps, i + 1, parent, m, resume, false);
        }
      }
    }
  }

  lemma DoneNext(step: Step, path: Path, s: RunState)
    requires |s.currentPath| == |path| && IsCompleted(s, path)
    ensures NextOfStep(step, path, s) == None
  {
  }

  /** Entering a step, in view of what it calls first. */
  lemma EnterCall(env: Env, step: Step, path: Path, m: Machine, resume: Path, first: bool)
    requires Clocked(env, m.s) && !(first && path == resume && IsCompleted(m.s, path))
    requires first && path <= resume ==> resume == m.s.currentPath && PositionedStep(step, path, m.s)
    ensures var e := Enter(m, path, resume, first);
      && Clocked(env, e.s) && PositionedStep(step, path, e.s) && path <= e.s.currentPath
      && (if first && path <= resume then e == m && FirstOfStep(step, path, e.s) == NextOfStep(step, path, m.s)
          else FirstOfStep(step, path, e.s) == Some(Opening(step, path, m.s)))
  {
    hide Reading;
    var e := Enter(m, path, resume, first);
    if first && path <= resume {
      assert e == m;
    } else {
      assert e.s.currentPath == path;
      assert forall q :: RepeatAt(e.s, q) == RepeatAt(m.s, q) && IsCompleted(e.s, q) == IsCompleted(m.s, q);
      OpeningSame(step, path, m.s, e.s);
    }
  }

  lemma {:induction false} StepCalls(env: Env, top: seq<Step>, step: Step, path: Path, m: Machine)
    requires Steady(env) && StepInTime(env, step) && Clocked(env, m.s) && m.s.status == Running
    requires PositionedStep(step, path, m.s) && path <= m.s.currentPath
    ensures Does(m, ExecStep(env, top, step, path, m), FirstOfStep(step, path, m.s))
    decreases step, 1
  {
    hide Clocked, Begins, ExecAction, ExecPoll, DecideBranch, ExecSteps, Steady;
    match step.kind
    case Action(compensated, retry) => ActionBegins(env, compensated, retry, path, m);
    case Poll(maxDuration) => PollBegins(env, maxDuration, path, m);
    case Branch(paths) =>
      if |m.s.currentPath| > |path| {
        var k := FindKey(paths, m.s.currentPath[|path|]).value;
        var steps, scope := paths[k].steps, path + [paths[k].key];
        ScopeCalls(env, top, steps, ChildIndex(steps, m.s, path), scope, m);
      } else {
        DecideBegins(env, paths, path, m);
        var d := DecideBranch(env, paths, path, m);
        if d.Entered? {
          var steps, scope := paths[d.index].steps, path + [paths[d.index].key];
          StepsGrow(env, top, steps, 0, scope, d.m, d.m.s.currentPath, true);
          assert ExecStep(env, top, step, path, m) == ExecSteps(env, top, steps, 0, scope, d.m, d.m.s.currentPath, true);
          BeginsLater(m.log, d.m.log, ExecStep(env, top, step, path, m).m.log, Decide(path));
        }
      }
    case Repeat(_, _, _, _) => RepeatCalls(env, top, step, path, m);
  }

  /** A scope picked up where the saved path leads, or from its beginning. */
  lemma {:induction false} ScopeCalls(env: Env, top: seq<Step>, steps: seq<Step>, i: nat, scope: Path, m: Machine)
    requires Steady(env) && InTime(env, steps) && Clocked(env, m.s) && m.s.status == Running
    requires PositionedScope(steps, scope, m.s) && (|m.s.currentPath| <= |scope| ==> m.s.currentPath <= scope)
    requires i == if |m.s.currentPath| > |scope| then StartIndex(steps, m.s.currentPath[|scope|]) else 0
    ensures Does(m, ExecScope(env, top, steps, i, scope, m), NextOfScope(steps, scope, m.s))
    decreases steps, 2
  {
    hide Clocked, Begins, ExecSteps, Steady, InTime;
    var cp := m.s.currentPath;
    if |cp| > |scope| {
      assert cp[..|scope| + 1] == scope + [steps[i].name];
    }
    StepsCall(env, top, steps, i, scope, m, cp, true);
  }

  lemma {:induction false} RepeatCalls(env: Env, top: seq<Step>, step: Step, path: Path, m: Machine)
    requires Steady(env) && StepInTime(env, step) && Clocked(env, m.s) && m.s.status == Running && step.kind.Repeat?
    requires PositionedStep(step, path, m.s) && path <= m.s.currentPath
    ensures Does(m, ExecStep(env, top, step, path, m), FirstOfStep(step, path, m.s))
    decreases step, 0, 1
  {
    hide Clocked, Begins, EnsureStarted, FinishIteration, RunIteration, Steady, Calls, NextOfScope, Opening;
    StartCalls(env, step.kind.maxDuration, path, m);
    var r := EnsureStarted(env, step.kind.maxDuration, path, m);
    var rs := RepeatAt(r.m.s, path).(completed := false);
    NotTimedOut(env, step.kind.maxDuration, RepeatAt(r.m.s, path), r.m.log);
    AtoiItoa(rs.iteration);
    PositionedStepSame(step, path, m.s, r.m.s);
    StepSame(step, path, m.s, r.m.s);
    OpeningSame(step, path, m.s, r.m.s);
    if rs.awaitingCondition {
      FinishBegins(env, step, path, WithRepeat(r.m, path, rs), rs);
      assert FirstOfStep(step, path, r.m.s) == Some(Until(path, rs.iteration)) by { AwaitingFirst(step, path, r.m.s); }
    } else {
      IterationCalls(env, top, step, path, r.m, rs);
    }
    SameStart(m.log, r.m.log, ExecStep(env, top, step, path, m).m.log);
  }

  lemma AwaitingFirst(step: Step, path: Path, s: RunState)
    requires step.kind.Repeat? && RepeatAt(s, path).awaitingCondition
    ensures FirstOfStep(step, path, s) == Some(Until(path, RepeatAt(s, path).iteration))
  {
  }

  lemma SameStart(log: Log, start: Log, log': Log)
    requires Calls(start) == Calls(log)
    ensures forall c :: Begins(start, log', c) ==> Begins(log, log', c)
  {
  }

  lemma StartCalls(env: Env, maxDuration: int, path: Path, m: Machine)
    requires Steady(env) && Clocked(env, m.s)
    ensures var r := EnsureStarted(env, maxDuration, path, m);
      && r.err == NoError && Calls(r.m.log) == Calls(m.log) && Clocked(env, r.m.s) && r.m.s.status == m.s.status
      && r.m.s.currentPath == m.s.currentPath && SameView(m.s, r.m.s) && ClockedRecord(env, RepeatAt(r.m.s, path))
  {
    hide Reading;
    var rs := RepeatAt(m.s, path).(startedAt := Some(env.now(m.log)));
    assert Reading(env, env.now(m.log)) by { ReadingNow(env, m.log); }
    SavesNoCall(env, WithRepeat(m, path, rs), false);
    var r := EnsureStarted(env, maxDuration, path, m);
    assert forall q :: IsCompleted(r.m.s, q) == IsCompleted(m.s, q);
    assert forall q :: RepeatAt(r.m.s, q) == RepeatAt(m.s, q) || (q == path && RepeatAt(r.m.s, q) == rs);
  }

  lemma ReadingNow(env: Env, log: Log)
    ensures Reading(env, env.now(log))
  {
  }

  lemma {:induction false} IterationCalls(env: Env, top: seq<Step>, step: Step, path: Path, m: Machine, rs: RepeatState)
    requires Steady(env) && StepInTime(env, step) && Clocked(env, m.s) && m.s.status == Running && step.kind.Repeat?
    requires PositionedStep(step, path, m.s) && path <= m.s.currentPath
    requires rs == RepeatAt(m.s, path).(completed := false) && !rs.awaitingCondition
    ensures Does(m, RunIteration(env, top, step, path, m, rs), FirstOfStep(step, path, m.s))
    decreases step, 0, 0
  {
    hide Clocked, Begins, FinishIteration, Steady, ExecSteps, Calls;
    var steps, scope, cp := step.kind.steps, path + [Itoa(rs.iteration)], m.s.currentPath;
    var e := WithRepeat(m, path, rs);
    RecordView(env, m.s, path, rs);
    PositionedStepSame(step, path, m.s, e.s);
    OpeningSame(step, path, m.s, e.s);
    StepSame(step, path, m.s, e.s);
    if |cp| > |path| {
      assert cp[..|scope|] == scope;
    }
    var i := ChildIndex(steps, m.s, path);
    ScopeCalls(env, top, steps, i, scope, e);
    var c := ExecScope(env, top, steps, i, scope, e);
    var r := RunIteration(env, top, step, path, m, rs);
    var first := NextOfScope(steps, scope, e.s);
    IterationFirst(step, path, e.s);
    var due := rs.(awaitingCondition := true);
    if first.Some? {
      FinishLogs(env, step, path, WithRepeat(c.m, path, due), due);
      BeginsLater(m.log, c.m.log, r.m.log, first.value);
    } else {
      FinishBegins(env, step, path, WithRepeat(e, path, due), due);
    }
  }

  /** In an iteration: what is next in its children, and then Until. */
  lemma IterationFirst(step: Step, path: Path, s: RunState)
    requires step.kind.Repeat? && !RepeatAt(s, path).awaitingCondition
    ensures var n := RepeatAt(s, path).iteration;
      var inside := NextOfScope(step.kind.steps, path + [Itoa(n)], s);
      FirstOfStep(step, path, s) == if inside.Some? then inside else Some(Until(path, n))
  {
  }

  lemma RecordView(env: Env, s: RunState, path: Path, rs: RepeatState)
    requires Clocked(env, s) && rs == RepeatAt(s, path).(completed := rs.completed)
    ensures var s' := Record(s, path, rs); SameView(s, s') && Clocked(env, s') && ClockedRecord(env, rs)
  {
    hide Reading;
    var s' := Record(s, path, rs);
    assert forall q :: IsCompleted(s', q) == IsCompleted(s, q);
    assert forall q :: q != path ==> RepeatAt(s', q) == RepeatAt(s, q);
  }
}
