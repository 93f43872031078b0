/**
 * What executing below one path leaves behind, under any environment: every state it saves while
 * running stands at or below that path, and repeat positions elsewhere are as they were.
 */
module Footprint {
  import opened Options
  import opened Decimal
  import opened Definition
  import opened State
  import opened Executor
  import opened Journal
  import opened Frames

  /** What is recorded at q - completion, position of a repeat - is the same. */
  predicate Kept(q: Path, s: RunState, s': RunState) {
    && (IsCompleted(s', q) <==> IsCompleted(s, q))
    && (q in s'.repeatStates <==> q in s.repeatStates)
    && (q in s.repeatStates ==> s'.repeatStates[q] == s.repeatStates[q])
  }

  /** Where an observation starts: a state and a log, a path to work below, a path elsewhere. */
  datatype Base = Base(q: Path, path: Path, s: RunState, log: Log)

  ghost predicate Local(b: Base, s: RunState) {
    Kept(b.q, b.s, s) && (s.status == Running ==> b.path <= s.currentPath)
  }

  ghost predicate Within(b: Base, m: Machine) {
    && b.log <= m.log && Kept(b.q, b.s, m.s)
    && forall k :: |b.log| <= k < |m.log| && m.log[k].Saved? ==> Local(b, m.log[k].state)
  }

  ghost predicate Below(b: Base, m: Machine) {
    m.s.status == Running ==> b.path <= m.s.currentPath
  }

  ghost predicate Reached(b: Base, m: Machine) {
    Within(b, m) && Below(b, m)
  }

  /** Success leaves nothing unsaved, and failures are attributed to a step at or below the base. */
  ghost predicate Ends(b: Base, r: Result) {
    && (r.err == NoError && r.m.s.status == Running ==> r.m.data == r.m.s.data)
    && (r.err.StepFailed? ==> |b.path| <= |r.err.path|)
  }

  ghost predicate ReachedResult(b: Base, r: Result) {
    Reached(b, r.m) && Ends(b, r)
  }

  /** A machine about to work at path, which lies below the base and away from q. */
  ghost predicate Entering(b: Base, path: Path, m: Machine) {
    Reached(b, m) && b.path <= path <= m.s.currentPath && !IsPrefix(b.path, b.q)
  }

  lemma EnteringElsewhere(b: Base, path: Path, m: Machine)
    requires Entering(b, path, m)
    ensures b.path <= m.s.currentPath && path != b.q && |b.path| <= |path|
  {
    PrefixTransitive(b.path, path, m.s.currentPath);
  }

  lemma BaseReached(q: Path, path: Path, m: Machine)
    ensures Within(Base(q, path, m.s, m.log), m)
  {
  }

  lemma SnapshotReached(b: Base, env: Env, m: Machine)
    requires Reached(b, m)
    ensures var r := Snapshot(env, m);
      && Reached(b, r.m) && r.m.data == m.data && (r.err == NoError || r.err == SnapshotFailed)
      && (r.err == NoError ==> r.m.s.data == m.s.data)
  {
  }

  lemma SaveReached(b: Base, env: Env, m: Machine, polling: bool)
    requires Reached(b, m)
    ensures ReachedResult(b, SnapshotData(env, m))
    ensures ReachedResult(b, PersistDeferred(env, m, polling))
  {
    hide Snapshot;
    var t := m.s.(data := m.data);
    SnapshotReached(b, env, m.(s := t));
    SnapshotReached(b, env, m.(s := t.(status := Polling)));
  }

  lemma CompleteKept(q: Path, s: RunState, path: Path, hasCompensator: bool)
    requires path != q
    ensures Kept(q, s, Complete(s, path, hasCompensator))
  {
    var s' := Complete(s, path, hasCompensator);
    if IsCompleted(s, q) {
      var i :| 0 <= i < |s.completedSteps| && s.completedSteps[i].path == q;
      assert s'.completedSteps[i].path == q;
    }
  }

  lemma {:induction false} OutsideKept(cs: seq<CompletedStep>, prefix: Path, q: Path)
    requires !IsPrefix(prefix, q)
    ensures (exists e :: e in Outside(cs, prefix) && e.path == q) <==> (exists e :: e in cs && e.path == q)
  {
    if cs != [] {
      OutsideKept(cs[..|cs| - 1], prefix, q);
      assert cs == cs[..|cs| - 1] + [cs[|cs| - 1]];
    }
  }

  lemma CompletedMember(s: RunState, q: Path)
    ensures IsCompleted(s, q) <==> exists e :: e in s.completedSteps && e.path == q
  {
  }

  lemma RetainedKept(step: Step, s: RunState, path: Path, n: nat, q: Path)
    requires step.kind.Repeat? && !IsPrefix(path + [Itoa(n)], q)
    ensures Kept(q, s, Retained(step, s, path, n))
  {
    OutsideKept(s.completedSteps, path + [Itoa(n)], q);
    CompletedMember(s, q);
    CompletedMember(Retained(step, s, path, n), q);
  }

  lemma InvokeReached(b: Base, env: Env, m: Machine, call: Call)
    requires Reached(b, m)
    ensures Reached(b, Invoke(env, m, call).m)
  {
  }

  lemma FailReached(b: Base, env: Env, m: Machine, path: Path, failure: Failure, polling: bool)
    requires Reached(b, m) && |b.path| <= |path|
    ensures ReachedResult(b, CallbackFailed(env, m, path, failure, polling))
  {
    hide Snapshot, SnapshotData, PersistDeferred, Reached;
    SaveReached(b, env, m, polling);
  }

  lemma {:induction false} AttemptReached(b: Base, env: Env, m: Machine, path: Path, left: nat, delay: int, backoff: bool)
    requires Reached(b, m) && left >= 1
    ensures var a := Attempt(env, m, path, left, delay, backoff); Reached(b, a.m) && a.m.s == m.s
    decreases left
  {
    InvokeReached(b, env, m, Do(path));
    var a := Invoke(env, m, Do(path));
    if !(a.reply.Ok? || a.reply.failure == RetryAfter || left == 1) {
      var slept := a.m.(log := a.m.log + [Slept(delay)]);
      assert Reached(b, slept);
      if !env.cancelled(slept.log) {
        AttemptReached(b, env, slept, path, left - 1, NextDelay(backoff, delay), backoff);
      }
    }
  }

  lemma ActionReached(b: Base, env: Env, compensated: bool, retry: Option<Retry>, path: Path, m: Machine)
    requires Entering(b, path, m)
    ensures ReachedResult(b, ExecAction(env, compensated, retry, path, m))
  {
    hide Snapshot, SnapshotData, PersistDeferred, Attempt;
    EnteringElsewhere(b, path, m);
    AttemptReached(b, env, m, path, MaxAttempts(retry), InitialDelay(retry), Backoff(retry));
    var a := Attempt(env, m, path, MaxAttempts(retry), InitialDelay(retry), Backoff(retry));
    if a.reply.Fail? {
      FailReached(b, env, a.m, path, a.reply.failure, false);
    } else {
      CompleteKept(b.q, a.m.s, path, compensated);
      SaveReached(b, env, a.m.(s := Complete(a.m.s, path, compensated)), false);
    }
  }

  lemma PollReached(b: Base, env: Env, maxDuration: int, path: Path, m: Machine)
    requires Entering(b, path, m)
    ensures ReachedResult(b, ExecPoll(env, maxDuration, path, m))
  {
    hide Snapshot, SnapshotData, PersistDeferred;
    EnteringElsewhere(b, path, m);
    var started := if m.s.pollStartedAt.None? then env.now(m.log) else m.s.pollStartedAt.value;
    var asked := m.(s := m.s.(pollStartedAt := Some(started)));
    InvokeReached(b, env, asked, Check(path));
    var a := Invoke(env, asked, Check(path));
    if a.reply.Fail? {
      var s := if a.reply.failure == RetryAfter || env.cancelled(a.m.log) then a.m.s
               else a.m.s.(pollStartedAt := None);
      FailReached(b, env, a.m.(s := s), path, a.reply.failure, true);
    } else {
      SaveReached(b, env, a.m, true);
      var s := a.m.s.(pollStartedAt := None, status := Running);
      CompleteKept(b.q, s, path, false);
      SaveReached(b, env, a.m.(s := Complete(s, path, false)), true);
    }
  }

  lemma DecideReached(b: Base, env: Env, paths: seq<BranchPath>, path: Path, m: Machine)
    requires Entering(b, path, m)
    ensures var d := DecideBranch(env, paths, path, m);
      if d.Settled? then ReachedResult(b, d.r)
      else Reached(b, d.m) && d.m.s.currentPath == path + [paths[d.index].key] && d.m.data == d.m.s.data
  {
    hide PersistDeferred;
    EnteringElsewhere(b, path, m);
    InvokeReached(b, env, m, Decide(path));
    var a := Invoke(env, m, Decide(path));
    if a.reply.Fail? {
      FailReached(b, env, a.m, path, a.reply.failure, false);
    } else {
      var f := FindKey(paths, a.reply.key);
      if f.Some? {
        var s := Complete(a.m.s, path, false);
        CompleteKept(b.q, a.m.s, path, false);
        PrefixTransitive(b.path, path, path + [paths[f.value].key]);
        SaveReached(b, env, a.m.(s := s.(currentPath := path)), false);
        SaveReached(b, env, a.m.(s := s.(currentPath := path + [paths[f.value].key])), false);
      }
    }
  }

  /** Neither recording a position at path nor compacting below it changes what is kept at q. */
  lemma RecordKept(q: Path, base: Path, step: Step, path: Path, s: RunState, rs: RepeatState)
    requires step.kind.Repeat? && base <= path && !IsPrefix(base, q)
    ensures Kept(q, s, s.(repeatStates := s.repeatStates[path := rs]))
    ensures Kept(q, s, Retained(step, s, path, rs.iteration))
    ensures Kept(q, s, DoneState(step, path, s, rs))
    ensures Kept(q, s, NextState(step, path, s, rs))
  {
    var prefix := path + [Itoa(rs.iteration)];
    PrefixTransitive(base, path, prefix);
    PrefixTransitive(base, prefix, q);
    RetainedKept(step, s, path, rs.iteration, q);
    var kept := Retained(step, s, path, rs.iteration);
    var done := rs.(awaitingCondition := false, completed := true, startedAt := None);
    CompleteKept(q, kept.(repeatStates := kept.repeatStates[path := done], currentPath := path), path, false);
  }

  lemma FinishReached(b: Base, env: Env, step: Step, path: Path, m: Machine, rs: RepeatState)
    requires step.kind.Repeat? && Entering(b, path, m)
    ensures ReachedResult(b, FinishIteration(env, step, path, m, rs))
  {
    hide Snapshot, SnapshotData, PersistDeferred, DoneState, NextState, Retained;
    EnteringElsewhere(b, path, m);
    InvokeReached(b, env, m, Until(path, rs.iteration));
    var a := Invoke(env, m, Until(path, rs.iteration));
    RecordKept(b.q, b.path, step, path, a.m.s, rs);
    DoneAt(step, path, a.m.s, rs);
    if a.reply.Fail? {
      FailReached(b, env, a.m, path, a.reply.failure, false);
    } else if a.reply.done {
      SaveReached(b, env, a.m.(s := DoneState(step, path, a.m.s, rs)), false);
    } else {
      PrefixTransitive(b.path, path, path + [Itoa(rs.iteration + 1)]);
      SaveReached(b, env, a.m.(s := NextState(step, path, a.m.s, rs)), false);
    }
  }

  lemma DoneAt(step: Step, path: Path, s: RunState, rs: RepeatState)
    requires step.kind.Repeat?
    ensures DoneState(step, path, s, rs).currentPath == path
    ensures NextState(step, path, s, rs).currentPath == path + [Itoa(rs.iteration + 1)]
    ensures Retained(step, s, path, rs.iteration).currentPath == s.currentPath
    ensures Retained(step, s, path, rs.iteration).status == s.status
    ensures DoneState(step, path, s, rs).status == s.status && NextState(step, path, s, rs).status == s.status
  {
  }

  lemma {:induction false} CompensateReached(b: Base, env: Env, top: seq<Step>, m: Machine, i: int)
    requires Reached(b, m) && i < |m.s.completedSteps| && m.s.status == Compensating
    ensures var r := CompensateFrom(env, top, m, i);
      ReachedResult(b, r) && r.m.s.status != Running && (r.err == NoError ==> r.m.s.status == Failed)
    decreases i + 1
  {
    hide PersistDeferred, Within;
    if i < 0 {
      ReachedState(b, m, m.(s := m.s.(status := Failed, compensationIndex := -1)));
      SaveReached(b, env, m.(s := m.s.(status := Failed, compensationIndex := -1)), false);
    } else {
      var cs := m.s.completedSteps[i];
      var step := FindStep(top, cs.path);
      if cs.hasCompensator && !env.cancelled(m.log) && step.Some? && Compensable(step.value) {
        var a := Invoke(env, m, Compensate(cs.path));
        InvokeReached(b, env, m, Compensate(cs.path));
        ReachedState(b, a.m, a.m.(s := a.m.s.(compensationIndex := i)));
        ReachedState(b, a.m, a.m.(s := a.m.s.(compensationIndex := i - 1)));
        StopReached(b, env, a.m.(s := a.m.s.(compensationIndex := i)), if a.reply.Fail? then a.reply.failure else Ordinary);
        var t := a.m.(s := a.m.s.(compensationIndex := i - 1));
        SaveReached(b, env, t, false);
        if a.reply.Ok? && SnapshotData(env, t).err == NoError {
          CompensateReached(b, env, top, SnapshotData(env, t).m, i - 1);
        }
      } else if !cs.hasCompensator || !env.cancelled(m.log) {
        ReachedState(b, m, m.(s := m.s.(compensationIndex := i - 1)));
        CompensateReached(b, env, top, m.(s := m.s.(compensationIndex := i - 1)), i - 1);
      }
    }
  }

  lemma StopReached(b: Base, env: Env, m: Machine, failure: Failure)
    requires Reached(b, m) && m.s.status == Compensating
    ensures var r := StopCompensation(env, m, failure);
      ReachedResult(b, r) && r.err != NoError && r.m.s.status == Compensating
  {
    SaveReached(b, env, m, false);
  }

  lemma EnterReached(b: Base, env: Env, top: seq<Step>, m: Machine, path: Path, cause: Cause, err: Error)
    requires Reached(b, m)
    requires err.StepFailed? ==> |b.path| <= |err.path|
    ensures var r := EnterCompensation(env, top, m, path, cause, err);
      ReachedResult(b, r) && r.m.s.status != Running
  {
    hide Within, Kept;
    var t := m.(s := StartCompensation(m.s, path, cause));
    ReachedState(b, m, t);
    SaveReached(b, env, t, false);
    var r := SnapshotData(env, t);
    if r.err == NoError {
      CompensateReached(b, env, top, r.m, r.m.s.compensationIndex);
    }
  }

  lemma ReachedState(b: Base, m: Machine, m': Machine)
    requires Within(b, m) && m'.log == m.log
    requires m'.s.repeatStates == m.s.repeatStates && m'.s.completedSteps == m.s.completedSteps
    requires m'.s.status == Running ==> b.path <= m'.s.currentPath
    ensures Reached(b, m')
  {
  }

  lemma HandleReached(b: Base, env: Env, top: seq<Step>, r: Result, path: Path)
    requires ReachedResult(b, r) && r.err != NoError && b.path <= path
    ensures ReachedResult(b, HandleError(env, top, r.m, r.err, path))
  {
    hide Snapshot, EnterCompensation;
    var t := r.m.(s := r.m.s.(failedStepPath := path));
    ReachedState(b, r.m, t);
    ReachedState(b, r.m, r.m.(s := r.m.s.(data := r.m.data, currentPath := path)));
    SaveReached(b, env, t, false);
    EnterReached(b, env, top, r.m, path, if r.err.StepFailed? then r.err.cause else Plain, r.err);
  }

  lemma StartReached(b: Base, env: Env, maxDuration: int, path: Path, m: Machine)
    requires Entering(b, path, m) && m.data == m.s.data
    ensures ReachedResult(b, EnsureStarted(env, maxDuration, path, m))
    ensures var r := EnsureStarted(env, maxDuration, path, m);
      && r.m.s.currentPath == m.s.currentPath && r.m.data == r.m.s.data && (r.err == NoError || r.err == SnapshotFailed)
  {
    EnteringElsewhere(b, path, m);
    var rs := RepeatAt(m.s, path).(startedAt := Some(env.now(m.log)));
    SnapshotReached(b, env, m.(s := m.s.(repeatStates := m.s.repeatStates[path := rs])));
  }

  // ---------- scopes ----------

  lemma {:induction false} StepsReached(b: Base, env: Env, top: seq<Step>, steps: seq<Step>, i: nat, parent: Path,
                                        m: Machine, resume: Path, first: bool)
    requires Within(b, m) && b.path <= parent && !IsPrefix(b.path, b.q) && m.data == m.s.data
    ensures var r := ExecSteps(env, top, steps, i, parent, m, resume, first);
      Within(b, r.m) && Ends(b, r) && (Below(b, m) ==> Below(b, r.m))
    decreases steps, 1, |steps| - i
  {
    hide Local, HandleError;
    if i < |steps| {
      var path := parent + [steps[i].name];
      PrefixTransitive(b.path, parent, path);
      if first && path == resume && IsCompleted(m.s, path) {
        StepsReached(b, env, top, steps, i + 1, parent, m, resume, false);
      } else {
        MovedReached(b, m, path, resume, first);
        if !env.cancelled(m.log) {
          var e := Enter(m, path, resume, first);
          StepReached(b, env, top, steps[i], path, e);
          var r := ExecStep(env, top, steps[i], path, e);
          if r.err != NoError {
            HandleReached(b, env, top, r, path);
          } else if r.m.s.status == Running {
            StepsReached(b, env, top, steps, i + 1, parent, r.m, resume, false);
          }
        }
      }
    }
  }

  lemma MovedReached(b: Base, m: Machine, path: Path, resume: Path, first: bool)
    requires Within(b, m) && b.path <= path && !IsPrefix(b.path, b.q) && m.data == m.s.data
    ensures Entering(b, path, Enter(m, path, resume, first))
    ensures Reached(b, m.(s := m.s.(data := m.data, currentPath := path)))
  {
    if path < resume {
      PrefixTransitive(b.path, path, resume);
    }
  }

  lemma {:induction false} StepReached(b: Base, env: Env, top: seq<Step>, step: Step, path: Path, m: Machine)
    requires Entering(b, path, m) && m.data == m.s.data
    ensures ReachedResult(b, ExecStep(env, top, step, path, m))
    decreases step, 1
  {
    hide Local, DecideBranch, ExecAction, ExecPoll;
    match step.kind
    case Action(compensated, retry) => ActionReached(b, env, compensated, retry, path, m);
    case Poll(maxDuration) => PollReached(b, env, maxDuration, path, m);
    case Branch(paths) =>
      if |m.s.currentPath| > |path| {
        var f := FindKey(paths, m.s.currentPath[|path|]);
        if f.Some? {
          var steps, scope := paths[f.value].steps, path + [paths[f.value].key];
          PrefixTransitive(b.path, path, scope);
          StepsReached(b, env, top, steps, ChildIndex(steps, m.s, path), scope, m, m.s.currentPath, true);
        }
      } else {
        DecideReached(b, env, paths, path, m);
        var d := DecideBranch(env, paths, path, m);
        if d.Entered? {
          var scope := path + [paths[d.index].key];
          PrefixTransitive(b.path, path, scope);
          StepsReached(b, env, top, paths[d.index].steps, 0, scope, d.m, d.m.s.currentPath, true);
        }
      }
    case Repeat(_, _, _, _) => RepeatReached(b, env, top, step, path, m);
  }

  lemma {:induction false} RepeatReached(b: Base, env: Env, top: seq<Step>, step: Step, path: Path, m: Machine)
    requires step.kind.Repeat? && Entering(b, path, m) && m.data == m.s.data
    ensures ReachedResult(b, ExecStep(env, top, step, path, m))
    decreases step, 0, 1
  {
    hide Local, EnsureStarted, FinishIteration;
    var maxDuration := step.kind.maxDuration;
    EnteringElsewhere(b, path, m);
    StartReached(b, env, maxDuration, path, m);
    var r := EnsureStarted(env, maxDuration, path, m);
    var n := CurrentIteration(r.m.s, path);
    if r.err == NoError && !TimedOutAt(maxDuration, RepeatAt(r.m.s, path), env.now(r.m.log)) && n.Some? {
      var rs := RepeatAt(r.m.s, path).(iteration := n.value, completed := false);
      if rs.awaitingCondition {
        RepeatKept(b, path, r.m, rs);
        FinishReached(b, env, step, path, WithRepeat(r.m, path, rs), rs);
      } else {
        IterationReached(b, env, top, step, path, r.m, rs);
      }
    }
  }

  lemma RepeatKept(b: Base, path: Path, m: Machine, rs: RepeatState)
    requires Entering(b, path, m)
    ensures Entering(b, path, WithRepeat(m, path, rs))
  {
    EnteringElsewhere(b, path, m);
  }

  lemma {:induction false} IterationReached(b: Base, env: Env, top: seq<Step>, step: Step, path: Path, m: Machine,
                                            rs: RepeatState)
    requires step.kind.Repeat? && Entering(b, path, m) && m.data == m.s.data
    ensures ReachedResult(b, RunIteration(env, top, step, path, m, rs))
    decreases step, 0, 0
  {
    hide Local, FinishIteration;
    var steps, scope := step.kind.steps, path + [Itoa(rs.iteration)];
    var i := ChildIndex(steps, m.s, path);
    RepeatKept(b, path, m, rs);
    var e := WithRepeat(m, path, rs);
    PrefixTransitive(b.path, path, scope);
    StepsReached(b, env, top, steps, i, scope, e, e.s.currentPath, true);
    var c := ExecScope(env, top, steps, i, scope, e);
    if c.err == NoError && c.m.s.status == Running {
      var due := rs.(awaitingCondition := true);
      PrefixTransitive(b.path, path, b.q);
      BaseReached(b.q, path, e);
      StepsReached(Base(b.q, path, e.s, e.log), env, top, steps, i, scope, e, e.s.currentPath, true);
      RepeatKept(b, path, c.m, due);
      FinishReached(b, env, step, path, WithRepeat(c.m, path, due), due);
    }
  }
}
