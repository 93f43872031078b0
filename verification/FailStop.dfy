/**
 * Fail-stop persistence, for any definition, state and environment whatsoever: once the store
 * refuses a snapshot, the run that asked for it does nothing more, at any depth.
 */
module FailStop {
  import opened Options
  import opened Decimal
  import opened Definition
  import opened State
  import opened Executor
  import opened Journal

  /** log' extends log and nothing was refused in between. */
  ghost predicate Clean(log: Log, log': Log) {
    log <= log' && forall k :: |log| <= k < |log'| ==> !log'[k].Refused?
  }

  /** A refusal is the last thing that happened, exactly when it is the error returned. */
  ghost predicate Stops(log: Log, r: Result) {
    if r.err == SnapshotFailed then
      && |log| < |r.m.log| && r.m.log[|r.m.log| - 1].Refused?
      && Clean(log, r.m.log[..|r.m.log| - 1])
    else Clean(log, r.m.log)
  }

  lemma CleanTransitive(a: Log, b: Log, c: Log)
    requires Clean(a, b) && Clean(b, c)
    ensures Clean(a, c)
  {
    LogsGrow(a, b, c);
    forall k | |a| <= k < |c| ensures !c[k].Refused? {
      if k < |b| { assert c[k] == b[k]; }
    }
  }

  lemma StopsAfter(a: Log, b: Log, r: Result)
    requires Clean(a, b) && Stops(b, r)
    ensures Stops(a, r)
  {
    if r.err == SnapshotFailed {
      CleanTransitive(a, b, r.m.log[..|r.m.log| - 1]);
    } else {
      CleanTransitive(a, b, r.m.log);
    }
  }

  lemma CleanSelf(log: Log)
    ensures Clean(log, log)
  {
  }

  lemma SnapshotStops(env: Env, m: Machine)
    ensures Stops(m.log, Snapshot(env, m))
  {
    var r := Snapshot(env, m);
    if r.err == SnapshotFailed {
      assert r.m.log[..|r.m.log| - 1] == m.log;
    }
  }

  lemma SavesStop(env: Env, m: Machine, polling: bool)
    ensures Stops(m.log, SnapshotData(env, m)) && Stops(m.log, PersistDeferred(env, m, polling))
  {
    SnapshotStops(env, m.(s := m.s.(data := m.data)));
    var s := if polling then m.s.(status := Polling) else m.s;
    SnapshotStops(env, m.(s := s.(data := m.data)));
  }

  lemma InvokeClean(env: Env, m: Machine, call: Call)
    ensures Clean(m.log, Invoke(env, m, call).m.log)
  {
  }

  lemma {:induction false} AttemptClean(env: Env, m: Machine, path: Path, left: nat, delay: int, backoff: bool)
    requires left >= 1
    ensures Clean(m.log, Attempt(env, m, path, left, delay, backoff).m.log)
    decreases left
  {
    var a := Invoke(env, m, Do(path));
    InvokeClean(env, m, Do(path));
    if !(a.reply.Ok? || a.reply.failure == RetryAfter || left == 1) {
      var slept := a.m.(log := a.m.log + [Slept(delay)]);
      CleanTransitive(m.log, a.m.log, slept.log);
      if !env.cancelled(slept.log) {
        AttemptClean(env, slept, path, left - 1, NextDelay(backoff, delay), backoff);
        CleanTransitive(m.log, slept.log,
          Attempt(env, slept, path, left - 1, NextDelay(backoff, delay), backoff).m.log);
      }
    }
  }

  /** A save, a deferral or a plain failure after calls that refused nothing. */
  lemma EndStops(env: Env, log: Log, m: Machine, path: Path, failure: Failure, polling: bool)
    requires Clean(log, m.log)
    ensures Stops(log, SnapshotData(env, m))
    ensures Stops(log, PersistDeferred(env, m, polling))
    ensures Stops(log, CallbackFailed(env, m, path, failure, polling))
  {
    SavesStop(env, m, polling);
    StopsAfter(log, m.log, SnapshotData(env, m));
    StopsAfter(log, m.log, PersistDeferred(env, m, polling));
  }

  lemma ActionStops(env: Env, compensated: bool, retry: Option<Retry>, path: Path, m: Machine)
    ensures Stops(m.log, ExecAction(env, compensated, retry, path, m))
  {
    AttemptClean(env, m, path, MaxAttempts(retry), InitialDelay(retry), Backoff(retry));
    var a := Attempt(env, m, path, MaxAttempts(retry), InitialDelay(retry), Backoff(retry));
    if a.reply.Fail? {
      EndStops(env, m.log, a.m, path, a.reply.failure, false);
    } else {
      EndStops(env, m.log, a.m.(s := Complete(a.m.s, path, compensated)), path, Ordinary, false);
    }
  }

  lemma PollStops(env: Env, maxDuration: int, path: Path, m: Machine)
    ensures Stops(m.log, ExecPoll(env, maxDuration, path, m))
  {
    var started := if m.s.pollStartedAt.None? then env.now(m.log) else m.s.pollStartedAt.value;
    var asked := m.(s := m.s.(pollStartedAt := Some(started)));
    var a := Invoke(env, asked, Check(path));
    InvokeClean(env, asked, Check(path));
    if a.reply.Fail? {
      var s := if a.reply.failure == RetryAfter || env.cancelled(a.m.log) then a.m.s
               else a.m.s.(pollStartedAt := None);
      EndStops(env, m.log, a.m.(s := s), path, a.reply.failure, true);
    } else {
      EndStops(env, m.log, a.m, path, Ordinary, true);
      var s := a.m.s.(pollStartedAt := None, status := Running);
      EndStops(env, m.log, a.m.(s := Complete(s, path, false)), path, Ordinary, true);
    }
  }

  lemma DecideStops(env: Env, paths: seq<BranchPath>, path: Path, m: Machine)
    ensures var d := DecideBranch(env, paths, path, m);
      if d.Settled? then Stops(m.log, d.r) else Clean(m.log, d.m.log)
  {
    var a := Invoke(env, m, Decide(path));
    InvokeClean(env, m, Decide(path));
    if a.reply.Fail? {
      EndStops(env, m.log, a.m, path, a.reply.failure, false);
    } else {
      var f := FindKey(paths, a.reply.key);
      if f.Some? {
        var s := Complete(a.m.s, path, false);
        EndStops(env, m.log, a.m.(s := s.(currentPath := path)), path, Ordinary, false);
        EndStops(env, m.log, a.m.(s := s.(currentPath := path + [paths[f.value].key])), path, Ordinary, false);
      }
    }
  }

  lemma FinishStops(env: Env, step: Step, path: Path, m: Machine, rs: RepeatState)
    requires step.kind.Repeat?
    ensures Stops(m.log, FinishIteration(env, step, path, m, rs))
  {
    var a := Invoke(env, m, Until(path, rs.iteration));
    InvokeClean(env, m, Until(path, rs.iteration));
    if a.reply.Fail? {
      EndStops(env, m.log, a.m, path, a.reply.failure, false);
    } else if a.reply.done {
      EndStops(env, m.log, a.m.(s := DoneState(step, path, a.m.s, rs)), path, Ordinary, false);
    } else {
      EndStops(env, m.log, a.m.(s := NextState(step, path, a.m.s, rs)), path, Ordinary, false);
    }
  }

  lemma {:induction false} CompensateStops(env: Env, top: seq<Step>, m: Machine, i: int)
    requires i < |m.s.completedSteps|
    ensures Stops(m.log, CompensateFrom(env, top, m, i))
    decreases i + 1
  {
    hide Clean, PersistDeferred;
    CleanSelf(m.log);
    if i < 0 {
      SavesStop(env, m.(s := m.s.(status := Failed, compensationIndex := -1)), false);
    } else {
      var cs := m.s.completedSteps[i];
      var skipped := m.(s := m.s.(compensationIndex := i - 1));
      var step := FindStep(top, cs.path);
      if !cs.hasCompensator {
        CompensateStops(env, top, skipped, i - 1);
      } else if !env.cancelled(m.log) {
        if step.None? || !step.value.kind.Action? || !step.value.kind.compensated {
          CompensateStops(env, top, skipped, i - 1);
        } else {
          var a := Invoke(env, m, Compensate(cs.path));
          InvokeClean(env, m, Compensate(cs.path));
          EndStops(env, m.log, a.m.(s := a.m.s.(compensationIndex := i)), cs.path, Ordinary, false);
          var done := a.m.(s := a.m.s.(compensationIndex := i - 1));
          EndStops(env, m.log, done, cs.path, Ordinary, false);
          var r := SnapshotData(env, done);
          if a.reply.Ok? && r.err == NoError {
            CompensateStops(env, top, r.m, i - 1);
            StopsAfter(m.log, r.m.log, CompensateFrom(env, top, r.m, i - 1));
          }
        }
      }
    }
  }

  lemma EnterStops(env: Env, top: seq<Step>, m: Machine, path: Path, cause: Cause, err: Error)
    requires err != SnapshotFailed
    ensures Stops(m.log, EnterCompensation(env, top, m, path, cause, err))
  {
    var m2 := m.(s := StartCompensation(m.s, path, cause));
    SavesStop(env, m2, false);
    var r := SnapshotData(env, m2);
    if r.err == NoError {
      CompensateStops(env, top, r.m, r.m.s.compensationIndex);
      StopsAfter(m.log, r.m.log, CompensateFrom(env, top, r.m, r.m.s.compensationIndex));
    }
  }

  lemma HandleStops(env: Env, top: seq<Step>, log: Log, r: Result, path: Path)
    requires r.err != NoError && Stops(log, r)
    ensures Stops(log, HandleError(env, top, r.m, r.err, path))
  {
    if r.err != SnapshotFailed {
      SavesStop(env, r.m.(s := r.m.s.(failedStepPath := path)), false);
      StopsAfter(log, r.m.log, SnapshotData(env, r.m.(s := r.m.s.(failedStepPath := path))));
      var cause := if r.err.StepFailed? then r.err.cause else Plain;
      EnterStops(env, top, r.m, path, cause, r.err);
      StopsAfter(log, r.m.log, EnterCompensation(env, top, r.m, path, cause, r.err));
    }
  }

  lemma {:induction false} StepsStop(env: Env, top: seq<Step>, steps: seq<Step>, i: nat, parent: Path, m: Machine,
                                     resume: Path, first: bool)
    ensures Stops(m.log, ExecSteps(env, top, steps, i, parent, m, resume, first))
    decreases steps, 1, |steps| - i
  {
    if i < |steps| {
      var path := parent + [steps[i].name];
      if first && path == resume && IsCompleted(m.s, path) {
        StepsStop(env, top, steps, i + 1, parent, m, resume, false);
      } else if !env.cancelled(m.log) {
        var e := Enter(m, path, resume, first);
        StepStops(env, top, steps[i], path, e);
        var r := ExecStep(env, top, steps[i], path, e);
        if r.err != NoError {
          HandleStops(env, top, m.log, r, path);
        } else if r.m.s.status == Running {
          StepsStop(env, top, steps, i + 1, parent, r.m, resume, false);
          StopsAfter(m.log, r.m.log, ExecSteps(env, top, steps, i + 1, parent, r.m, resume, false));
        }
      }
    }
  }

  lemma {:induction false} StepStops(env: Env, top: seq<Step>, step: Step, path: Path, m: Machine)
    ensures Stops(m.log, ExecStep(env, top, step, path, m))
    decreases step, 1
  {
    match step.kind
    case Action(compensated, retry) => ActionStops(env, compensated, retry, path, m);
    case Poll(maxDuration) => PollStops(env, maxDuration, path, m);
    case Branch(paths) =>
      if |m.s.currentPath| > |path| {
        var f := FindKey(paths, m.s.currentPath[|path|]);
        if f.Some? {
          var steps := paths[f.value].steps;
          StepsStop(env, top, steps, ChildIndex(steps, m.s, path), path + [paths[f.value].key], m,
                    m.s.currentPath, true);
        }
      } else {
        DecideStops(env, paths, path, m);
        var d := DecideBranch(env, paths, path, m);
        if d.Entered? {
          var steps, scope := paths[d.index].steps, path + [paths[d.index].key];
          StepsStop(env, top, steps, 0, scope, d.m, d.m.s.currentPath, true);
          StopsAfter(m.log, d.m.log, ExecSteps(env, top, steps, 0, scope, d.m, d.m.s.currentPath, true));
        }
      }
    case Repeat(_, _, _, _) => RepeatStops(env, top, step, path, m);
  }

  lemma {:induction false} RepeatStops(env: Env, top: seq<Step>, step: Step, path: Path, m: Machine)
    requires step.kind.Repeat?
    ensures Stops(m.log, ExecStep(env, top, step, path, m))
    decreases step, 0, 1
  {
    var maxDuration := step.kind.maxDuration;
    var r := EnsureStarted(env, maxDuration, path, m);
    StartStops(env, maxDuration, path, m);
    if r.err == NoError && !TimedOutAt(maxDuration, RepeatAt(r.m.s, path), env.now(r.m.log)) {
      var c := CurrentIteration(r.m.s, path);
      if c.Some? {
        var rs := RepeatAt(r.m.s, path).(iteration := c.value, completed := false);
        if rs.awaitingCondition {
          FinishStops(env, step, path, WithRepeat(r.m, path, rs), rs);
          StopsAfter(m.log, r.m.log, FinishIteration(env, step, path, WithRepeat(r.m, path, rs), rs));
        } else {
          IterationStops(env, top, step, path, r.m, rs);
          StopsAfter(m.log, r.m.log, RunIteration(env, top, step, path, r.m, rs));
        }
      }
    }
  }

  lemma StartStops(env: Env, maxDuration: int, path: Path, m: Machine)
    ensures Stops(m.log, EnsureStarted(env, maxDuration, path, m))
  {
    var rs := RepeatAt(m.s, path).(startedAt := Some(env.now(m.log)));
    SnapshotStops(env, m.(s := m.s.(repeatStates := m.s.repeatStates[path := rs])));
  }

  lemma {:induction false} IterationStops(env: Env, top: seq<Step>, step: Step, path: Path, m: Machine, rs: RepeatState)
    requires step.kind.Repeat?
    ensures Stops(m.log, RunIteration(env, top, step, path, m, rs))
    decreases step, 0, 0
  {
    var steps := step.kind.steps;
    var e := WithRepeat(m, path, rs);
    var i, scope := ChildIndex(steps, m.s, path), path + [Itoa(rs.iteration)];
    StepsStop(env, top, steps, i, scope, e, e.s.currentPath, true);
    var c := ExecScope(env, top, steps, i, scope, e);
    if c.err == NoError && c.m.s.status == Running {
      var due := rs.(awaitingCondition := true);
      FinishStops(env, step, path, WithRepeat(c.m, path, due), due);
      StopsAfter(m.log, c.m.log, FinishIteration(env, step, path, WithRepeat(c.m, path, due), due));
    }
  }

  /** A run stops at its first refused snapshot: nothing follows it, and it is the error returned. */
  lemma RunStops(env: Env, top: seq<Step>, s: RunState, log: Log)
    requires Loadable(s)
    ensures Stops(log, Run(env, top, s, log))
  {
    var m := Machine(s, s.data, log);
    if Valid(top) && !s.IsTerminal() && !env.cancelled(log) {
      if s.status == Compensating {
        SavesStop(env, m, false);
        var r := SnapshotData(env, m);
        if r.err == NoError {
          CompensateStops(env, top, r.m, r.m.s.compensationIndex);
          StopsAfter(log, r.m.log, CompensateFrom(env, top, r.m, r.m.s.compensationIndex));
        }
      } else {
        ForwardStops(env, top, m);
      }
    }
  }

  lemma ForwardStops(env: Env, top: seq<Step>, m: Machine)
    requires !m.s.IsTerminal() && m.s.status != Compensating && Valid(top) && !env.cancelled(m.log)
    requires m.data == m.s.data
    ensures Stops(m.log, Run(env, top, m.s, m.log))
  {
    SavesStop(env, m.(s := m.s.(status := Running)), false);
    var r := SnapshotData(env, m.(s := m.s.(status := Running)));
    if r.err == NoError {
      var start := if m.s.currentPath == [] then 0 else StartIndex(top, m.s.currentPath[0]);
      StepsStop(env, top, top, start, [], r.m, r.m.s.currentPath, true);
      var e := ExecScope(env, top, top, start, [], r.m);
      StopsAfter(m.log, r.m.log, e);
      if e.err == NoError && e.m.s.status == Running {
        SavesStop(env, e.m.(s := e.m.s.(status := Completed)), false);
        StopsAfter(m.log, e.m.log, SnapshotData(env, e.m.(s := e.m.s.(status := Completed))));
      }
    }
  }
}
