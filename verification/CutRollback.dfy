/**
 * Cutting an execution at a snapshot taken during rollback, and compensating from the saved state
 * instead: the same compensators are called from there on, and the end is the same.
 */
module CutRollback {
  import opened Options
  import opened Decimal
  import opened Definition
  import opened State
  import opened Executor
  import opened Journal
  import opened FailStop
  import opened Footprint
  import opened Lockstep

  /** A fresh process that loaded d. */
  ghost predicate Restarted(env: Env, d: RunState, m': Machine) {
    Twin(env, d, m'.s) && m'.data == d.data
  }

  /** Compares what follows event k of a result with what m' goes on to do. */
  function FromCut(env: Env, r: Result, k: nat, m': Machine): Pair
    requires k < |r.m.log|
  {
    Pair(env, Calls(r.m.log[..k + 1]), Calls(m'.log), true, true, None)
  }

  predicate Halts(err: Error) {
    err == Continue || err == CompensationFailed
  }

  /** The run itself stopped at event k, expecting to be called again. */
  predicate Halted(r: Result, k: nat) {
    k + 1 == |r.m.log| && Halts(r.err)
  }

  // ---------- logs ----------

  lemma PrefixEvent(x: Log, y: Log, k: nat)
    requires x <= y && k < |x|
    ensures y[k] == x[k] && y[..k + 1] == x[..k + 1]
  {
    assert x == y[..|x|];
  }

  lemma StopsGrow(log: Log, r: Result)
    requires Stops(log, r)
    ensures log <= r.m.log
  {
    if r.err == SnapshotFailed {
      LogsGrow(log, r.m.log[..|r.m.log| - 1], r.m.log);
    }
  }

  lemma StepsGrow(env: Env, top: seq<Step>, steps: seq<Step>, i: nat, parent: Path, m: Machine,
                  resume: Path, first: bool)
    ensures m.log <= ExecSteps(env, top, steps, i, parent, m, resume, first).m.log
  {
    StepsStop(env, top, steps, i, parent, m, resume, first);
    StopsGrow(m.log, ExecSteps(env, top, steps, i, parent, m, resume, first));
  }

  lemma StepGrows(env: Env, top: seq<Step>, step: Step, path: Path, m: Machine)
    ensures m.log <= ExecStep(env, top, step, path, m).m.log
  {
    StepStops(env, top, step, path, m);
    StopsGrow(m.log, ExecStep(env, top, step, path, m));
  }

  lemma CompensateGrows(env: Env, top: seq<Step>, m: Machine, i: int)
    requires i < |m.s.completedSteps|
    ensures m.log <= CompensateFrom(env, top, m, i).m.log
  {
    CompensateStops(env, top, m, i);
    StopsGrow(m.log, CompensateFrom(env, top, m, i));
  }

  // ---------- going forward saves no rollback ----------

  /** Every state saved from one log to the other is a running one. */
  ghost predicate Forward(from: Log, to: Log) {
    from <= to && forall k :: |from| <= k < |to| && to[k].Saved? ==> to[k].state.status == Running
  }

  lemma SaveForward(env: Env, from: Log, m: Machine, path: Path, failure: Failure)
    requires Forward(from, m.log) && m.s.status == Running
    ensures Forward(from, Snapshot(env, m).m.log) && Forward(from, SnapshotData(env, m).m.log)
    ensures Forward(from, PersistDeferred(env, m, false).m.log)
    ensures Forward(from, CallbackFailed(env, m, path, failure, false).m.log)
  {
  }

  /** Attempts save nothing and leave the state alone. */
  lemma {:induction false} AttemptSavesNothing(env: Env, m: Machine, path: Path, left: nat, delay: int, backoff: bool)
    requires left >= 1
    ensures var a := Attempt(env, m, path, left, delay, backoff);
      && m.log <= a.m.log && a.m.s == m.s
      && forall k :: |m.log| <= k < |a.m.log| ==> !a.m.log[k].Saved?
    decreases left
  {
    var a := Invoke(env, m, Do(path));
    if !(a.reply.Ok? || a.reply.failure == RetryAfter || left == 1) {
      var slept := a.m.(log := a.m.log + [Slept(delay)]);
      if !env.cancelled(slept.log) {
        AttemptSavesNothing(env, slept, path, left - 1, NextDelay(backoff, delay), backoff);
        LogsGrow(m.log, slept.log, Attempt(env, slept, path, left - 1, NextDelay(backoff, delay), backoff).m.log);
      }
    }
  }

  lemma ActionForward(env: Env, compensated: bool, retry: Option<Retry>, path: Path, m: Machine)
    requires m.s.status == Running
    ensures Forward(m.log, ExecAction(env, compensated, retry, path, m).m.log)
  {
    hide Attempt;
    AttemptSavesNothing(env, m, path, MaxAttempts(retry), InitialDelay(retry), Backoff(retry));
    var a := Attempt(env, m, path, MaxAttempts(retry), InitialDelay(retry), Backoff(retry));
    SaveForward(env, m.log, a.m, path, if a.reply.Fail? then a.reply.failure else Ordinary);
    SaveForward(env, m.log, a.m.(s := Complete(a.m.s, path, compensated)), path, Ordinary);
  }

  /** A waiting poll is saved last, and the run yields. */
  lemma PollYields(env: Env, maxDuration: int, path: Path, m: Machine, k: nat)
    requires Steady(env) && m.s.status == Running
    requires var r := ExecPoll(env, maxDuration, path, m);
      |m.log| <= k < |r.m.log| && r.m.log[k].Saved? && r.m.log[k].state.status != Running
    ensures var r := ExecPoll(env, maxDuration, path, m);
      k + 1 == |r.m.log| && r.err == Continue && r.m.s.status == Polling
  {
  }

  lemma DecideForward(env: Env, paths: seq<BranchPath>, path: Path, m: Machine)
    requires m.s.status == Running
    ensures var d := DecideBranch(env, paths, path, m);
      if d.Entered? then Forward(m.log, d.m.log) && d.m.s.status == Running else Forward(m.log, d.r.m.log)
  {
  }

  lemma FinishForward(env: Env, step: Step, path: Path, m: Machine, rs: RepeatState)
    requires m.s.status == Running && step.kind.Repeat?
    ensures Forward(m.log, FinishIteration(env, step, path, m, rs).m.log)
  {
    var a := Invoke(env, m, Until(path, rs.iteration));
    SaveForward(env, m.log, a.m, path, if a.reply.Fail? then a.reply.failure else Ordinary);
    SaveForward(env, m.log, a.m.(s := DoneState(step, path, a.m.s, rs)), path, Ordinary);
    SaveForward(env, m.log, a.m.(s := NextState(step, path, a.m.s, rs)), path, Ordinary);
  }

  lemma StartForward(env: Env, maxDuration: int, path: Path, m: Machine)
    requires m.s.status == Running
    ensures var r := EnsureStarted(env, maxDuration, path, m);
      Forward(m.log, r.m.log) && r.m.s.status == Running
  {
  }

  // ---------- compensation ----------

  lemma {:induction false} CompensateCut(env: Env, top: seq<Step>, m: Machine, i: int, k: nat, m': Machine)
    requires Steady(env) && i < |m.s.completedSteps|
    requires var r := CompensateFrom(env, top, m, i);
      && |m.log| <= k < |r.m.log| && r.m.log[k].Saved? && r.m.log[k].state.status == Compensating
      && !Halted(r, k) && Restarted(env, r.m.log[k].state, m')
    ensures m'.s.compensationIndex < |m'.s.completedSteps|
    ensures var r := CompensateFrom(env, top, m, i);
      TwinResults(FromCut(env, r, k, m'), r, CompensateFrom(env, top, m', m'.s.compensationIndex))
    decreases i + 1, 1
  {
    hide Paired, PersistDeferred;
    if i >= 0 {
      var cs := m.s.completedSteps[i];
      var step := FindStep(top, cs.path);
      if !cs.hasCompensator || step.None? || !step.value.kind.Action? || !step.value.kind.compensated {
        CompensateCut(env, top, m.(s := m.s.(compensationIndex := i - 1)), i - 1, k, m');
      } else {
        CompensatorCut(env, top, m, i, k, m');
      }
    }
  }

  /** The same, when the entry at i is to be compensated. */
  lemma CompensatorCut(env: Env, top: seq<Step>, m: Machine, i: int, k: nat, m': Machine)
    requires Steady(env) && 0 <= i < |m.s.completedSteps|
    requires var cs := m.s.completedSteps[i]; var step := FindStep(top, cs.path);
      cs.hasCompensator && step.Some? && step.value.kind.Action? && step.value.kind.compensated
    requires var r := CompensateFrom(env, top, m, i);
      && |m.log| <= k < |r.m.log| && r.m.log[k].Saved? && r.m.log[k].state.status == Compensating
      && !Halted(r, k) && Restarted(env, r.m.log[k].state, m')
    ensures m'.s.compensationIndex < |m'.s.completedSteps|
    ensures var r := CompensateFrom(env, top, m, i);
      TwinResults(FromCut(env, r, k, m'), r, CompensateFrom(env, top, m', m'.s.compensationIndex))
    decreases i + 1, 0
  {
    hide Paired, PersistDeferred, FindStep, StopCompensation;
    CompensatorSucceeded(env, top, m, i, k);
    var a := Invoke(env, m, Compensate(m.s.completedSteps[i].path));
    var r := SnapshotData(env, a.m.(s := a.m.s.(compensationIndex := i - 1)));
    CompensateGrows(env, top, r.m, i - 1);
    var whole := CompensateFrom(env, top, r.m, i - 1);
    if k + 1 == |r.m.log| {
      CutHere(env, r.m, whole, m');
      CompensateTwins(FromCut(env, whole, k, m'), top, r.m, m', i - 1);
    } else {
      CompensateCut(env, top, r.m, i - 1, k, m');
    }
  }

  lemma CompensatorSucceeded(env: Env, top: seq<Step>, m: Machine, i: int, k: nat)
    requires Steady(env) && 0 <= i < |m.s.completedSteps|
    requires var cs := m.s.completedSteps[i]; var step := FindStep(top, cs.path);
      cs.hasCompensator && step.Some? && step.value.kind.Action? && step.value.kind.compensated
    requires var r := CompensateFrom(env, top, m, i);
      |m.log| <= k < |r.m.log| && r.m.log[k].Saved? && !Halted(r, k)
    ensures Invoke(env, m, Compensate(m.s.completedSteps[i].path)).reply.Ok?
    ensures |m.log| < k
  {
    hide FindStep, StopCompensation;
    var a := Invoke(env, m, Compensate(m.s.completedSteps[i].path));
    if a.reply.Fail? {
      StopHalts(env, a.m.(s := a.m.s.(compensationIndex := i)), a.reply.failure);
    } else {
      var r := SnapshotData(env, a.m.(s := a.m.s.(compensationIndex := i - 1)));
      CompensateGrows(env, top, r.m, i - 1);
    }
  }

  lemma StopHalts(env: Env, m: Machine, failure: Failure)
    requires Steady(env)
    ensures var r := StopCompensation(env, m, failure);
      |r.m.log| == |m.log| + 1 && m.log <= r.m.log && Halts(r.err)
  {
  }

  /** Cut exactly here: the restarted machine is a twin of the one that goes on. */
  lemma CutHere(env: Env, m: Machine, whole: Result, m': Machine)
    requires |m.log| > 0 && m.log <= whole.m.log
    requires m.data == m.s.data && Restarted(env, m.s, m')
    ensures Twins(FromCut(env, whole, |m.log| - 1, m'), m, m')
  {
    assert whole.m.log[..|m.log|] == m.log;
  }

  /** A rollback saves nothing but rollback states. */
  lemma {:induction false} CompensateSaves(env: Env, top: seq<Step>, m: Machine, i: int, k: nat)
    requires i < |m.s.completedSteps| && m.s.status == Compensating
    requires var r := CompensateFrom(env, top, m, i); |m.log| <= k < |r.m.log| && r.m.log[k].Saved?
    ensures var s := CompensateFrom(env, top, m, i).m.log[k].state; s.status == Compensating || s.status == Failed
    decreases i + 1
  {
    hide PersistDeferred;
    if i >= 0 {
      var cs := m.s.completedSteps[i];
      var step := FindStep(top, cs.path);
      if cs.hasCompensator && !env.cancelled(m.log) && step.Some? && Compensable(step.value) {
        var a := Invoke(env, m, Compensate(cs.path));
        if a.reply.Fail? {
          StopSaves(env, a.m.(s := a.m.s.(compensationIndex := i)), a.reply.failure, k);
        } else {
          var r := SnapshotData(env, a.m.(s := a.m.s.(compensationIndex := i - 1)));
          if r.err == NoError {
            CompensateGrows(env, top, r.m, i - 1);
            if k >= |r.m.log| {
              CompensateSaves(env, top, r.m, i - 1, k);
            }
          }
        }
      } else if !cs.hasCompensator || !env.cancelled(m.log) {
        CompensateSaves(env, top, m.(s := m.s.(compensationIndex := i - 1)), i - 1, k);
      }
    }
  }

  lemma StopSaves(env: Env, m: Machine, failure: Failure, k: nat)
    requires m.s.status == Compensating && k < |StopCompensation(env, m, failure).m.log|
    ensures var r := StopCompensation(env, m, failure);
      && m.log <= r.m.log
      && (k >= |m.log| && r.m.log[k].Saved? ==> r.m.log[k].state.status == Compensating)
  {
  }

  // ---------- failures inside scopes ----------

  /** Event k of r, an execution from m, is a snapshot of a rollback or of a waiting poll. */
  ghost predicate UndoCut(env: Env, m: Machine, r: Result, k: nat, m': Machine) {
    && Steady(env) && m.s.status == Running
    && |m.log| <= k < |r.m.log| && r.m.log[k].Saved?
    && (r.m.log[k].state.status == Compensating || r.m.log[k].state.status == Polling)
    && Restarted(env, r.m.log[k].state, m')
  }

  /** The poll ended the run; a rollback is carried on from the saved state to the same end. */
  ghost predicate Undone(env: Env, top: seq<Step>, r: Result, k: nat, m': Machine) {
    && k < |r.m.log| && r.m.s.status != Running
    && (m'.s.status == Polling ==> Halted(r, k))
    && (!Halted(r, k) ==>
          && m'.s.compensationIndex < |m'.s.completedSteps|
          && var c := CompensateFrom(env, top, m', m'.s.compensationIndex);
          && Twins(FromCut(env, r, k, m'), r.m, c.m)
          && (Halts(r.err) || Halts(c.err) ==> c.err == r.err))
  }

  lemma EnterCut(env: Env, top: seq<Step>, m: Machine, path: Path, cause: Cause, err: Error, k: nat, m': Machine)
    requires UndoCut(env, m, EnterCompensation(env, top, m, path, cause, err), k, m')
    requires cause.TimedOut? ==> err.StepFailed?
    ensures Undone(env, top, EnterCompensation(env, top, m, path, cause, err), k, m')
  {
    hide Paired, Within, SameRecords, SameShape, Clocked, PersistDeferred, Calls, Twins, CompensateFrom;
    var r := EnterCompensation(env, top, m, path, cause, err);
    var t := SnapshotData(env, m.(s := StartCompensation(m.s, path, cause)));
    var last := |m.s.completedSteps| - 1;
    var c := CompensateFrom(env, top, t.m, last);
    CompensateGrows(env, top, t.m, last);
    CompensateLeaves(env, top, t.m, last);
    if k > |m.log| {
      CompensateSaves(env, top, t.m, last, k);
    }
    if !Halted(r, k) {
      if k == |m.log| {
        CutAtStart(env, top, t.m, last, m');
      } else {
        CompensateCut(env, top, t.m, last, k, m');
      }
    }
  }

  /** Cut at the snapshot with which the rollback begins. */
  lemma CutAtStart(env: Env, top: seq<Step>, m: Machine, i: int, m': Machine)
    requires Steady(env) && |m.log| > 0 && i < |m.s.completedSteps| && m.data == m.s.data && Restarted(env, m.s, m')
    ensures var c := CompensateFrom(env, top, m, i);
      && |m.log| <= |c.m.log| && i < |m'.s.completedSteps|
      && TwinResults(FromCut(env, c, |m.log| - 1, m'), c, CompensateFrom(env, top, m', i))
  {
    hide Twins, CompensateFrom, FromCut;
    var c := CompensateFrom(env, top, m, i);
    CompensateGrows(env, top, m, i);
    CutHere(env, m, c, m');
    CutPair(env, c, |m.log| - 1, m');
    CompensateTwins(FromCut(env, c, |m.log| - 1, m'), top, m, m', i);
  }

  lemma CutPair(env: Env, r: Result, k: nat, m': Machine)
    requires k < |r.m.log|
    ensures FromCut(env, r, k, m').env == env
  {
  }

  /** Compensation never returns to running. */
  lemma CompensateLeaves(env: Env, top: seq<Step>, m: Machine, i: int)
    requires i < |m.s.completedSteps| && m.s.status == Compensating
    ensures CompensateFrom(env, top, m, i).m.s.status != Running
  {
    BaseReached([], [], m);
    CompensateReached(Base([], [], m.s, m.log), env, top, m, i);
  }

  lemma HandleCut(env: Env, top: seq<Step>, r: Result, path: Path, k: nat, m': Machine)
    requires r.err != NoError
    requires UndoCut(env, r.m, HandleError(env, top, r.m, r.err, path), k, m')
    ensures Undone(env, top, HandleError(env, top, r.m, r.err, path), k, m')
  {
    hide EnterCompensation, Undone;
    if r.err != SnapshotFailed && r.err != Continue && !(r.err.StepFailed? && |r.err.path| > |path|)
       && !(r.err.StepFailed? && r.err.cause.Uncompensated?) {
      EnterCut(env, top, r.m, path, if r.err.StepFailed? then r.err.cause else Plain, r.err, k, m');
    }
  }

  lemma {:induction false} StepsUndo(env: Env, top: seq<Step>, steps: seq<Step>, i: nat, parent: Path, m: Machine,
                                     resume: Path, first: bool, k: nat, m': Machine)
    requires UndoCut(env, m, ExecSteps(env, top, steps, i, parent, m, resume, first), k, m')
    ensures Undone(env, top, ExecSteps(env, top, steps, i, parent, m, resume, first), k, m')
    decreases steps, 1, |steps| - i
  {
    hide Twins, Restarted, CompensateFrom, FromCut;
    if i < |steps| {
      var path := parent + [steps[i].name];
      if first && path == resume && IsCompleted(m.s, path) {
        StepsUndo(env, top, steps, i + 1, parent, m, resume, false, k, m');
      } else {
        var e := Enter(m, path, resume, first);
        var r := ExecStep(env, top, steps[i], path, e);
        if k < |r.m.log| {
          StepsLogs(env, top, steps, i, parent, m, resume, first);
          PrefixEvent(r.m.log, ExecSteps(env, top, steps, i, parent, m, resume, first).m.log, k);
          StepUndo(env, top, steps[i], path, e, k, m');
          if r.err != NoError {
            HandleSame(env, top, r, path);
          }
        } else if r.err != NoError {
          if r.m.s.status != Running {
            HandleSame(env, top, r, path);
          } else {
            HandleCut(env, top, r, path, k, m');
          }
        } else if r.m.s.status == Running {
          StepsUndo(env, top, steps, i + 1, parent, r.m, resume, false, k, m');
        }
      }
    }
  }

  /** A failure that reaches a scope after the run stopped running changes nothing there. */
  lemma HandleSame(env: Env, top: seq<Step>, r: Result, path: Path)
    requires Steady(env) && r.err != NoError && r.m.s.status != Running
    ensures HandleError(env, top, r.m, r.err, path) == r
  {
  }

  /** The log of a step is part of the log of its scope. */
  lemma StepsLogs(env: Env, top: seq<Step>, steps: seq<Step>, i: nat, parent: Path, m: Machine, resume: Path, first: bool)
    requires i < |steps| && Steady(env)
    requires var path := parent + [steps[i].name]; !(first && path == resume && IsCompleted(m.s, path))
    ensures var path := parent + [steps[i].name];
      ExecStep(env, top, steps[i], path, Enter(m, path, resume, first)).m.log
        <= ExecSteps(env, top, steps, i, parent, m, resume, first).m.log
  {
    var path := parent + [steps[i].name];
    var r := ExecStep(env, top, steps[i], path, Enter(m, path, resume, first));
    if r.err != NoError {
      HandleGrows(env, top, r, path);
    } else if r.m.s.status == Running {
      StepsGrow(env, top, steps, i + 1, parent, r.m, resume, false);
    }
  }

  lemma HandleGrows(env: Env, top: seq<Step>, r: Result, path: Path)
    requires r.err != NoError
    ensures r.m.log <= HandleError(env, top, r.m, r.err, path).m.log
  {
    hide EnterCompensation;
    if r.err != SnapshotFailed {
      HandleStops(env, top, r.m.log, r, path);
      StopsGrow(r.m.log, HandleError(env, top, r.m, r.err, path));
    }
  }

  lemma {:induction false} StepUndo(env: Env, top: seq<Step>, step: Step, path: Path, m: Machine, k: nat, m': Machine)
    requires UndoCut(env, m, ExecStep(env, top, step, path, m), k, m')
    ensures Undone(env, top, ExecStep(env, top, step, path, m), k, m')
    decreases step, 1
  {
    hide Twins, Restarted, CompensateFrom, FromCut, ExecAction, ExecPoll, DecideBranch, Undone;
    match step.kind
    case Action(compensated, retry) => ActionForward(env, compensated, retry, path, m);
    case Poll(maxDuration) => PollUndo(env, top, step, path, m, k, m');
    case Branch(paths) =>
      if |m.s.currentPath| > |path| {
        var f := FindKey(paths, m.s.currentPath[|path|]);
        if f.Some? {
          var steps := paths[f.value].steps;
          StepsUndo(env, top, steps, ChildIndex(steps, m.s, path), path + [paths[f.value].key], m,
                    m.s.currentPath, true, k, m');
        }
      } else {
        DecideForward(env, paths, path, m);
        var d := DecideBranch(env, paths, path, m);
        if d.Entered? {
          var scope := path + [paths[d.index].key];
          StepsGrow(env, top, paths[d.index].steps, 0, scope, d.m, d.m.s.currentPath, true);
          ForwardLater(m.log, d.m.log, ExecStep(env, top, step, path, m).m.log, k);
          StepsUndo(env, top, paths[d.index].steps, 0, scope, d.m, d.m.s.currentPath, true, k, m');
        }
      }
    case Repeat(_, _, _, _) => RepeatUndo(env, top, step, path, m, k, m');
  }

  lemma PollUndo(env: Env, top: seq<Step>, step: Step, path: Path, m: Machine, k: nat, m': Machine)
    requires step.kind.Poll? && UndoCut(env, m, ExecStep(env, top, step, path, m), k, m')
    ensures Undone(env, top, ExecStep(env, top, step, path, m), k, m')
  {
    hide ExecPoll, CompensateFrom, Twins;
    PollYields(env, step.kind.maxDuration, path, m, k);
  }

  /** Such a snapshot comes after everything that only went forward. */
  lemma ForwardLater(from: Log, mid: Log, log: Log, k: nat)
    requires Forward(from, mid) && mid <= log
    requires |from| <= k < |log| && log[k].Saved? && log[k].state.status != Running
    ensures |mid| <= k
  {
    assert forall j :: |from| <= j < |mid| ==> log[j] == mid[j];
  }

  lemma {:induction false} RepeatUndo(env: Env, top: seq<Step>, step: Step, path: Path, m: Machine, k: nat, m': Machine)
    requires step.kind.Repeat?
    requires UndoCut(env, m, ExecStep(env, top, step, path, m), k, m')
    ensures Undone(env, top, ExecStep(env, top, step, path, m), k, m')
    decreases step, 0, 1
  {
    hide Twins, Restarted, CompensateFrom, FromCut, Undone, EnsureStarted, FinishIteration;
    var maxDuration := step.kind.maxDuration;
    StartForward(env, maxDuration, path, m);
    var r := EnsureStarted(env, maxDuration, path, m);
    var n := CurrentIteration(r.m.s, path);
    if r.err == NoError && !TimedOutAt(maxDuration, RepeatAt(r.m.s, path), env.now(r.m.log)) && n.Some? {
      var rs := RepeatAt(r.m.s, path).(iteration := n.value, completed := false);
      if rs.awaitingCondition {
        FinishForward(env, step, path, WithRepeat(r.m, path, rs), rs);
        ForwardLater(m.log, r.m.log, FinishIteration(env, step, path, WithRepeat(r.m, path, rs), rs).m.log, k);
      } else {
        IterationGrows(env, top, step, path, r.m, rs);
        ForwardLater(m.log, r.m.log, RunIteration(env, top, step, path, r.m, rs).m.log, k);
        IterationUndo(env, top, step, path, r.m, rs, k, m');
      }
    }
  }

  lemma IterationGrows(env: Env, top: seq<Step>, step: Step, path: Path, m: Machine, rs: RepeatState)
    requires step.kind.Repeat?
    ensures m.log <= RunIteration(env, top, step, path, m, rs).m.log
  {
    IterationStops(env, top, step, path, m, rs);
    StopsGrow(m.log, RunIteration(env, top, step, path, m, rs));
  }

  lemma {:induction false} IterationUndo(env: Env, top: seq<Step>, step: Step, path: Path, m: Machine, rs: RepeatState,
                                         k: nat, m': Machine)
    requires step.kind.Repeat?
    requires UndoCut(env, m, RunIteration(env, top, step, path, m, rs), k, m')
    ensures Undone(env, top, RunIteration(env, top, step, path, m, rs), k, m')
    decreases step, 0, 0
  {
    hide Twins, Restarted, CompensateFrom, FromCut, FinishIteration;
    var steps, scope := step.kind.steps, path + [Itoa(rs.iteration)];
    var i, e := ChildIndex(steps, m.s, path), WithRepeat(m, path, rs);
    var c := ExecScope(env, top, steps, i, scope, e);
    StepsGrow(env, top, steps, i, scope, e, e.s.currentPath, true);
    if c.err == NoError && c.m.s.status == Running {
      var due := rs.(awaitingCondition := true);
      var f := FinishIteration(env, step, path, WithRepeat(c.m, path, due), due);
      FinishForward(env, step, path, WithRepeat(c.m, path, due), due);
      assert k < |c.m.log|;
      PrefixEvent(c.m.log, f.m.log, k);
    }
    StepsUndo(env, top, steps, i, scope, e, e.s.currentPath, true, k, m');
  }
}
