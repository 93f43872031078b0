/**
 * Cutting an execution at a snapshot taken while going forward, and picking up from the saved
 * state: the scope that was cut finds its place again, makes the same remaining calls and ends
 * the same way.
 */
module CutForward {
  import opened Options
  import opened Decimal
  import opened Definition
  import opened State
  import opened Executor
  import opened Frames
  import opened FailStop
  import opened Footprint
  import opened Places
  import opened Lockstep
  import opened CutRollback

  // ---------- cuts ----------

  /** Event k of r, an execution from m, is a snapshot of a running state, reloaded by m'. */
  ghost predicate Cut(env: Env, m: Machine, r: Result, k: nat, m': Machine) {
    && Steady(env) && m.s.status == Running && m.data == m.s.data
    && |m.log| <= k < |r.m.log| && r.m.log[k].Saved? && r.m.log[k].state.status == Running
    && Restarted(env, r.m.log[k].state, m')
  }

  /** The execution itself ended at event k. */
  predicate Stopped(r: Result, k: nat) {
    k + 1 == |r.m.log| && (r.err == Continue || r.err.StepFailed?)
  }

  predicate StoppedStep(r: Result, k: nat, path: Path) {
    k + 1 == |r.m.log| && (r.err == Continue || (r.err.StepFailed? && |path| < |r.err.path|))
  }

  ghost predicate Resumed(env: Env, top: seq<Step>, steps: seq<Step>, parent: Path, r: Result, k: nat, m': Machine) {
    && k < |r.m.log| && parent < m'.s.currentPath
    && var f := Find(steps, m'.s.currentPath[|parent|]);
    && f.Some?
    && TwinResults(FromCut(env, r, k, m'), r,
                   ExecSteps(env, top, steps, f.value, parent, m', m'.s.currentPath, true))
  }

  /** Event k completed the step at path: there is nothing left to do for it. */
  ghost predicate DoneHere(r: Result, k: nat, path: Path) {
    && k + 1 == |r.m.log| && r.m.log[k].Saved? && r.err == NoError
    && r.m.s == r.m.log[k].state && r.m.data == r.m.s.data
    && r.m.s.currentPath == path && IsCompleted(r.m.s, path)
  }

  ghost predicate ResumedStep(env: Env, top: seq<Step>, step: Step, path: Path, r: Result, k: nat, m': Machine) {
    && k < |r.m.log| && path <= m'.s.currentPath
    && (DoneHere(r, k, path)
        || (&& !(m'.s.currentPath == path && IsCompleted(m'.s, path))
            && TwinResults(FromCut(env, r, k, m'), r, ExecStep(env, top, step, path, m'))))
  }

  lemma Completes(s: RunState, path: Path, hasCompensator: bool)
    ensures IsCompleted(Complete(s, path, hasCompensator), path)
  {
    assert Complete(s, path, hasCompensator).completedSteps[|s.completedSteps|].path == path;
  }

  lemma ActionCut(env: Env, compensated: bool, retry: Option<Retry>, path: Path, m: Machine, k: nat)
    requires Steady(env) && m.s.currentPath == path
    requires var r := ExecAction(env, compensated, retry, path, m);
      |m.log| <= k < |r.m.log| && r.m.log[k].Saved? && !StoppedStep(r, k, path)
    ensures DoneHere(ExecAction(env, compensated, retry, path, m), k, path)
  {
    hide Attempt;
    AttemptSavesNothing(env, m, path, MaxAttempts(retry), InitialDelay(retry), Backoff(retry));
    var a := Attempt(env, m, path, MaxAttempts(retry), InitialDelay(retry), Backoff(retry));
    Completes(a.m.s, path, compensated);
  }

  lemma PollCut(env: Env, maxDuration: int, path: Path, m: Machine, k: nat)
    requires Steady(env) && m.s.currentPath == path
    requires var r := ExecPoll(env, maxDuration, path, m);
      && |m.log| <= k < |r.m.log| && r.m.log[k].Saved? && r.m.log[k].state.status == Running
    ensures DoneHere(ExecPoll(env, maxDuration, path, m), k, path)
  {
    var s := m.s.(pollStartedAt := None, status := Running);
    Completes(s, path, false);
  }

  lemma DecideCut(env: Env, paths: seq<BranchPath>, path: Path, m: Machine)
    requires Steady(env)
    ensures var d := DecideBranch(env, paths, path, m);
      if d.Entered? then
        && |d.m.log| == |m.log| + 2 && m.log <= d.m.log
        && d.m.log[|m.log|].Called? && d.m.log[|m.log| + 1] == Saved(d.m.s)
        && d.m.data == d.m.s.data && d.m.s.currentPath == path + [paths[d.index].key]
        && d.m.s.completedSteps == m.s.completedSteps + [CompletedStep(path, false)]
        && d.m.s.status == m.s.status && d.m.s.repeatStates == m.s.repeatStates && FindKey(paths, paths[d.index].key) == Some(d.index)
      else forall k :: |m.log| <= k < |d.r.m.log| && d.r.m.log[k].Saved? && !StoppedStep(d.r, k, path)
             ==> DoneHere(d.r, k, path)
  {
    var a := Invoke(env, m, Decide(path));
    Completes(a.m.s, path, false);
  }

  lemma FinishCut(env: Env, step: Step, path: Path, m: Machine, rs: RepeatState, k: nat)
    requires Steady(env) && step.kind.Repeat?
    requires var r := FinishIteration(env, step, path, m, rs);
      |m.log| <= k < |r.m.log| && r.m.log[k].Saved? && !StoppedStep(r, k, path)
    ensures DoneHere(FinishIteration(env, step, path, m, rs), k, path)
  {
    hide Retained;
    var a := Invoke(env, m, Until(path, rs.iteration));
    var kept := Retained(step, a.m.s, path, rs.iteration);
    var done := rs.(awaitingCondition := false, completed := true, startedAt := None);
    Completes(kept.(repeatStates := kept.repeatStates[path := done], currentPath := path), path, false);
    assert IsCompleted(DoneState(step, path, a.m.s, rs), path);
    var t := DoneState(step, path, a.m.s, rs);
    DoneSaved(env, a.m.(s := t), path);
  }

  lemma DoneSaved(env: Env, m: Machine, path: Path)
    requires Steady(env) && IsCompleted(m.s, path)
    ensures var r := SnapshotData(env, m);
      && r.err == NoError && IsCompleted(r.m.s, path) && r.m.s.currentPath == m.s.currentPath
      && r.m.log == m.log + [Saved(r.m.s)] && r.m.data == r.m.s.data
  {
    var i :| 0 <= i < |m.s.completedSteps| && m.s.completedSteps[i].path == path;
    assert SnapshotData(env, m).m.s.completedSteps[i].path == path;
  }

  // ---------- errors ----------

  /** Handling an error saves a running state only as the last thing, when it skips compensation. */
  lemma HandleSaves(env: Env, top: seq<Step>, r: Result, path: Path, k: nat)
    requires Steady(env) && r.err != NoError
    requires var h := HandleError(env, top, r.m, r.err, path);
      |r.m.log| <= k < |h.m.log| && h.m.log[k].Saved? && h.m.log[k].state.status == Running
    ensures Stopped(HandleError(env, top, r.m, r.err, path), k)
  {
    hide CompensateFrom;
    var cause := if r.err.StepFailed? then r.err.cause else Plain;
    var t := SnapshotData(env, r.m.(s := StartCompensation(r.m.s, path, cause)));
    var last := |r.m.s.completedSteps| - 1;
    CompensateGrows(env, top, t.m, last);
    if |t.m.log| <= k < |CompensateFrom(env, top, t.m, last).m.log|
       && CompensateFrom(env, top, t.m, last).m.log[k].Saved? {
      CompensateSaves(env, top, t.m, last, k);
    }
  }

  lemma HandleDeeper(env: Env, top: seq<Step>, r: Result, path: Path)
    requires Steady(env) && (r.err == Continue || (r.err.StepFailed? && |path| < |r.err.path|))
    ensures HandleError(env, top, r.m, r.err, path) == r
  {
  }

  // ---------- scopes ----------

  /** States saved by a scope stand below it, and keep what is recorded elsewhere. */
  lemma ScopeSaves(env: Env, top: seq<Step>, steps: seq<Step>, i: nat, scope: Path, m: Machine, resume: Path,
                   first: bool, k: nat, q: Path)
    requires m.data == m.s.data && !IsPrefix(scope, q)
    requires var r := ExecSteps(env, top, steps, i, scope, m, resume, first);
      |m.log| <= k < |r.m.log| && r.m.log[k].Saved?
    ensures var r := ExecSteps(env, top, steps, i, scope, m, resume, first);
      Kept(q, m.s, r.m.log[k].state) && (r.m.log[k].state.status == Running ==> scope <= r.m.log[k].state.currentPath)
  {
    BaseReached(q, scope, m);
    StepsReached(Base(q, scope, m.s, m.log), env, top, steps, i, scope, m, resume, first);
  }

  lemma {:induction false} StepsCut(env: Env, top: seq<Step>, steps: seq<Step>, i: nat, parent: Path, m: Machine,
                                    resume: Path, first: bool, k: nat, m': Machine)
    requires Cut(env, m, ExecSteps(env, top, steps, i, parent, m, resume, first), k, m')
    requires !Stopped(ExecSteps(env, top, steps, i, parent, m, resume, first), k)
    requires InTime(env, steps) && ValidSteps(steps) && Entry(steps, i, parent, m.s, resume, first)
    ensures Resumed(env, top, steps, parent, ExecSteps(env, top, steps, i, parent, m, resume, first), k, m')
    decreases steps, 1, |steps| - i
  {
    hide Twins, Restarted, FromCut, PlacedStep, HandleError, Resumed, Entry;
    if i < |steps| {
      var path := parent + [steps[i].name];
      LaterEntry(steps, i, parent, m.s, resume, first);
      if first && path == resume && IsCompleted(m.s, path) {
        StepsCut(env, top, steps, i + 1, parent, m, resume, false, k, m');
      } else {
        var e := Enter(m, path, resume, first);
        var r := ExecStep(env, top, steps[i], path, e);
        EntryStep(steps, i, parent, m, resume, first);
        StepEnds(env, top, steps[i], path, e);
        if k < |r.m.log| {
          InsideCut(env, top, steps, i, parent, m, resume, first, k, m');
        } else if r.err != NoError {
          HandleSaves(env, top, r, path, k);
        } else if r.m.s.status == Running {
          EntryNext(env, top, steps, i, parent, m, resume, first);
          StepsCut(env, top, steps, i + 1, parent, r.m, resume, false, k, m');
        }
      }
    }
  }

  /** The cut falls inside step i: the scope comes back to it, and then goes on. */
  lemma {:induction false} InsideCut(env: Env, top: seq<Step>, steps: seq<Step>, i: nat, parent: Path, m: Machine,
                                     resume: Path, first: bool, k: nat, m': Machine)
    requires i < |steps| && ValidSteps(steps) && InTime(env, steps)
    requires Cut(env, m, ExecSteps(env, top, steps, i, parent, m, resume, first), k, m')
    requires !Stopped(ExecSteps(env, top, steps, i, parent, m, resume, first), k)
    requires Entry(steps, i, parent, m.s, resume, first)
    requires var path := parent + [steps[i].name];
      && !(first && path == resume && IsCompleted(m.s, path))
      && k < |ExecStep(env, top, steps[i], path, Enter(m, path, resume, first)).m.log|
    ensures Resumed(env, top, steps, parent, ExecSteps(env, top, steps, i, parent, m, resume, first), k, m')
    decreases steps, 1, |steps| - i, 0
  {
    hide Twins, FromCut, PlacedStep, Resumed, Entry, ExecSteps, ExecStep, TwinResults;
    var path := parent + [steps[i].name];
    var e := Enter(m, path, resume, first);
    var r := ExecStep(env, top, steps[i], path, e);
    var whole := ExecSteps(env, top, steps, i, parent, m, resume, first);
    EntryStep(steps, i, parent, m, resume, first);
    StepsLogs(env, top, steps, i, parent, m, resume, first);
    PrefixEvent(r.m.log, whole.m.log, k);
    EntersStep(env, top, steps, i, parent, m, resume, first);
    if r.err == Continue || (r.err.StepFailed? && |path| < |r.err.path|) {
      HandleDeeper(env, top, r, path);
    }
    StepCut(env, top, steps[i], path, e, k, m');
    if DoneHere(r, k, path) {
      AfterDone(env, top, steps, i, parent, r, whole, resume, k, m');
    } else {
      AfterStep(env, top, steps, i, parent, r, whole, resume, k, m');
    }
  }

  /** The cut completed the step: the restarted scope skips it. */
  lemma AfterDone(env: Env, top: seq<Step>, steps: seq<Step>, i: nat, parent: Path, r: Result, whole: Result,
                  resume: Path, k: nat, m': Machine)
    requires i < |steps| && DistinctNames(steps) && InTime(env, steps) && Steady(env)
    requires whole == Rest(env, top, steps, i, parent, r, resume) && r.m.log <= whole.m.log
    requires DoneHere(r, k, parent + [steps[i].name]) && r.m.s.status == Running && Restarted(env, r.m.s, m')
    ensures Resumed(env, top, steps, parent, whole, k, m')
  {
    hide Paired, Calls, HandleError, ExecSteps;
    FindsBack(steps, i, parent, m'.s.currentPath);
    CutHere(env, r.m, whole, m');
    FreshSame(r.m.s, m'.s);
    SkipsDone(env, top, steps, i, parent, m');
    StepsTwins(FromCut(env, whole, k, m'), top, steps, i + 1, parent, r.m, m', resume, m'.s.currentPath, false);
  }

  /** The cut left the step unfinished: the restarted scope enters it, and then goes on alike. */
  lemma AfterStep(env: Env, top: seq<Step>, steps: seq<Step>, i: nat, parent: Path, r: Result, whole: Result,
                  resume: Path, k: nat, m': Machine)
    requires i < |steps| && DistinctNames(steps) && InTime(env, steps) && Steady(env)
    requires whole == Rest(env, top, steps, i, parent, r, resume) && r.m.log <= whole.m.log
    requires var path := parent + [steps[i].name];
      && k < |r.m.log| && path <= m'.s.currentPath && !(m'.s.currentPath == path && IsCompleted(m'.s, path))
      && TwinResults(FromCut(env, r, k, m'), r, ExecStep(env, top, steps[i], path, m'))
    ensures Resumed(env, top, steps, parent, whole, k, m')
  {
    hide Twins, Calls, HandleError, ExecStep, ExecSteps;
    var path, cp := parent + [steps[i].name], m'.s.currentPath;
    PrefixEvent(r.m.log, whole.m.log, k);
    FindsBack(steps, i, parent, cp);
    assert Enter(m', path, cp, true) == m';
    EntersStep(env, top, steps, i, parent, m', cp, true);
    RestTwins(FromCut(env, whole, k, m'), top, steps, i, parent, r, ExecStep(env, top, steps[i], path, m'), resume, cp);
  }

  lemma EntersStep(env: Env, top: seq<Step>, steps: seq<Step>, i: nat, parent: Path, m: Machine, resume: Path, first: bool)
    requires i < |steps| && Steady(env)
    requires var path := parent + [steps[i].name]; !(first && path == resume && IsCompleted(m.s, path))
    ensures var path := parent + [steps[i].name];
      ExecSteps(env, top, steps, i, parent, m, resume, first)
        == Rest(env, top, steps, i, parent, ExecStep(env, top, steps[i], path, Enter(m, path, resume, first)), resume)
  {
  }

  lemma SkipsDone(env: Env, top: seq<Step>, steps: seq<Step>, i: nat, parent: Path, m: Machine)
    requires i < |steps| && m.s.currentPath == parent + [steps[i].name] && IsCompleted(m.s, m.s.currentPath)
    ensures ExecSteps(env, top, steps, i, parent, m, m.s.currentPath, true)
         == ExecSteps(env, top, steps, i + 1, parent, m, m.s.currentPath, false)
  {
  }

  /** What a scope does after a step, on twin results. */
  lemma RestTwins(p: Pair, top: seq<Step>, steps: seq<Step>, i: nat, parent: Path, r: Result, r': Result,
                  resume: Path, resume': Path)
    requires i < |steps| && Steady(p.env) && InTime(p.env, steps) && TwinResults(p, r, r') && p.off.None?
    ensures TwinResults(p, Rest(p.env, top, steps, i, parent, r, resume), Rest(p.env, top, steps, i, parent, r', resume'))
  {
    hide Paired, HandleError, ExecSteps;
    if r.err != NoError {
      HandleTwins(p, top, r, r', parent + [steps[i].name]);
    } else if r.m.s.status == Running {
      StepsTwins(p, top, steps, i + 1, parent, r.m, r'.m, resume, resume', false);
    }
  }

  function Rest(env: Env, top: seq<Step>, steps: seq<Step>, i: nat, parent: Path, r: Result, resume: Path): Result
    requires i < |steps|
  {
    if r.err != NoError then HandleError(env, top, r.m, r.err, parent + [steps[i].name])
    else if r.m.s.status != Running then r
    else ExecSteps(env, top, steps, i + 1, parent, r.m, resume, false)
  }

  lemma FindsBack(steps: seq<Step>, i: nat, parent: Path, cp: Path)
    requires i < |steps| && DistinctNames(steps) && parent + [steps[i].name] <= cp
    ensures parent < cp && cp[|parent|] == steps[i].name && Find(steps, cp[|parent|]) == Some(i)
  {
    assert cp[|parent|] == (parent + [steps[i].name])[|parent|];
    PrefixTransitive(parent, parent + [steps[i].name], cp);
    FindSelf(steps, i);
  }

  // ---------- steps ----------

  lemma {:induction false} StepCut(env: Env, top: seq<Step>, step: Step, path: Path, m: Machine, k: nat, m': Machine)
    requires Cut(env, m, ExecStep(env, top, step, path, m), k, m')
    requires !StoppedStep(ExecStep(env, top, step, path, m), k, path)
    requires StepInTime(env, step) && ValidStep(step)
    requires PlacedStep(step, path, m.s) && path <= m.s.currentPath
    ensures ResumedStep(env, top, step, path, ExecStep(env, top, step, path, m), k, m')
    decreases step, 1
  {
    hide Twins, FromCut, ExecAction, ExecPoll, DecideBranch, InTime;
    match step.kind
    case Action(compensated, retry) => ActionCut(env, compensated, retry, path, m, k);
    case Poll(maxDuration) => PollCut(env, maxDuration, path, m, k);
    case Branch(paths) =>
      if |m.s.currentPath| > |path| {
        InBranchCut(env, top, step, path, m, k, m');
      } else {
        DecidedCut(env, top, step, path, m, k, m');
      }
    case Repeat(_, _, _, _) => RepeatCut(env, top, step, path, m, k, m');
  }

  /** A step result taken over from the scope inside it. */
  lemma InnerResumed(env: Env, top: seq<Step>, step: Step, path: Path, b: nat, r: Result, k: nat, m': Machine)
    requires step.kind.Branch? && b < |step.kind.paths|
    requires FindKey(step.kind.paths, step.kind.paths[b].key) == Some(b)
    requires Resumed(env, top, step.kind.paths[b].steps, path + [step.kind.paths[b].key], r, k, m')
    ensures ResumedStep(env, top, step, path, r, k, m')
  {
    hide Twins, FromCut, ExecSteps;
    var cp, scope := m'.s.currentPath, path + [step.kind.paths[b].key];
    PrefixTransitive(path, scope, cp);
    assert cp[|path|] == scope[|path|] == step.kind.paths[b].key;
    var steps := step.kind.paths[b].steps;
    assert ExecStep(env, top, step, path, m')
        == ExecScope(env, top, steps, ChildIndex(steps, m'.s, path), scope, m');
  }

  lemma {:induction false} InBranchCut(env: Env, top: seq<Step>, step: Step, path: Path, m: Machine, k: nat, m': Machine)
    requires Cut(env, m, ExecStep(env, top, step, path, m), k, m')
    requires !StoppedStep(ExecStep(env, top, step, path, m), k, path)
    requires StepInTime(env, step) && ValidStep(step) && step.kind.Branch?
    requires PlacedStep(step, path, m.s) && path < m.s.currentPath
    ensures ResumedStep(env, top, step, path, ExecStep(env, top, step, path, m), k, m')
    decreases step, 0, 0
  {
    hide Twins, FromCut, Resumed, ResumedStep, Entry;
    var b := FindKey(step.kind.paths, m.s.currentPath[|path|]).value;
    var steps, scope := step.kind.paths[b].steps, path + [step.kind.paths[b].key];
    assert scope <= m.s.currentPath by { assert m.s.currentPath[..|path| + 1] == scope; }
    PlacedEntry(steps, scope, m.s);
    var i := ChildIndex(steps, m.s, path);
    ScopeFails(env, top, steps, i, scope, m, m.s.currentPath, true);
    StepsCut(env, top, steps, i, scope, m, m.s.currentPath, true, k, m');
    InnerResumed(env, top, step, path, b, ExecStep(env, top, step, path, m), k, m');
  }

  lemma ScopeFails(env: Env, top: seq<Step>, steps: seq<Step>, i: nat, scope: Path, m: Machine, resume: Path, first: bool)
    requires m.data == m.s.data && scope != []
    ensures var r := ExecSteps(env, top, steps, i, scope, m, resume, first);
      && (r.err.StepFailed? ==> |scope| <= |r.err.path|)
      && (r.err == NoError && r.m.s.status == Running ==> r.m.data == r.m.s.data)
  {
    BaseReached([], scope, m);
    StepsReached(Base([], scope, m.s, m.log), env, top, steps, i, scope, m, resume, first);
  }

  lemma {:induction false} DecidedCut(env: Env, top: seq<Step>, step: Step, path: Path, m: Machine, k: nat, m': Machine)
    requires Cut(env, m, ExecStep(env, top, step, path, m), k, m')
    requires !StoppedStep(ExecStep(env, top, step, path, m), k, path)
    requires StepInTime(env, step) && ValidStep(step) && step.kind.Branch?
    requires PlacedStep(step, path, m.s) && path == m.s.currentPath
    ensures ResumedStep(env, top, step, path, ExecStep(env, top, step, path, m), k, m')
    decreases step, 0, 0
  {
    hide Twins, FromCut, Resumed, Entry, DecideBranch, PlacedStep, ResumedStep;
    var d := DecideBranch(env, step.kind.paths, path, m);
    var r := ExecStep(env, top, step, path, m);
    DecideCut(env, step.kind.paths, path, m);
    if d.Settled? {
      DoneResumed(env, top, step, path, m, r, k, m');
    } else if k < |d.m.log| {
      DecisionCut(env, top, step, path, m, k, m');
    } else {
      var steps, scope := step.kind.paths[d.index].steps, path + [step.kind.paths[d.index].key];
      assert FreshBelow(m.s, path) by { FreshAt(step, path, m.s); }
      DecidedEntry(steps, path, scope, m, d.m);
      ScopeFails(env, top, steps, 0, scope, d.m, d.m.s.currentPath, true);
      StepsCut(env, top, steps, 0, scope, d.m, d.m.s.currentPath, true, k, m');
      InnerResumed(env, top, step, path, d.index, r, k, m');
    }
  }

  /** Cut right after the decision was saved: the restarted step enters the decided path. */
  lemma DecisionCut(env: Env, top: seq<Step>, step: Step, path: Path, m: Machine, k: nat, m': Machine)
    requires Cut(env, m, ExecStep(env, top, step, path, m), k, m')
    requires StepInTime(env, step) && step.kind.Branch? && path == m.s.currentPath
    requires var d := DecideBranch(env, step.kind.paths, path, m); d.Entered? && k < |d.m.log|
    ensures ResumedStep(env, top, step, path, ExecStep(env, top, step, path, m), k, m')
  {
    hide Paired, Calls, DecideBranch, ExecSteps;
    var d := DecideBranch(env, step.kind.paths, path, m);
    var r := ExecStep(env, top, step, path, m);
    DecideCut(env, step.kind.paths, path, m);
    var steps, scope := step.kind.paths[d.index].steps, path + [step.kind.paths[d.index].key];
    StepsGrow(env, top, steps, 0, scope, d.m, scope, true);
    assert r.m.log[..|d.m.log|] == d.m.log;
    assert d.m.log[k] == r.m.log[k];
    CutHere(env, d.m, r, m');
    StepsTwins(FromCut(env, r, k, m'), top, steps, 0, scope, d.m, m', scope, scope, true);
    assert m'.s.currentPath[|path|] == step.kind.paths[d.index].key;
    assert ExecStep(env, top, step, path, m') == ExecScope(env, top, steps, 0, scope, m');
  }

  // ---------- repeats ----------

  lemma {:induction false} RepeatCut(env: Env, top: seq<Step>, step: Step, path: Path, m: Machine, k: nat, m': Machine)
    requires Cut(env, m, ExecStep(env, top, step, path, m), k, m')
    requires !StoppedStep(ExecStep(env, top, step, path, m), k, path)
    requires StepInTime(env, step) && ValidStep(step) && step.kind.Repeat?
    requires PlacedStep(step, path, m.s) && path <= m.s.currentPath
    ensures ResumedStep(env, top, step, path, ExecStep(env, top, step, path, m), k, m')
    decreases step, 0, 2
  {
    hide Twins, FromCut, ResumedStep, PlacedStep, FinishIteration, RunIteration;
    var r := EnsureStarted(env, step.kind.maxDuration, path, m);
    if r == Result(m, NoError) {
      StartedCut(env, top, step, path, m, k, m');
    } else {
      StartedSame(env, top, step, path, m);
      StepGrows(env, top, step, path, r.m);
      if k == |m.log| {
        StartCut(env, top, step, path, m, k, m');
      } else {
        PlacedStarted(step, path, m.s, r.m.s);
        StartedCut(env, top, step, path, r.m, k, m');
      }
    }
  }

  /** The clock of a repeat is started and saved once; afterwards the step is entered as before. */
  lemma StartedSame(env: Env, top: seq<Step>, step: Step, path: Path, m: Machine)
    requires Steady(env) && step.kind.Repeat? && m.data == m.s.data
    requires EnsureStarted(env, step.kind.maxDuration, path, m) != Result(m, NoError)
    ensures var r := EnsureStarted(env, step.kind.maxDuration, path, m);
      && r.err == NoError && r.m.log == m.log + [Saved(r.m.s)] && r.m.data == r.m.s.data
      && r.m.s.currentPath == m.s.currentPath && r.m.s.completedSteps == m.s.completedSteps
      && r.m.s.status == m.s.status
      && SamePlaces(m.s, r.m.s)
      && EnsureStarted(env, step.kind.maxDuration, path, r.m) == Result(r.m, NoError)
      && ExecStep(env, top, step, path, r.m) == ExecStep(env, top, step, path, m)
  {
    hide RunIteration, FinishIteration;
  }

  lemma StartCut(env: Env, top: seq<Step>, step: Step, path: Path, m: Machine, k: nat, m': Machine)
    requires Cut(env, m, ExecStep(env, top, step, path, m), k, m') && k == |m.log|
    requires StepInTime(env, step) && step.kind.Repeat?
    requires PlacedStep(step, path, m.s) && path <= m.s.currentPath
    requires EnsureStarted(env, step.kind.maxDuration, path, m) != Result(m, NoError)
    ensures ResumedStep(env, top, step, path, ExecStep(env, top, step, path, m), k, m')
  {
    hide Paired, Calls, EnsureStarted, ExecStep, Steady;
    var r := EnsureStarted(env, step.kind.maxDuration, path, m);
    StartedSame(env, top, step, path, m);
    StepGrows(env, top, step, path, r.m);
    var whole := ExecStep(env, top, step, path, m);
    assert whole.m.log[..|r.m.log|] == r.m.log;
    CutHere(env, r.m, whole, m');
    StepTwins(FromCut(env, whole, k, m'), top, step, path, r.m, m');
    PlacedIteration(step, path, m.s);
    assert IsCompleted(m'.s, path) == IsCompleted(m.s, path);
  }

  lemma {:induction false} StartedCut(env: Env, top: seq<Step>, step: Step, path: Path, m: Machine, k: nat, m': Machine)
    requires Cut(env, m, ExecStep(env, top, step, path, m), k, m')
    requires !StoppedStep(ExecStep(env, top, step, path, m), k, path)
    requires StepInTime(env, step) && ValidStep(step) && step.kind.Repeat?
    requires PlacedStep(step, path, m.s) && path <= m.s.currentPath
    requires EnsureStarted(env, step.kind.maxDuration, path, m) == Result(m, NoError)
    ensures ResumedStep(env, top, step, path, ExecStep(env, top, step, path, m), k, m')
    decreases step, 0, 1
  {
    hide Twins, FromCut, ResumedStep, FinishIteration, RunIteration, PlacedScope;
    PlacedIteration(step, path, m.s);
    var rs := RepeatAt(m.s, path);
    if !TimedOutAt(step.kind.maxDuration, RepeatAt(m.s, path), env.now(m.log)) {
      StartedAlready(env, step, path, m);
      assert Iterates(env, step, path, m, rs);
      if rs.awaitingCondition {
        FinishCut(env, step, path, WithRepeat(m, path, rs), rs, k);
        DoneResumed(env, top, step, path, m, ExecStep(env, top, step, path, m), k, m');
      } else {
        IterationCut(env, top, step, path, m, rs, k, m');
      }
    }
  }

  lemma StartedAlready(env: Env, step: Step, path: Path, m: Machine)
    requires Steady(env) && step.kind.Repeat? && EnsureStarted(env, step.kind.maxDuration, path, m) == Result(m, NoError)
    ensures step.kind.maxDuration <= 0 || RepeatAt(m.s, path).startedAt.Some?
  {
  }

  lemma DoneResumed(env: Env, top: seq<Step>, step: Step, path: Path, m: Machine, r: Result, k: nat, m': Machine)
    requires Cut(env, m, r, k, m') && DoneHere(r, k, path)
    ensures ResumedStep(env, top, step, path, r, k, m')
  {
  }

  lemma {:induction false} IterationCut(env: Env, top: seq<Step>, step: Step, path: Path, m: Machine, rs: RepeatState,
                                        k: nat, m': Machine)
    requires Iterates(env, step, path, m, rs) && !rs.awaitingCondition
    requires Cut(env, m, RunIteration(env, top, step, path, m, rs), k, m')
    requires !StoppedStep(RunIteration(env, top, step, path, m, rs), k, path)
    requires StepInTime(env, step) && ValidStep(step)
    ensures ResumedStep(env, top, step, path, RunIteration(env, top, step, path, m, rs), k, m')
    decreases step, 0, 0
  {
    hide Twins, FromCut, ResumedStep, FinishIteration, Resumed, Entry, Restarted;
    var steps, scope := step.kind.steps, path + [Itoa(rs.iteration)];
    var i, e := ChildIndex(steps, m.s, path), WithRepeat(m, path, rs);
    var c := ExecScope(env, top, steps, i, scope, e);
    var r := RunIteration(env, top, step, path, m, rs);
    IterationEntry(step, path, m, rs);
    ScopeFails(env, top, steps, i, scope, e, e.s.currentPath, true);
    var due := rs.(awaitingCondition := true);
    var f := WithRepeat(c.m, path, due);
    if k >= |c.m.log| {
      FinishCut(env, step, path, f, due, k);
      DoneResumed(env, top, step, path, m, r, k, m');
    } else {
      FinishLogs(env, step, path, f, due);
      PrefixEvent(c.m.log, r.m.log, k);
      StepsCut(env, top, steps, i, scope, e, e.s.currentPath, true, k, m');
      ScopeSaves(env, top, steps, i, scope, e, e.s.currentPath, true, k, path);
      IterationResumed(env, top, step, path, m, rs, k, m');
    }
  }

  lemma FinishLogs(env: Env, step: Step, path: Path, m: Machine, rs: RepeatState)
    requires step.kind.Repeat?
    ensures m.log <= FinishIteration(env, step, path, m, rs).m.log
  {
    FinishStops(env, step, path, m, rs);
    StopsGrow(m.log, FinishIteration(env, step, path, m, rs));
  }

  /** The children were cut: the repeat finds its iteration again, and then asks Until alike. */
  lemma IterationResumed(env: Env, top: seq<Step>, step: Step, path: Path, m: Machine, rs: RepeatState, k: nat, m': Machine)
    requires Iterates(env, step, path, m, rs) && !rs.awaitingCondition && StepInTime(env, step)
    requires Cut(env, m, RunIteration(env, top, step, path, m, rs), k, m')
    requires var steps, scope := step.kind.steps, path + [Itoa(rs.iteration)];
      var e := WithRepeat(m, path, rs);
      var c := ExecScope(env, top, steps, ChildIndex(steps, m.s, path), scope, e);
      && k < |c.m.log| && c.m.log <= RunIteration(env, top, step, path, m, rs).m.log
      && Resumed(env, top, steps, scope, c, k, m')
      && c.m.log[k].Saved? && Kept(path, e.s, c.m.log[k].state)
    ensures ResumedStep(env, top, step, path, RunIteration(env, top, step, path, m, rs), k, m')
  {
    hide Paired, FinishIteration;
    var steps, scope := step.kind.steps, path + [Itoa(rs.iteration)];
    var e := WithRepeat(m, path, rs);
    var c := ExecScope(env, top, steps, ChildIndex(steps, m.s, path), scope, e);
    var r := RunIteration(env, top, step, path, m, rs);
    PrefixEvent(c.m.log, r.m.log, k);
    var rs' := RepeatAt(m'.s, path);
    assert RecordTwin(rs, rs') && ClockedRecord(env, rs) && ClockedRecord(env, rs');
    NotTimedOut(env, step.kind.maxDuration, rs', m'.log);
    IterationAgain(env, top, step, path, m, rs, m');
    var c' := ExecScope(env, top, steps, ChildIndex(steps, m'.s, path), scope, m');
    if c.err == NoError && c.m.s.status == Running {
      var due, due' := rs.(awaitingCondition := true), rs'.(awaitingCondition := true);
      RecordTwins(FromCut(env, r, k, m'), c.m, c'.m, path, due, due');
      FinishTwins(FromCut(env, r, k, m'), WithRepeat(c.m, path, due), WithRepeat(c'.m, path, due'), step, path, due, due');
    }
  }

  lemma IterationAgain(env: Env, top: seq<Step>, step: Step, path: Path, m: Machine, rs: RepeatState, m': Machine)
    requires Steady(env) && StepInTime(env, step)
    requires Iterates(env, step, path, m, rs) && !rs.awaitingCondition
    requires path + [Itoa(rs.iteration)] < m'.s.currentPath
    requires path in m'.s.repeatStates
    requires var rs' := RepeatAt(m'.s, path); RecordTwin(rs, rs') && ClockedRecord(env, rs')
    ensures var steps, scope, rs' := step.kind.steps, path + [Itoa(rs.iteration)], RepeatAt(m'.s, path);
      && WithRepeat(m', path, rs') == m'
      && ChildIndex(steps, m'.s, path) == StartIndex(steps, m'.s.currentPath[|scope|])
      && ExecStep(env, top, step, path, m') == RunIteration(env, top, step, path, m', rs')
      && path < m'.s.currentPath
  {
    hide RunIteration, FinishIteration;
    var scope := path + [Itoa(rs.iteration)];
    PrefixTransitive(path, scope, m'.s.currentPath);
    assert m'.s.currentPath[|path|] == scope[|path|];
    AtoiItoa(rs.iteration);
    var rs' := RepeatAt(m'.s, path);
    NotTimedOut(env, step.kind.maxDuration, rs', m'.log);
    assert m'.s.repeatStates[path := rs'] == m'.s.repeatStates;
  }
}
