/** Actions, polls and branch decisions: the steps that call once and save. */
module Leaves {
  import opened Options
  import opened Definition
  import opened State
  import opened Executor
  import opened Journal
  import opened Frames
  import opened Steps

  /** m2 is m after calls of its step, nothing having become durable in between. */
  ghost predicate CalledOnly(top: seq<Step>, m: Machine, m2: Machine) {
    && LogGood(top, m2.log) && m.log <= m2.log
    && Durable(m2.log) == Durable(m.log) && Ever(m2.log) == Ever(m.log)
  }

  lemma CompletedFrame(path: Path, ever: iset<Path>, s: RunState, s': RunState, has: bool)
    requires Marks(s) <= ever
    requires s'.completedSteps == s.completedSteps + [CompletedStep(path, has)]
    requires s'.repeatStates == s.repeatStates
    ensures FramedBy(path, ever, s, ever + Marks(s'), s')
    ensures ever + Marks(s') == ever + iset{path}
  {
    CompleteMarks(s, path, has);
    assert Marks(s') == Marks(Complete(s, path, has)) by {
      forall q ensures Marked(s', q) <==> Marked(Complete(s, path, has), q) {}
    }
  }

  /** The completion of a step that is not a repeat may be saved. */
  lemma CompletionAllowed(top: seq<Step>, step: Step, path: Path, m: Machine, m2: Machine,
                          has: bool, poll: Option<int>)
    requires Due(top, step, path, m) && |m.s.currentPath| == |path|
    requires CalledOnly(top, m, m2)
    requires !step.kind.Repeat? && has == Compensable(step)
    requires m2.s == Complete(m.s.(pollStartedAt := poll), path, has)
    ensures Allowed(top, m2.log, Saved(Candidate(m2)))
    ensures FramedBy(path, Ever(m.log), m.s, Ever(m.log) + Marks(Candidate(m2)), Candidate(m2))
  {
    hide LogGood;
    DueCall(top, step, path, m);
    LinkedMarks(top, m);
    var s, ever := Candidate(m2), Ever(m.log);
    CompletedFrame(path, ever, m.s, s, has);
    CompleteJournal(top, m.s, ever, path, has);
    var last := |s.completedSteps| - 1;
    assert s.completedSteps[last].path == path;
    assert StepPos(ever + Marks(s), step, path, s);
    forall p | Encloses(s, p)
      ensures Outside(s.completedSteps, p) == Outside(Durable(m.log).completedSteps, p)
    {
      OutsideAppend(m.s.completedSteps, CompletedStep(path, has), p);
    }
    ForwardAllowed(top, m2.log, s);
  }

  lemma CompletionGood(env: Env, top: seq<Step>, step: Step, path: Path, m: Machine, m2: Machine,
                       has: bool, poll: Option<int>)
    requires Due(top, step, path, m) && |m.s.currentPath| == |path|
    requires CalledOnly(top, m, m2)
    requires !step.kind.Repeat? && has == Compensable(step)
    requires m2.s == Complete(m.s.(pollStartedAt := poll), path, has)
    ensures StepPost(env, top, step, path, m, SnapshotData(env, m2))
  {
    hide LogGood, Allowed, StepPos, FramedBy;
    CompletionAllowed(top, step, path, m, m2, has, poll);
    SaveGood(env, top, m2);
    SavedPost(env, top, step, path, m, m2);
  }

  /** A completion that was saved is what the step guarantees. */
  lemma SavedPost(env: Env, top: seq<Step>, step: Step, path: Path, base: Machine, m2: Machine)
    requires base.log <= m2.log
    requires m2.s.status == Running && path <= m2.s.currentPath
    requires Persisted(top, m2, Candidate(m2), SnapshotData(env, m2))
    requires FramedBy(path, Ever(base.log), base.s, Ever(m2.log) + Marks(Candidate(m2)), Candidate(m2))
    ensures StepPost(env, top, step, path, base, SnapshotData(env, m2))
  {
    hide LogGood, FramedBy;
    LogsGrow(base.log, m2.log, SnapshotData(env, m2).m.log);
  }

  /** Saving a state in which the step is still where it was: a delayed continuation. */
  lemma DeferralGood(env: Env, top: seq<Step>, step: Step, path: Path, m: Machine, m2: Machine)
    requires Due(top, step, path, m) && |m.s.currentPath| == |path|
    requires CalledOnly(top, m, m2)
    requires m2.s == m.s.(pollStartedAt := m2.s.pollStartedAt, status := m2.s.status)
    requires m2.s.status == Running || m2.s.status == Polling
    ensures var r := SnapshotData(env, m2);
      LogGood(top, r.m.log) && m.log <= r.m.log && (r.err == NoError || r.err == SnapshotFailed)
      && (r.err == NoError ==> r.m.s == Durable(r.m.log))
  {
    hide LogGood, Allowed;
    DueCall(top, step, path, m);
    LinkedMarks(top, m);
    var s, ever := Candidate(m2), Ever(m.log);
    assert Marks(s) == Marks(m.s) by {
      forall q ensures Marked(s, q) <==> Marked(m.s, q) {}
    }
    assert ever + Marks(s) == ever;
    assert FramedBy(path, ever, m.s, ever, s);
    assert IsCompleted(s, path) ==> Marked(m.s, path);
    assert StepPos(ever, step, path, s);
    ForwardAllowed(top, m2.log, s);
    SaveGood(env, top, m2);
  }

  /** A failed call with nothing saved leaves the step where it was. */
  lemma FailureGood(env: Env, top: seq<Step>, step: Step, path: Path, m: Machine, m2: Machine, cause: Cause)
    requires Due(top, step, path, m) && |m.s.currentPath| == |path|
    requires CalledOnly(top, m, m2)
    requires m2.s == m.s.(pollStartedAt := m2.s.pollStartedAt)
    ensures StepPost(env, top, step, path, m, Result(m2, StepFailed(path, cause)))
  {
    hide LogGood;
    DueCall(top, step, path, m);
    LinkedMarks(top, m);
    assert Marks(m2.s) == Marks(m.s) by {
      forall q ensures Marked(m2.s, q) <==> Marked(m.s, q) {}
    }
    assert IsCompleted(m2.s, path) ==> Marked(m.s, path);
    assert Virgin(Ever(m2.log), step, path, m2.s);
  }

  lemma YieldGood(env: Env, top: seq<Step>, step: Step, path: Path, m: Machine, m2: Machine, polling: bool)
    requires Due(top, step, path, m) && |m.s.currentPath| == |path|
    requires CalledOnly(top, m, m2)
    requires m2.s == m.s.(pollStartedAt := m2.s.pollStartedAt)
    ensures StepPost(env, top, step, path, m, PersistDeferred(env, m2, polling))
  {
    hide LogGood, StepPos;
    DeferralGood(env, top, step, path, m, m2.(s := if polling then m2.s.(status := Polling) else m2.s));
  }

  /** A failed callback of a step that is not a repeat. */
  lemma CallbackFailedGood(env: Env, top: seq<Step>, step: Step, path: Path, m: Machine, m2: Machine,
                           failure: Failure, polling: bool)
    requires Due(top, step, path, m) && |m.s.currentPath| == |path|
    requires CalledOnly(top, m, m2)
    requires m2.s == m.s.(pollStartedAt := m2.s.pollStartedAt)
    ensures StepPost(env, top, step, path, m, CallbackFailed(env, m2, path, failure, polling))
  {
    if failure == RetryAfter {
      YieldGood(env, top, step, path, m, m2, polling);
    } else {
      FailureGood(env, top, step, path, m, m2, CauseOf(failure));
    }
  }

  lemma ActionGood(env: Env, top: seq<Step>, step: Step, path: Path, m: Machine)
    requires Due(top, step, path, m) && step.kind.Action?
    ensures StepPost(env, top, step, path, m, ExecStep(env, top, step, path, m))
  {
    DueCall(top, step, path, m);
    var retry := step.kind.retry;
    var a := Attempt(env, m, path, MaxAttempts(retry), InitialDelay(retry), Backoff(retry));
    AttemptGood(env, top, m, path, MaxAttempts(retry), InitialDelay(retry), Backoff(retry));
    if a.reply.Fail? {
      CallbackFailedGood(env, top, step, path, m, a.m, a.reply.failure, false);
    } else {
      var m2 := a.m.(s := Complete(a.m.s, path, step.kind.compensated));
      CompletionGood(env, top, step, path, m, m2, step.kind.compensated, m.s.pollStartedAt);
    }
  }

  lemma PollGood(env: Env, top: seq<Step>, step: Step, path: Path, m: Machine)
    requires Due(top, step, path, m) && step.kind.Poll?
    ensures StepPost(env, top, step, path, m, ExecStep(env, top, step, path, m))
  {
    hide LogGood, Allowed, CallOK, StepPost;
    DueCall(top, step, path, m);
    var started := if m.s.pollStartedAt.None? then env.now(m.log) else m.s.pollStartedAt.value;
    if step.kind.maxDuration > 0 && env.now(m.log) - started >= step.kind.maxDuration {
      FailureGood(env, top, step, path, m, m.(s := m.s.(pollStartedAt := None)), Plain);
    } else {
      var asked := m.(s := m.s.(pollStartedAt := Some(started)));
      InvokeGood(env, top, asked, Check(path));
      var a := Invoke(env, asked, Check(path));
      if a.reply.Fail? {
        var s := if a.reply.failure == RetryAfter || env.cancelled(a.m.log) then a.m.s
                 else a.m.s.(pollStartedAt := None);
        CallbackFailedGood(env, top, step, path, m, a.m.(s := s), a.reply.failure, true);
      } else if !a.reply.done {
        YieldGood(env, top, step, path, m, a.m, true);
      } else {
        var m2 := a.m.(s := Complete(a.m.s.(pollStartedAt := None, status := Running), path, false));
        CompletionGood(env, top, step, path, m, m2, false, None);
      }
    }
  }

  // ---------- branch decisions ----------

  lemma EmptyBranchGood(env: Env, top: seq<Step>, step: Step, path: Path, m: Machine, m2: Machine)
    requires Due(top, step, path, m) && |m.s.currentPath| == |path| && step.kind.Branch?
    requires CalledOnly(top, m, m2) && m2.s == Complete(m.s, path, false)
    ensures StepPost(env, top, step, path, m, SnapshotData(env, m2))
  {
    CompletionGood(env, top, step, path, m, m2, false, m.s.pollStartedAt);
  }

  /** After a durable decision the chosen scope may start. */
  ghost predicate Chosen(top: seq<Step>, step: Step, path: Path, k: nat, m: Machine, m': Machine)
    requires step.kind.Branch? && k < |step.kind.paths|
  {
    var scope := path + [step.kind.paths[k].key];
    && Ready(top, m') && Framed(path, m, m')
    && m'.s.currentPath == scope
    && Untouched(Ever(m'.log), m'.s, scope)
    && ScopePlug(top, Ever(m'.log), m'.s, step.kind.paths[k].steps, scope)
  }

  lemma EnterBranchAllowed(top: seq<Step>, step: Step, path: Path, m: Machine, m2: Machine, k: nat)
    requires Due(top, step, path, m) && |m.s.currentPath| == |path|
    requires step.kind.Branch? && k < |step.kind.paths|
    requires CalledOnly(top, m, m2)
    requires m2.s == Complete(m.s, path, false).(currentPath := path + [step.kind.paths[k].key])
    ensures Allowed(top, m2.log, Saved(Candidate(m2)))
    ensures FramedBy(path, Ever(m.log), m.s, Ever(m.log) + Marks(Candidate(m2)), Candidate(m2))
    ensures Untouched(Ever(m.log) + Marks(Candidate(m2)), Candidate(m2), path + [step.kind.paths[k].key])
    ensures path in Ever(m.log) + Marks(Candidate(m2))
  {
    hide LogGood, Allowed;
    DueCall(top, step, path, m);
    LinkedMarks(top, m);
    var s, ever := Candidate(m2), Ever(m.log);
    CompletedFrame(path, ever, m.s, s, false);
    CompleteJournal(top, m.s, ever, path, false);
    EnteredUntouched(step, path, step.kind.paths[k].key, m.s, ever, s);
    assert FindKey(step.kind.paths, step.kind.paths[k].key) == Some(k);
    assert StepPos(ever + Marks(s), step, path, s);
    forall p | Encloses(s, p)
      ensures Outside(s.completedSteps, p) == Outside(Durable(m.log).completedSteps, p)
    {
      assert p <= path;
      OutsideAppend(m.s.completedSteps, CompletedStep(path, false), p);
    }
    ForwardAllowed(top, m2.log, s);
  }

  lemma EnterBranchGood(env: Env, top: seq<Step>, step: Step, path: Path, m: Machine, m2: Machine, k: nat)
    requires Due(top, step, path, m) && |m.s.currentPath| == |path|
    requires step.kind.Branch? && k < |step.kind.paths|
    requires CalledOnly(top, m, m2)
    requires m2.s == Complete(m.s, path, false).(currentPath := path + [step.kind.paths[k].key])
    ensures var r := SnapshotData(env, m2);
      LogGood(top, r.m.log) && m.log <= r.m.log && (r.err == NoError || r.err == SnapshotFailed)
      && (r.err == NoError ==> Chosen(top, step, path, k, m, r.m))
  {
    hide LogGood, Allowed;
    var s, ever := Candidate(m2), Ever(m.log);
    EnterBranchAllowed(top, step, path, m, m2, k);
    SaveGood(env, top, m2);
    StepPlugKept(top, step, path, ever, m.s, ever + Marks(s), s);
    BranchScope(top, ever + Marks(s), s, step, path, k);
  }

  lemma EnteredUntouched(step: Step, path: Path, key: string, s: RunState, ever: iset<Path>, s': RunState)
    requires step.kind.Branch? && Virgin(ever, step, path, s)
    requires s'.repeatStates == s.repeatStates
    requires ever + Marks(s') == ever + iset{path}
    ensures Untouched(ever + Marks(s'), s', path + [key])
  {
    forall p | IsPrefix(path + [key], p) ensures p !in ever + Marks(s') && p !in s'.repeatStates {
      assert path == (path + [key])[..|path|] == p[..|path|];
      assert IsPrefix(path, p) && p != path;
      assert p !in ever + iset{path};
    }
  }

  lemma DecideGood(env: Env, top: seq<Step>, step: Step, path: Path, m: Machine)
    requires Due(top, step, path, m) && |m.s.currentPath| == |path| && step.kind.Branch?
    ensures var d := DecideBranch(env, step.kind.paths, path, m);
      if d.Settled? then StepPost(env, top, step, path, m, d.r)
      else Chosen(top, step, path, d.index, m, d.m)
  {
    DueCall(top, step, path, m);
    InvokeGood(env, top, m, Decide(path));
    var a := Invoke(env, m, Decide(path));
    if a.reply.Fail? {
      CallbackFailedGood(env, top, step, path, m, a.m, a.reply.failure, false);
    } else {
      var f := FindKey(step.kind.paths, a.reply.key);
      if f.None? {
        FailureGood(env, top, step, path, m, a.m, Plain);
      } else {
        var s := Complete(a.m.s, path, false);
        if step.kind.paths[f.value].steps == [] {
          EmptyBranchGood(env, top, step, path, m, a.m.(s := s.(currentPath := path)));
        } else {
          EnterBranchGood(env, top, step, path, m,
                          a.m.(s := s.(currentPath := path + [step.kind.paths[f.value].key])), f.value);
        }
      }
    }
  }
}
