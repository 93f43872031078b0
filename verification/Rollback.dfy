/** Compensation: the journal is undone in reverse, and each success is recorded once. */
module Rollback {
  import opened Definition
  import opened State
  import opened Executor
  import opened Journal
  import opened Steps

  /** m.s is the durable compensating state, up to the index kept in memory. */
  ghost predicate Undoing(top: seq<Step>, m: Machine, i: int) {
    var d := Durable(m.log);
    && LogGood(top, m.log) && LastSaved(m.log)
    && d.status == Compensating
    && m.s == d.(compensationIndex := m.s.compensationIndex)
    && -1 <= i <= d.compensationIndex < |d.completedSteps|
    && JournalOK(top, d.completedSteps)
    && Pending(d) == Undo(d.completedSteps[..i + 1])
  }

  ghost predicate RollbackPost(env: Env, top: seq<Step>, m: Machine, r: Result) {
    && LogGood(top, r.m.log) && m.log <= r.m.log
    && match r.err
       case NoError => r.m.s == Durable(r.m.log) && r.m.s.status == Failed
       case SnapshotFailed => true
       case Cancelled => env.cancelled(r.m.log)
       case Continue => r.m.s == Durable(r.m.log)
       case CompensationFailed => r.m.s == Durable(r.m.log) && r.m.s.status == Compensating
       case _ => false
  }

  lemma Regroup(a: seq<Path>, b: seq<Path>, c: seq<Path>)
    ensures a + b + c == a + (b + c)
  {
  }

  /** The last entry of a journal prefix is what is undone next. */
  lemma UndoStep(cs: seq<CompletedStep>, i: nat)
    requires i < |cs|
    ensures Undo(cs[..i + 1]) == (if cs[i].hasCompensator then [cs[i].path] else []) + Undo(cs[..i])
  {
    assert cs[..i + 1][..i] == cs[..i];
  }

  /** While rolling back, a state that keeps the journal may be saved as the index falls. */
  lemma RollbackAllowed(top: seq<Step>, log: Log, s: RunState)
    requires LogGood(top, log)
    requires var d := Durable(log);
      && d.status == Compensating && s.revision == d.revision + 1
      && s.completedSteps == d.completedSteps
      && JournalOK(top, d.completedSteps)
      && s.compensationIndex <= d.compensationIndex
      && (s.status == Compensating || s.status == Failed)
      && (s.status == Compensating ==> -1 <= s.compensationIndex < |s.completedSteps|)
      && (s.status == Failed ==> s.compensationIndex == -1)
    requires RollbackOK(Recorded(log + [Saved(s)]), s)
    ensures Allowed(top, log, Saved(s))
  {
  }

  lemma {:induction false} CompensateGood(env: Env, top: seq<Step>, m: Machine, i: int)
    requires Undoing(top, m, i)
    ensures RollbackPost(env, top, m, CompensateFrom(env, top, m, i))
    decreases i + 1, 1
  {
    hide LogGood, Undo;
    if i < 0 {
      FinishRollback(env, top, m);
    } else if !m.s.completedSteps[i].hasCompensator {
      SkipUndoing(top, m, i);
      CompensateGood(env, top, m.(s := m.s.(compensationIndex := i - 1)), i - 1);
    } else if !env.cancelled(m.log) {
      assert EntryOK(top, m.s.completedSteps[i]);
      CompensateOne(env, top, m, i);
    }
  }

  lemma SkipUndoing(top: seq<Step>, m: Machine, i: nat)
    requires Undoing(top, m, i) && !m.s.completedSteps[i].hasCompensator
    ensures Undoing(top, m.(s := m.s.(compensationIndex := i - 1)), i - 1)
  {
    hide LogGood, JournalOK;
    UndoStep(m.s.completedSteps, i);
    assert [] + Undo(m.s.completedSteps[..i]) == Undo(m.s.completedSteps[..i]);
  }

  lemma {:induction false} CompensateOne(env: Env, top: seq<Step>, m: Machine, i: nat)
    requires Undoing(top, m, i) && m.s.completedSteps[i].hasCompensator
    ensures var a := Invoke(env, m, Compensate(m.s.completedSteps[i].path));
      RollbackPost(env, top, m,
        if a.reply.Fail? then
          StopCompensation(env, a.m.(s := a.m.s.(compensationIndex := i)), a.reply.failure)
        else
          var r := SnapshotData(env, a.m.(s := a.m.s.(compensationIndex := i - 1)));
          if r.err == NoError then CompensateFrom(env, top, r.m, i - 1) else r)
    decreases i + 1, 0
  {
    hide LogGood, Persisted, JournalOK;
    var a := Invoke(env, m, Compensate(m.s.completedSteps[i].path));
    if a.reply.Fail? {
      CompensatorFailed(env, top, m, i);
    } else {
      CompensatorDone(env, top, m, i);
      var r := SnapshotData(env, a.m.(s := a.m.s.(compensationIndex := i - 1)));
      if r.err == NoError {
        CompensateGood(env, top, r.m, i - 1);
        LogsGrow(m.log, r.m.log, CompensateFrom(env, top, r.m, i - 1).m.log);
      }
    }
  }

  lemma FinishRollback(env: Env, top: seq<Step>, m: Machine)
    requires Undoing(top, m, -1)
    ensures RollbackPost(env, top, m, CompensateFrom(env, top, m, -1))
  {
    var m2 := m.(s := m.s.(status := Failed, compensationIndex := -1));
    var s := Candidate(m2);
    DurableOK(top, m.log);
    Append(m.log, Saved(s));
    RollbackAllowed(top, m.log, s);
    SaveGood(env, top, m2);
  }

  /** The compensator called is the next pending one. */
  lemma UndoOne(env: Env, top: seq<Step>, m: Machine, i: nat)
    requires Undoing(top, m, i) && m.s.completedSteps[i].hasCompensator
    ensures var path := m.s.completedSteps[i].path; var a := Invoke(env, m, Compensate(path));
      && LogGood(top, a.m.log) && Durable(a.m.log) == Durable(m.log)
      && a.m.log == m.log + [Called(Compensate(path), a.reply)]
      && Recorded(a.m.log) == Recorded(m.log)
  {
    var d := Durable(m.log);
    var path := m.s.completedSteps[i].path;
    UndoStep(d.completedSteps, i);
    assert EntryOK(top, m.s.completedSteps[i]);
    assert CallOK(top, m.log, Compensate(path));
    var e := Called(Compensate(path), Invoke(env, m, Compensate(path)).reply);
    Append(m.log, e);
    AppendGood(top, m.log, e);
  }

  /** A failed compensator stays pending in what is saved. */
  lemma StillPending(env: Env, top: seq<Step>, m: Machine, i: nat)
    requires Undoing(top, m, i) && m.s.completedSteps[i].hasCompensator
    ensures var a := Invoke(env, m, Compensate(m.s.completedSteps[i].path));
      a.reply.Fail? ==> Allowed(top, a.m.log, Saved(Candidate(a.m.(s := a.m.s.(compensationIndex := i)))))
  {
    hide LogGood, CallOK, RollbackOK, JournalOK;
    UndoOne(env, top, m, i);
    var a := Invoke(env, m, Compensate(m.s.completedSteps[i].path));
    var s := Candidate(a.m.(s := a.m.s.(compensationIndex := i)));
    if a.reply.Fail? {
      NothingRecorded(env, top, m, i);
      RollbackAllowed(top, a.m.log, s);
    }
  }

  lemma NothingRecorded(env: Env, top: seq<Step>, m: Machine, i: nat)
    requires Undoing(top, m, i) && m.s.completedSteps[i].hasCompensator
    requires Invoke(env, m, Compensate(m.s.completedSteps[i].path)).reply.Fail?
    ensures var a := Invoke(env, m, Compensate(m.s.completedSteps[i].path));
      var s := Candidate(a.m.(s := a.m.s.(compensationIndex := i)));
      RollbackOK(Recorded(a.m.log + [Saved(s)]), s)
  {
    hide LogGood, CallOK, JournalOK, Undo;
    UndoOne(env, top, m, i);
    var a := Invoke(env, m, Compensate(m.s.completedSteps[i].path));
    var s := Candidate(a.m.(s := a.m.s.(compensationIndex := i)));
    DurableOK(top, m.log);
    Append(a.m.log, Saved(s));
    assert Records(a.m.log, s) == [];
    assert Recorded(a.m.log) + [] == Recorded(a.m.log);
  }

  lemma CompensatorFailed(env: Env, top: seq<Step>, m: Machine, i: nat)
    requires Undoing(top, m, i) && m.s.completedSteps[i].hasCompensator
    requires Invoke(env, m, Compensate(m.s.completedSteps[i].path)).reply.Fail?
    ensures var a := Invoke(env, m, Compensate(m.s.completedSteps[i].path));
      RollbackPost(env, top, m, StopCompensation(env, a.m.(s := a.m.s.(compensationIndex := i)), a.reply.failure))
  {
    hide LogGood, Allowed;
    UndoOne(env, top, m, i);
    StillPending(env, top, m, i);
    var a := Invoke(env, m, Compensate(m.s.completedSteps[i].path));
    var failed := a.m.(s := a.m.s.(compensationIndex := i));
    SaveGood(env, top, failed);
    StopGood(env, top, m, failed, a.reply.failure);
  }

  lemma StopGood(env: Env, top: seq<Step>, m: Machine, failed: Machine, failure: Failure)
    requires LogGood(top, failed.log) && m.log <= failed.log
    requires failed.s.status == Compensating
    requires Persisted(top, failed, Candidate(failed), SnapshotData(env, failed))
    ensures RollbackPost(env, top, m, StopCompensation(env, failed, failure))
  {
    hide LogGood;
    LogsGrow(m.log, failed.log, SnapshotData(env, failed).m.log);
  }

  /** A successful compensator is recorded, and the one before it is next. */
  lemma CompensatorDone(env: Env, top: seq<Step>, m: Machine, i: nat)
    requires Undoing(top, m, i) && m.s.completedSteps[i].hasCompensator
    requires Invoke(env, m, Compensate(m.s.completedSteps[i].path)).reply.Ok?
    ensures var a := Invoke(env, m, Compensate(m.s.completedSteps[i].path));
      var r := SnapshotData(env, a.m.(s := a.m.s.(compensationIndex := i - 1)));
      && LogGood(top, r.m.log) && m.log <= r.m.log
      && (r.err == NoError || r.err == SnapshotFailed)
      && (r.err == NoError ==> Undoing(top, r.m, i - 1))
  {
    hide LogGood, Allowed;
    UndoOne(env, top, m, i);
    var d := Durable(m.log);
    var a := Invoke(env, m, Compensate(m.s.completedSteps[i].path));
    var m2 := a.m.(s := a.m.s.(compensationIndex := i - 1));
    var s := Candidate(m2);
    UndoStep(d.completedSteps, i);
    DurableOK(top, m.log);
    Append(a.m.log, Saved(s));
    var path := m.s.completedSteps[i].path;
    assert Pending(d) == [path] + Pending(s);
    assert Recorded(a.m.log + [Saved(s)]) == Recorded(m.log) + [path];
    Regroup(Recorded(m.log), [path], Pending(s));
    RollbackAllowed(top, a.m.log, s);
    SaveGood(env, top, m2);
    LogsGrow(m.log, a.m.log, SnapshotData(env, m2).m.log);
  }

  /** Entering compensation from a running state whose journal is in order. */
  lemma EnterGood(env: Env, top: seq<Step>, m: Machine, path: Path, cause: Cause, err: Error)
    requires LogGood(top, m.log)
    requires Durable(m.log).status == Running && m.s.revision == Durable(m.log).revision
    requires JournalOK(top, m.s.completedSteps)
    requires cause.TimedOut? ==> err == StepFailed(path, cause)
    ensures var r := EnterCompensation(env, top, m, path, cause, err);
      && LogGood(top, r.m.log) && m.log <= r.m.log
      && (RollbackPost(env, top, m, r)
          || (r.err == err && err == StepFailed(path, cause)
              && r.m.s == Durable(r.m.log) && r.m.s.status == Failed))
  {
    hide LogGood, Allowed, JournalOK;
    var m2 := m.(s := StartCompensation(m.s, path, cause));
    StartAllowed(top, m, path, cause);
    SaveGood(env, top, m2);
    var r := SnapshotData(env, m2);
    if r.err == NoError {
      StartUndoing(top, m2, r);
      CompensateGood(env, top, r.m, r.m.s.compensationIndex);
      LogsGrow(m.log, r.m.log, CompensateFrom(env, top, r.m, r.m.s.compensationIndex).m.log);
    }
  }

  lemma StartAllowed(top: seq<Step>, m: Machine, path: Path, cause: Cause)
    requires LogGood(top, m.log)
    requires Durable(m.log).status == Running && m.s.revision == Durable(m.log).revision
    requires JournalOK(top, m.s.completedSteps)
    ensures Allowed(top, m.log, Saved(Candidate(m.(s := StartCompensation(m.s, path, cause)))))
  {
    hide LogGood, JournalOK, TopPos, Ever, Marks, Undo, Recorded;
    var s := Candidate(m.(s := StartCompensation(m.s, path, cause)));
    DurableOK(top, m.log);
    Append(m.log, Saved(s));
    assert s.completedSteps[..|s.completedSteps|] == s.completedSteps;
    assert [] + Undo(s.completedSteps) == Undo(s.completedSteps);
  }

  lemma StartUndoing(top: seq<Step>, m: Machine, r: Result)
    requires Persisted(top, m, Candidate(m), r) && r.err == NoError
    requires m.s.status == Compensating && m.s.compensationIndex == |m.s.completedSteps| - 1
    requires JournalOK(top, m.s.completedSteps)
    ensures Undoing(top, r.m, r.m.s.compensationIndex)
  {
  }
}
