/**
 * What a failure leads to, over every run of every history: which failures start a rollback, with
 * which journal, and that it then undoes exactly what was achieved, latest first.
 */
module Failures {
  import opened Options
  import opened Decimal
  import opened Definition
  import opened State
  import opened Executor
  import opened Journal
  import opened Guarantees
  import opened NextCalls
  import opened Effects
  import opened Courses
  import opened FullHistory
  import opened Sequence
  import opened Script
  import opened Staging
  import A = Abridged

  // ---------- a failed call ----------

  /** The event at k, of the run of a history, keeps to the script. */
  lemma EventOfRun(env: Env, top: seq<Step>, log: Log, k: nat)
    requires History(env, top, log)
    ensures Loadable(Durable(log))
    ensures var r := Run(env, top, Durable(log), log);
      |log| <= k < |r.m.log| ==> Lines(Course(env, top, |log|), r.m.log[..k], r.m.log[k])
  {
    hide Run, Lines, Concludes, LogGood;
    RunIsScripted(env, top, log);
  }

  /** The last event of a run of a history settles its error. */
  lemma EndOfRun(env: Env, top: seq<Step>, log: Log)
    requires History(env, top, log)
    ensures Loadable(Durable(log))
    ensures var r := Run(env, top, Durable(log), log);
      log <= r.m.log && (r.m.log != log ==> |log| < |r.m.log| && Concludes(Course(env, top, |log|), r))
  {
    hide Run, Scripted, Concludes, LogGood;
    RunIsScripted(env, top, log);
  }

  /** The event before k is a failed Do, Check, Decide or Until of this run. */
  predicate FailedCall(log: Log, run: Log, k: nat) {
    && |log| < k <= |run| && run[k - 1].Called? && !run[k - 1].call.Compensate? && run[k - 1].reply.Fail?
  }

  /** It is not tried again: no action, no attempt left, or a continuation was asked for. */
  predicate Final(top: seq<Step>, run: Log, k: nat)
    requires 0 < k <= |run| && run[k - 1].Called? && run[k - 1].reply.Fail?
  {
    var call, failure := run[k - 1].call, run[k - 1].reply.failure;
    call.Do? && failure != RetryAfter ==> Tries(run[..k], call.path) >= Tolerance(RetryOf(top, call.path))
  }

  /** After a final failure a run that is not cancelled offers a state to the store. */
  lemma FailureIsSaved(env: Env, top: seq<Step>, log: Log, k: nat)
    requires History(env, top, log) && Loadable(Durable(log))
    requires var run := Run(env, top, Durable(log), log).m.log;
      FailedCall(log, run, k) && Final(top, run, k) && !env.cancelled(run[..k])
    ensures var run := Run(env, top, Durable(log), log).m.log; var call := run[k - 1].call;
      && k < |run| && (run[k].Saved? || run[k].Refused?)
      && var s := run[k].state;
      && s.pollStartedAt == PollClock(Course(env, top, |log|), run[..k])
      && AfterFailure(Course(env, top, |log|), run[..k], call, run[k - 1].reply.failure, s)
  {
    hide Run, Concludes, AfterFailure, AtRest, PollClock, AfterCompensate, AfterSuccess;
    var c, r := Course(env, top, |log|), Run(env, top, Durable(log), log);
    EndOfRun(env, top, log);
    var before := r.m.log[..k];
    assert before[k - 1] == r.m.log[k - 1];
    if k == |r.m.log| {
      assert before == r.m.log;
      CancelledEnd(c, r);
      assert false;
    }
    EventOfRun(env, top, log, k);
  }

  lemma CancelledEnd(c: Course, r: Result)
    requires Concludes(c, r) && r.m.log != [] && r.m.log[|r.m.log| - 1].Called?
    ensures c.env.cancelled(r.m.log)
  {
  }

  /**
   * A Do, Check, Decide or Until that finally failed starts a rollback: if the run is not cancelled,
   * the state it saves next has the whole durable journal to undo, from its last entry down.
   */
  lemma OrdinaryRollsBack(env: Env, top: seq<Step>, log: Log, k: nat)
    requires History(env, top, log) && Loadable(Durable(log))
    requires var run := Run(env, top, Durable(log), log).m.log;
      FailedCall(log, run, k) && Final(top, run, k) && run[k - 1].reply.failure == Ordinary && !env.cancelled(run[..k])
    ensures var run := Run(env, top, Durable(log), log).m.log; var d := Durable(run[..k]);
      && k < |run| && (run[k].Saved? || run[k].Refused?)
      && run[k].state.status == Compensating && run[k].state.failedStepPath == run[k - 1].call.path
      && run[k].state.completedSteps == d.completedSteps && run[k].state.compensationIndex == |d.completedSteps| - 1
  {
    hide Run, Final, PollClock;
    FailureIsSaved(env, top, log, k);
  }

  /** After a saved answer on which the run stops there is no further event. */
  lemma YieldEnds(env: Env, top: seq<Step>, log: Log, k: nat)
    requires History(env, top, log) && Loadable(Durable(log))
    requires var run := Run(env, top, Durable(log), log).m.log; k < |run| && Yielded(|log|, run[..k + 1])
    ensures var r := Run(env, top, Durable(log), log);
      && |r.m.log| == k + 1 && r.m.log[..k + 1] == r.m.log && Concludes(Course(env, top, |log|), r)
  {
    hide Run, Concludes, AfterFailure, AtRest, PollClock, AfterCompensate, AfterSuccess;
    var run := Run(env, top, Durable(log), log).m.log;
    EndOfRun(env, top, log);
    if k + 1 < |run| {
      assert run[..k + 1][k] == run[k];
      EventOfRun(env, top, log, k + 1);
      assert false;
    }
  }

  /**
   * A failure that asks for no compensation is saved without any: the state stays running with its
   * journal and what comes next, names the failed step, and the run ends with that failure.
   */
  lemma NoCompensateStays(env: Env, top: seq<Step>, log: Log, k: nat)
    requires History(env, top, log) && Loadable(Durable(log))
    requires var run := Run(env, top, Durable(log), log).m.log;
      FailedCall(log, run, k) && Final(top, run, k) && run[k - 1].reply.failure == NoCompensate && !env.cancelled(run[..k])
    ensures var r := Run(env, top, Durable(log), log); var run := r.m.log; var d, path := Durable(run[..k]), run[k - 1].call.path;
      && k < |run| && (run[k].Saved? || run[k].Refused?)
      && run[k].state.status == Running && run[k].state.failedStepPath == path
      && run[k].state.completedSteps == d.completedSteps && NextCall(top, run[k].state) == NextCall(top, d)
      && (run[k].Saved? ==>
            && |run| == k + 1
            && (r.err == StepFailed(path, Uncompensated) || (r.err == Cancelled && env.cancelled(run))))
  {
    hide Run, Final, PollClock, Concludes;
    FailureIsSaved(env, top, log, k);
    var r := Run(env, top, Durable(log), log);
    if r.m.log[k].Saved? {
      Halts(r.m.log, k);
      YieldEnds(env, top, log, k);
      VerdictAt(Course(env, top, |log|), r);
    }
  }

  lemma Halts(run: Log, k: nat)
    requires 0 < k < |run|
    ensures run[..k + 1][k] == run[k] && run[..k + 1][k - 1] == run[k - 1]
  {
  }

  lemma VerdictAt(c: Course, r: Result)
    requires Concludes(c, r) && Yielded(c.from, r.m.log) && !r.m.log[|r.m.log| - 2].call.Compensate?
    requires r.m.log[|r.m.log| - 1].state.status == Running || r.m.log[|r.m.log| - 1].state.status == Polling
    ensures var call, reply := r.m.log[|r.m.log| - 2].call, r.m.log[|r.m.log| - 2].reply;
      if reply.Ok? || reply.failure == RetryAfter then r.err == Continue
      else r.err == StepFailed(call.path, Uncompensated) || (r.err == Cancelled && c.env.cancelled(r.m.log))
  {
  }

  /** A failure that asks to be continued later is saved without any work done, and the run says so. */
  lemma RetryAfterYields(env: Env, top: seq<Step>, log: Log, k: nat)
    requires History(env, top, log) && Loadable(Durable(log))
    requires var run := Run(env, top, Durable(log), log).m.log;
      FailedCall(log, run, k) && run[k - 1].reply.failure == RetryAfter && !env.cancelled(run[..k])
    ensures var r := Run(env, top, Durable(log), log); var run := r.m.log; var d := Durable(run[..k]);
      && k < |run| && (run[k].Saved? || run[k].Refused?)
      && run[k].state.status == (if run[k - 1].call.Check? then Polling else Running)
      && run[k].state.completedSteps == d.completedSteps && NextCall(top, run[k].state) == NextCall(top, d)
      && (run[k].Saved? ==> |run| == k + 1 && r.err == Continue)
  {
    hide Run, PollClock, Concludes;
    FailureIsSaved(env, top, log, k);
    var r := Run(env, top, Durable(log), log);
    if r.m.log[k].Saved? {
      Halts(r.m.log, k);
      YieldEnds(env, top, log, k);
      VerdictAt(Course(env, top, |log|), r);
    }
  }

  /**
   * A compensator that fails in a run that is not cancelled stays the next one: the state saved has the
   * same journal and points at it, and the run ends there - to be continued later if it asked for that.
   */
  lemma CompensatorStaysNext(env: Env, top: seq<Step>, log: Log, k: nat)
    requires History(env, top, log) && Loadable(Durable(log))
    requires var run := Run(env, top, Durable(log), log).m.log;
      && |log| < k <= |run| && run[k - 1].Called? && run[k - 1].call.Compensate? && run[k - 1].reply.Fail?
      && !env.cancelled(run[..k])
    ensures var r := Run(env, top, Durable(log), log); var run := r.m.log; var d := Durable(run[..k]);
      && k < |run| && (run[k].Saved? || run[k].Refused?)
      && var s := run[k].state;
      && s.status == Compensating && s.completedSteps == d.completedSteps
      && 0 <= s.compensationIndex < |s.completedSteps| && s.completedSteps[s.compensationIndex].path == run[k - 1].call.path
      && (run[k].Saved? ==>
            && |run| == k + 1
            && if run[k - 1].reply.failure == RetryAfter then r.err == Continue
               else r.err == CompensationFailed || (r.err == Cancelled && env.cancelled(run)))
  {
    hide Run, PollClock, Concludes, DataNow, Tries, AfterFailure, AfterSuccess, AtRest;
    var c, r := Course(env, top, |log|), Run(env, top, Durable(log), log);
    var run := r.m.log;
    EndOfRun(env, top, log);
    assert run[..k][k - 1] == run[k - 1];
    if k == |run| {
      assert run[..k] == run;
      CancelledEnd(c, r);
      assert false;
    }
    EventOfRun(env, top, log, k);
    if run[k].Saved? {
      Halts(run, k);
      YieldEnds(env, top, log, k);
      UndoVerdictAt(c, r);
    }
  }

  lemma UndoVerdictAt(c: Course, r: Result)
    requires Concludes(c, r) && Yielded(c.from, r.m.log) && r.m.log[|r.m.log| - 2].call.Compensate?
    requires r.m.log[|r.m.log| - 1].state.status == Compensating
    ensures if r.m.log[|r.m.log| - 2].reply.failure == RetryAfter then r.err == Continue
            else r.err == CompensationFailed || (r.err == Cancelled && c.env.cancelled(r.m.log))
  {
  }

  /**
   * A run that ends Failed returns no error, unless it was the time limit of a repeat that failed it:
   * then it says so, and which, in whatever run the rollback came to its end.
   */
  lemma FailedReturns(env: Env, top: seq<Step>, log: Log)
    requires History(env, top, log) && Loadable(Durable(log)) && !Durable(log).IsTerminal()
    requires var run := Run(env, top, Durable(log), log).m.log;
      run != log && run != [] && run[|run| - 1].Saved? && run[|run| - 1].state.status == Failed && !env.cancelled(run)
    ensures var r := Run(env, top, Durable(log), log); var s := r.m.log[|r.m.log| - 1].state;
      r.err == if s.repeatTimeout.None? then NoError
               else if Durable(log).status == Compensating then RepeatTimedOut
               else StepFailed(s.failedStepPath, TimedOut(s.repeatTimeout.value))
  {
    hide Run, Yielded;
    EndOfRun(env, top, log);
    var run := Run(env, top, Durable(log), log).m.log;
    assert run[..|log|] == log;
  }

  // ---------- what starts a rollback ----------

  /** Why the state s, which begins a rollback, may be saved after this log. */
  ghost predicate Reason(env: Env, top: seq<Step>, log: Log, s: RunState) {
    && log != []
    && var e := log[|log| - 1];
    if e.Called? then
      && s.failedStepPath == e.call.path && !e.call.Compensate?
      && if e.reply.Fail? then e.reply.failure == Ordinary && Final(top, log, |log|)
         else if e.call.Decide? then !KnownKey(top, e.call.path, e.reply.key)
         else e.call.Until? && !e.reply.done && AtLimit(top, e.call)
    else
      && e.Saved?
      && (PollExpired(env, top, log, s.failedStepPath)
          || (&& RepeatExpired(env, top, log, s.failedStepPath) && s.repeatTimeout.Some?
              && s.repeatTimeout.value.maxDuration == LimitOf(top, s.failedStepPath)))
  }

  /** The journal is the durable one, but for an iteration that a compact repeat forgot at its limit. */
  predicate SameJournal(top: seq<Step>, log: Log, s: RunState) {
    var d := Durable(log);
    if Hanging(log) && CompactAt(top, log[|log| - 1].call.path) then
      s.completedSteps == Outside(d.completedSteps, log[|log| - 1].call.path + [Itoa(log[|log| - 1].call.iteration)])
    else s.completedSteps == d.completedSteps
  }

  /**
   * The rollback of a history starts only for one of these reasons: a final ordinary failure, a
   * decision for no path, an Until that was not done in the last iteration, a limit that had run out
   * when it was read. It starts with the journal that was durable then, all of it still to undo.
   */
  lemma RollbackStarts(env: Env, top: seq<Step>, log: Log, k: nat)
    requires History(env, top, log) && k < |log| && log[k].Saved?
    requires log[k].state.status == Compensating && Durable(log[..k]).status != Compensating
    ensures Reason(env, top, log[..k], log[k].state) && SameJournal(top, log[..k], log[k].state)
    ensures log[k].state.compensationIndex == |log[k].state.completedSteps| - 1
    ensures !env.cancelled(log[..k])
  {
    hide History, Lines, Reason, SameJournal;
    var from := EventPlays(env, top, log, k);
    StartsAt(Course(env, top, from), log[..k], log[k].state);
  }

  lemma StartsAt(c: Course, log: Log, s: RunState)
    requires Lines(c, log, Saved(s)) && s.status == Compensating && Durable(log).status != Compensating
    ensures Reason(c.env, c.top, log, s) && SameJournal(c.top, log, s) && s.compensationIndex == |s.completedSteps| - 1
    ensures !c.env.cancelled(log)
  {
    hide PollExpired, RepeatExpired, KnownKey, NextCall, ByCall, Stays, PollClock, Outside, DataNow, Yielded;
    assert log[..|log|] == log;
  }

  // ---------- what a rollback undoes ----------

  /** Below an iteration of a compact repeat no step is compensated. */
  lemma {:induction false} CompactBelow(steps: seq<Step>, p: Path, rest: Path)
    requires ValidSteps(steps) && CompactAt(steps, p) && |rest| >= 2 && FindStep(steps, p + rest).Some?
    ensures !Compensable(FindStep(steps, p + rest).value)
    decreases |p|
  {
    var step := steps[Find(steps, p[0]).value];
    if |p| == 1 {
      assert (p + rest)[2..] == rest[1..];
      assert ValidStep(step);
      NothingCompensable(step.kind.steps, rest[1..]);
    } else {
      assert (p + rest)[2..] == p[2..] + rest && (p + rest)[0] == p[0] && (p + rest)[1] == p[1];
      assert ValidStep(step);
      match step.kind
      case Branch(paths) => CompactBelow(paths[FindKey(paths, p[1]).value].steps, p[2..], rest);
      case Repeat(inner, _, _, _) => CompactBelow(inner, p[2..], rest);
    }
  }

  /** Forgetting an iteration of a compact repeat leaves the rollback as it is. */
  lemma ForgetsNothing(top: seq<Step>, cs: seq<CompletedStep>, p: Path, n: nat)
    requires Valid(top) && JournalOK(top, cs) && CompactAt(top, p)
    ensures Undo(Outside(cs, p + [Itoa(n)])) == Undo(cs)
  {
    var prefix := p + [Itoa(n)];
    forall e | e in cs && IsPrefix(prefix, e.path) ensures !e.hasCompensator {
      assert EntryOK(top, e);
      var rest := e.path[|p|..];
      assert e.path == p + rest && rest[0] == Itoa(n);
      FoundOdd(top, p);
      FoundOdd(top, e.path);
      CompactBelow(top, p, rest);
    }
    A.UndoOutside(cs, prefix);
  }

  lemma SameUndo(top: seq<Step>, log: Log, s: RunState)
    requires Valid(top) && JournalOK(top, Durable(log).completedSteps) && SameJournal(top, log, s)
    ensures Undo(s.completedSteps) == Undo(Durable(log).completedSteps)
  {
    hide JournalOK, Valid, Undo, Outside;
    if Hanging(log) && CompactAt(top, log[|log| - 1].call.path) {
      ForgetsNothing(top, Durable(log).completedSteps, log[|log| - 1].call.path, log[|log| - 1].call.iteration);
    }
  }

  /** The event after log makes the success of a compensated action durable. */
  predicate Achieves(top: seq<Step>, log: Log, e: Event) {
    && e.Saved? && log != [] && log[|log| - 1].Called? && log[|log| - 1].call.Do? && log[|log| - 1].reply.Ok?
    && FindStep(top, log[|log| - 1].call.path).Some? && Compensable(FindStep(top, log[|log| - 1].call.path).value)
    && IsCompleted(e.state, log[|log| - 1].call.path)
  }

  /** The compensated actions whose success was made durable, latest first. */
  function Achieved(top: seq<Step>, log: Log): seq<Path> {
    if log == [] then []
    else
      var before := log[..|log| - 1];
      (if Achieves(top, before, log[|log| - 1]) then [before[|before| - 1].call.path] else []) + Achieved(top, before)
  }

  lemma EntryUndone(d: RunState, path: Path, has: bool, at: Path)
    ensures var s := Complete(d, path, has).(currentPath := at);
      Undo(s.completedSteps) == (if has then [path] else []) + Undo(d.completedSteps) && IsCompleted(s, path)
  {
    A.UndoAppend(d.completedSteps, CompletedStep(path, has));
    assert Complete(d, path, has).completedSteps[|d.completedSteps|].path == path;
  }

  /** The end of an iteration adds nothing that is undone. */
  lemma IterationUndone(top: seq<Step>, step: Step, path: Path, d: RunState)
    requires Valid(top) && JournalOK(top, d.completedSteps) && FindStep(top, path) == Some(step) && step.kind.Repeat?
    ensures var rs := RepeatAt(d, path);
      && Undo(DoneState(step, path, d, rs).completedSteps) == Undo(d.completedSteps)
      && Undo(NextState(step, path, d, rs).completedSteps) == Undo(d.completedSteps)
  {
    hide JournalOK, Valid, Outside, Undo;
    var n := RepeatAt(d, path).iteration;
    if step.kind.compact {
      ForgetsNothing(top, d.completedSteps, path, n);
    }
    A.UndoAppend(Retained(step, d, path, n).completedSteps, CompletedStep(path, false));
    assert [] + Undo(d.completedSteps) == Undo(d.completedSteps);
  }

  /** What the interpreter adds to the journal for one answer, as far as it can be undone. */
  lemma EffectAchieves(top: seq<Step>, d: RunState, call: Call, reply: Reply)
    requires Valid(top) && JournalOK(top, d.completedSteps) && reply.Ok? && !call.Compensate?
    requires FindStep(top, call.path).Some? && RightKind(call, FindStep(top, call.path).value)
    ensures var s, step := Effect(top, d, call, reply), FindStep(top, call.path).value;
      && Undo(s.completedSteps) == (if call.Do? && Compensable(step) then [call.path] else []) + Undo(d.completedSteps)
      && (call.Do? ==> IsCompleted(s, call.path))
  {
    hide JournalOK, Valid, Outside, Undo, IsCompleted, Complete, DoneState, NextState;
    var step, path := FindStep(top, call.path).value, call.path;
    assert [] + Undo(d.completedSteps) == Undo(d.completedSteps);
    match step.kind
    case Action(compensated, _) => EntryUndone(d, path, compensated, path);
    case Poll(_) => EntryUndone(d, path, false, path);
    case Branch(paths) =>
      forall at: Path {
        EntryUndone(d, path, false, at);
      }
    case Repeat(_, _, _, _) => IterationUndone(top, step, path, d);
  }

  // ---------- the rollback undoes what was achieved ----------

  /** The journal before and after a snapshot, and what that adds to the achievements. */
  ghost predicate Adds(top: seq<Step>, log: Log, s: RunState) {
    Undo(s.completedSteps) ==
      (if Achieves(top, log, Saved(s)) then [log[|log| - 1].call.path] else []) + Undo(Durable(log).completedSteps)
  }

  lemma AchievedNext(top: seq<Step>, log: Log, e: Event)
    ensures Achieved(top, log + [e]) == (if Achieves(top, log, e) then [log[|log| - 1].call.path] else []) + Achieved(top, log)
  {
    assert (log + [e])[..|log|] == log;
  }

  /** A call that follows the last durable state is not one of a step that state has completed. */
  lemma NotRedone(env: Env, top: seq<Step>, log: Log, k: nat)
    requires History(env, top, log) && 0 < k < |log| && log[k - 1].Called? && !log[k - 1].call.Compensate?
    ensures var d, call := Durable(log[..k]), log[k - 1].call;
      && d == Durable(log[..k - 1]) && d.status == Running && !IsCompleted(d, call.path)
      && FindStep(top, call.path).Some? && RightKind(call, FindStep(top, call.path).value) && JournalOK(top, d.completedSteps)
  {
    hide LogGood, JournalOK, TopPos, RollbackOK, Ahead, History;
    HistoryIsGood(env, top, log);
    EventAllowed(top, log, k - 1);
    DurableOK(top, log[..k - 1]);
    assert log[..k] == log[..k - 1] + [log[k - 1]];
    Append(log[..k - 1], log[k - 1]);
    var d, path := Durable(log[..k]), log[k - 1].call.path;
    assert IsCompleted(d, path) ==> Marked(d, path);
    assert Marked(d, path) ==> path in Marks(d);
  }

  /** A snapshot of a run going forward does not follow a compensation. */
  lemma NotUndone(env: Env, top: seq<Step>, log: Log, k: nat)
    requires History(env, top, log) && 0 < k < |log| && log[k - 1].Called? && log[k].Saved? && GoesForward(log[k].state)
    ensures !log[k - 1].call.Compensate?
  {
    hide History;
    if log[k - 1].call.Compensate? {
      CompensatedOnce(env, top, log, k - 1);
      assert log[..k] == log[..k - 1] + [log[k - 1]];
      Append(log[..k - 1], log[k - 1]);
      ForwardBefore(env, top, log, k);
    }
  }

  lemma SameCompleted(s: RunState, s': RunState)
    requires s'.completedSteps == s.completedSteps
    ensures forall q :: IsCompleted(s', q) == IsCompleted(s, q)
  {
  }

  /** Going forward, the journal grows by what was achieved. */
  lemma ForwardAdds(env: Env, top: seq<Step>, log: Log, k: nat)
    requires History(env, top, log) && k < |log| && log[k].Saved? && GoesForward(log[k].state)
    ensures Adds(top, log[..k], log[k].state)
  {
    hide History, LogGood, Effect, JournalOK, Undo, GoesForward, Valid, NextCall, IsCompleted;
    var d, s := Durable(log[..k]), log[k].state;
    FollowsInterpreter(env, top, log, k);
    ValidHistory(env, top, log);
    if k > 0 && log[k - 1].Called? {
      assert log[..k][k - 1] == log[k - 1];
      NotUndone(env, top, log, k);
      NotRedone(env, top, log, k);
    }
    if Agrees(top, d, s) {
      SameCompleted(d, s);
    } else {
      var call, reply := log[k - 1].call, log[k - 1].reply;
      EffectAchieves(top, d, call, reply);
      SameCompleted(Effect(top, d, call, reply), s);
    }
  }

  /** The start of a rollback and what follows it achieve nothing, and lose nothing. */
  lemma BackwardAdds(env: Env, top: seq<Step>, log: Log, k: nat)
    requires History(env, top, log) && k < |log| && log[k].Saved? && !GoesForward(log[k].state)
    ensures Adds(top, log[..k], log[k].state)
  {
    hide History, LogGood, JournalOK, Undo, Valid, NextCall, IsCompleted, TopPos, RollbackOK, Outside, AtLimit, PollExpired,
         RepeatExpired;
    var d, s := Durable(log[..k]), log[k].state;
    HistoryIsGood(env, top, log);
    EventAllowed(top, log, k);
    ValidHistory(env, top, log);
    if k > 0 {
      assert log[..k][k - 1] == log[k - 1];
      if log[k - 1].Called? && !log[k - 1].call.Compensate? {
        NotRedone(env, top, log, k);
      }
    }
    if d.status != Compensating {
      RollbackStarts(env, top, log, k);
      JournalBefore(top, log[..k]);
      SameUndo(top, log[..k], s);
    }
  }

  lemma JournalBefore(top: seq<Step>, log: Log)
    requires LogGood(top, log)
    ensures JournalOK(top, Durable(log).completedSteps)
  {
    hide LogGood, TopPos, RollbackOK;
    DurableOK(top, log);
  }

  /** At any moment what the durable journal would undo is what was achieved so far. */
  lemma {:induction false} UndoIsAchieved(env: Env, top: seq<Step>, log: Log, k: nat)
    requires History(env, top, log) && k <= |log|
    ensures Undo(Durable(log[..k]).completedSteps) == Achieved(top, log[..k])
    decreases k
  {
    hide History, Achieves, GoesForward;
    if k > 0 {
      var before, e := log[..k - 1], log[k - 1];
      assert log[..k] == before + [e];
      UndoIsAchieved(env, top, log, k - 1);
      AchievedNext(top, before, e);
      Append(before, e);
      if e.Saved? {
        if GoesForward(e.state) {
          ForwardAdds(env, top, log, k - 1);
        } else {
          BackwardAdds(env, top, log, k - 1);
        }
      } else {
        AchievesSaved(top, before, e);
      }
    }
  }

  lemma AchievesSaved(top: seq<Step>, log: Log, e: Event)
    requires !e.Saved?
    ensures !Achieves(top, log, e)
  {
  }

  /**
   * When a run has failed, the compensations recorded over all restarts are those of exactly the
   * compensated actions whose success had been made durable, in the opposite order: the action that
   * succeeded last is compensated first.
   */
  lemma RollbackUndoesAchieved(env: Env, top: seq<Step>, log: Log)
    requires History(env, top, log) && Durable(log).status == Failed
    ensures Recorded(log) == Achieved(top, log)
  {
    hide History, Achieved, Recorded, Undo;
    RollbackExact(env, top, log);
    UndoIsAchieved(env, top, log, |log|);
    assert log[..|log|] == log;
  }

  /** During the rollback they begin with what has been recorded and end with what is pending. */
  lemma RollbackUndoesRest(env: Env, top: seq<Step>, log: Log)
    requires History(env, top, log) && Durable(log).status == Compensating
    ensures Recorded(log) + Pending(Durable(log)) == Achieved(top, log)
  {
    hide History, Achieved, Recorded, Undo, Pending;
    RollbackPartial(env, top, log);
    UndoIsAchieved(env, top, log, |log|);
    assert log[..|log|] == log;
  }
}
