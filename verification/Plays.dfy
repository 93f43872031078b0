/**
 * The third induction over the tree, under any environment: every event of a run is one that the
 * script allows after what went before, and the run ends with the error its log asks for.
 */
module Plays {
  import opened Options
  import opened Decimal
  import opened Definition
  import opened State
  import opened Executor
  import opened Journal
  import opened Scopes
  import opened Places
  import opened Records
  import opened NextCalls
  import opened Effects
  import opened Courses
  import opened Reentry
  import opened CutRollback
  import opened Script

  /** What handing the state to the store would offer it. */
  function Offer(m: Machine): RunState {
    m.s.(data := m.data, revision := m.s.revision + 1)
  }

  /** The run began by going forward. */
  predicate Onward(c: Course, log: Log) {
    c.from <= |log| && Durable(log[..c.from]).status != Compensating
  }

  predicate Abreast(d: RunState, s: RunState) {
    s.completedSteps == d.completedSteps && s.pollStartedAt == d.pollStartedAt && Unfailed(d, s)
  }

  /** Between two steps: the last event is a snapshot on which the run does not stop. */
  ghost predicate Resting(c: Course, m: Machine) {
    && Scripted(c, m.log) && Onward(c, m.log) && c.from < |m.log|
    && m.log[|m.log| - 1].Saved? && Durable(m.log).status == Running && !Yielded(c.from, m.log)
    && m.data == DataNow(c, m.log) && m.s.repeatTimeout.None? && Abreast(Durable(m.log), m.s)
  }

  /** A forward call has been answered, and is not tried again. */
  ghost predicate Answered(c: Course, m: Machine, call: Call, reply: Reply) {
    && Scripted(c, m.log) && Onward(c, m.log) && c.from < |m.log|
    && m.log[|m.log| - 1] == Called(call, reply) && !call.Compensate? && !Retries(c.top, m.log)
    && m.data == DataNow(c, m.log) && m.s.repeatTimeout.None? && Unfailed(Durable(m.log), m.s) && m.s.status == Running
  }

  /** The last answer was a failure without compensation of the step at path. */
  predicate Uncompensable(log: Log, path: Path) {
    && log != []
    && var e := log[|log| - 1];
    e.Called? && !e.call.Compensate? && e.call.path == path && e.reply == Fail(NoCompensate)
  }

  predicate Undid(log: Log) {
    log != [] && log[|log| - 1].Called? && log[|log| - 1].call.Compensate?
  }

  /** The step at path has failed; its scope may save what it makes of that. */
  ghost predicate Faults(c: Course, path: Path, m: Machine, cause: Cause) {
    && Verdict(c, m.log) == Cancelled && c.from < |m.log| && !Undid(m.log)
    && m.data == DataNow(c, m.log) && m.s.repeatTimeout.None?
    && (!c.env.cancelled(m.log) ==>
          if cause.Uncompensated? then
            Uncompensable(m.log, path) && May(c, m.log, Offer(m.(s := m.s.(failedStepPath := path))))
          else May(c, m.log, Offer(m.(s := StartCompensation(m.s, path, cause)))))
  }

  ghost predicate StepPlays(c: Course, path: Path, r: Result) {
    && Scripted(c, r.m.log) && Onward(c, r.m.log)
    && if r.err == NoError && r.m.s.status == Running then Resting(c, r.m)
       else if r.err.StepFailed? && r.m.s.status == Running && |r.err.path| <= |path| then
         r.err.path == path && Faults(c, path, r.m, r.err.cause)
       else Concludes(c, r) && (r.m.s.status == Running ==> r.err != CompensationFailed)
  }

  ghost predicate ScopePlays(c: Course, scope: Path, r: Result) {
    && Scripted(c, r.m.log) && Onward(c, r.m.log)
    && if r.err == NoError && r.m.s.status == Running then Resting(c, r.m)
       else
         && Concludes(c, r)
         && (r.m.s.status == Running ==> r.err != CompensationFailed && (r.err.StepFailed? ==> |r.err.path| > |scope|))
  }

  // ---------- logs ----------

  lemma Extends(c: Course, log: Log, e: Event)
    requires Scripted(c, log) && Lines(c, log, e)
    ensures Scripted(c, log + [e]) && (log + [e])[..c.from] == log[..c.from]
    ensures DataNow(c, log + [e]) == if e.Called? then c.env.call(log, e.call, DataNow(c, log)).data else DataNow(c, log)
    ensures Durable(log + [e]) == if e.Saved? then e.state else Durable(log)
  {
    hide Lines;
    assert (log + [e])[..|log|] == log;
    forall k | c.from <= k < |log| + 1 ensures Lines(c, (log + [e])[..k], (log + [e])[k]) {
      if k < |log| {
        assert (log + [e])[..k] == log[..k];
      }
    }
  }

  /** A state that may come next is offered to the store. */
  lemma Offers(c: Course, m: Machine)
    requires Scripted(c, m.log) && May(c, m.log, Offer(m))
    ensures var r := SnapshotData(c.env, m);
      && Scripted(c, r.m.log) && c.from < |r.m.log| && r.m.log[..c.from] == m.log[..c.from]
      && r.m.data == m.data && DataNow(c, r.m.log) == DataNow(c, m.log)
      && (r.err == NoError || r.err == SnapshotFailed)
      && (r.err == NoError ==> r.m.s == Offer(m) && r.m.log == m.log + [Saved(Offer(m))] && Durable(r.m.log) == Offer(m))
      && (r.err == SnapshotFailed ==> Verdict(c, r.m.log) == SnapshotFailed)
  {
    hide May, Scripted;
    var s := Offer(m);
    var e := if c.env.save(m.log, s) then Saved(s) else Refused(s);
    Extends(c, m.log, e);
    ScriptedFrom(c, m.log);
  }

  lemma ScriptedFrom(c: Course, log: Log)
    requires Scripted(c, log)
    ensures c.from <= |log|
  {
  }

  lemma Calls(c: Course, m: Machine, call: Call)
    requires Scripted(c, m.log) && Asks(c, m.log, call) && m.data == DataNow(c, m.log)
    ensures var a := Invoke(c.env, m, call);
      && Scripted(c, a.m.log) && a.m.log[..c.from] == m.log[..c.from] && a.m.log[..|m.log|] == m.log
      && a.m.log == m.log + [Called(call, a.reply)] && Durable(a.m.log) == Durable(m.log)
      && a.m.data == DataNow(c, a.m.log)
  {
    hide Asks, Scripted;
    Extends(c, m.log, Called(call, Invoke(c.env, m, call).reply));
  }

  lemma OnwardSame(c: Course, log: Log, log': Log)
    requires Onward(c, log) && c.from <= |log'| && log'[..c.from] == log[..c.from]
    ensures Onward(c, log')
  {
  }

  // ---------- answers that are saved ----------

  /** A success that is saved: the run goes on. */
  lemma AnswerSaved(c: Course, m: Machine, call: Call, reply: Reply, path: Path)
    requires Answered(c, m, call, reply) && reply.Ok? && (call.Check? || call.Until? ==> reply.done)
    requires May(c, m.log, Offer(m))
    ensures StepPlays(c, path, SnapshotData(c.env, m))
  {
    hide May, Scripted, Retries, DataNow, SnapshotData;
    Offers(c, m);
    OnwardSame(c, m.log, SnapshotData(c.env, m).m.log);
  }

  /** The run stops until it is started again. */
  lemma AnswerDeferred(c: Course, m: Machine, call: Call, reply: Reply, path: Path, polling: bool)
    requires Answered(c, m, call, reply)
    requires if reply.Fail? then reply.failure == RetryAfter else !reply.done && (call.Check? || call.Until?)
    requires May(c, m.log, Offer(if polling then m.(s := m.s.(status := Polling)) else m))
    ensures StepPlays(c, path, PersistDeferred(c.env, m, polling))
  {
    hide May, Scripted, Retries, DataNow, SnapshotData;
    var t := if polling then m.(s := m.s.(status := Polling)) else m;
    Offers(c, t);
    OnwardSame(c, m.log, SnapshotData(c.env, t).m.log);
  }

  lemma StaysSame(top: seq<Step>, d: RunState, s: RunState, s': RunState)
    requires Stays(top, d, s)
    requires s'.completedSteps == s.completedSteps && s'.repeatStates == s.repeatStates && s'.currentPath == s.currentPath
    ensures Stays(top, d, s')
  {
    hide Agrees;
    AgreesSame(top, d, s, s');
    assert forall q :: RepeatAt(s', q) == RepeatAt(s, q);
  }

  lemma TracksStays(top: seq<Step>, log: Log, s: RunState)
    requires Tracks(top, Durable(log), s)
    ensures Stays(top, Durable(log), s)
  {
    hide NextCall, Agrees;
    TracksWorked(top, log, s);
    var d := Durable(log);
    var q :| OffBy(top, d, s, q);
    forall p ensures RepeatAt(s, p).startedAt == RepeatAt(d, p).startedAt {
      assert p != q ==> RepeatAt(s, p) == RepeatAt(d, p);
    }
  }

  /** A failure that is not tried again. */
  lemma AnswerFailed(c: Course, m: Machine, call: Call, failure: Failure)
    requires Answered(c, m, call, Fail(failure)) && Stays(c.top, Durable(m.log), m.s)
    requires failure == RetryAfter || !c.env.cancelled(m.log) ==> m.s.pollStartedAt == PollClock(c, m.log)
    ensures StepPlays(c, call.path, CallbackFailed(c.env, m, call.path, failure, call.Check?))
  {
    hide Scripted, Retries, DataNow, SnapshotData, Stays, PollClock;
    var d := Durable(m.log);
    StaysJournal(c.top, d, m.s);
    forall s': RunState | s' == m.s.(status := s'.status, data := m.data, revision := m.s.revision + 1, failedStepPath := s'.failedStepPath)
      ensures Stays(c.top, d, s')
    {
      StaysSame(c.top, d, m.s, s');
    }
    if failure == RetryAfter {
      var t := if call.Check? then m.(s := m.s.(status := Polling)) else m;
      assert May(c, m.log, Offer(t));
      AnswerDeferred(c, m, call, Fail(failure), call.path, call.Check?);
    } else if !c.env.cancelled(m.log) {
      if failure == NoCompensate {
        assert May(c, m.log, Offer(m.(s := m.s.(failedStepPath := call.path))));
      } else {
        assert May(c, m.log, Offer(m.(s := StartCompensation(m.s, call.path, Plain))));
      }
    }
  }

  lemma StaysJournal(top: seq<Step>, d: RunState, s: RunState)
    requires Stays(top, d, s)
    ensures s.completedSteps == d.completedSteps
  {
  }

  // ---------- actions ----------

  predicate ActionAt(top: seq<Step>, path: Path, retry: Option<Retry>) {
    var f := FindStep(top, path);
    f.Some? && f.value.kind.Action? && f.value.kind.retry == retry
  }

  lemma ActionIs(top: seq<Step>, path: Path, retry: Option<Retry>)
    requires ActionAt(top, path, retry)
    ensures RetryOf(top, path) == retry && LimitOf(top, path) == 0
  {
  }

  /** Do is about to be called, for the first time or after a wait. */
  ghost predicate Trying(c: Course, m: Machine, path: Path, retry: Option<Retry>, left: nat, delay: int) {
    && Scripted(c, m.log) && c.from < |m.log| && m.data == DataNow(c, m.log)
    && ActionAt(c.top, path, retry) && Admitted(c, m.log, path) && Asks(c, m.log, Do(path))
    && Tries(m.log, path) + left == Tolerance(retry) && left >= 1 && delay == Pause(retry, Tries(m.log, path) + 1)
  }

  /** The last attempt was made, or the wait before another one was cancelled. */
  ghost predicate Tried(c: Course, m: Machine, path: Path, a: Answer) {
    && Scripted(c, a.m.log) && c.from < |m.log| && m.log <= a.m.log && a.m.log[..c.from] == m.log[..c.from]
    && a.m.data == DataNow(c, a.m.log) && a.m.s == m.s && Durable(a.m.log) == Durable(m.log)
    && var e := a.m.log[|a.m.log| - 1];
    || (e == Called(Do(path), a.reply) && !Retries(c.top, a.m.log))
    || (e.Slept? && c.env.cancelled(a.m.log) && a.reply == Fail(Ordinary))
  }

  lemma AdmittedGrows(c: Course, log: Log, log': Log, path: Path)
    requires Admitted(c, log, path) && log <= log'
    requires forall p :: p < path ==> RepeatAt(Durable(log'), p).startedAt == RepeatAt(Durable(log), p).startedAt
    ensures Admitted(c, log', path)
  {
    hide RepeatPath, LimitOf;
    forall p | p < path && RepeatPath(c.top, p) && LimitOf(c.top, p) > 0 ensures SeenInTime(c, log', p) {
      assert SeenInTime(c, log, p);
      var started := RepeatAt(Durable(log), p).startedAt;
      var j :| c.from < j <= |log| && c.env.now(log[..j]) - started.value < LimitOf(c.top, p);
      assert log'[..j] == log[..j];
    }
  }

  lemma DoubledPause(retry: Option<Retry>, n: nat)
    requires n >= 1
    ensures NextDelay(Backoff(retry), Pause(retry, n)) == Pause(retry, n + 1)
  {
  }

  lemma {:induction false} AttemptPlays(c: Course, m: Machine, path: Path, retry: Option<Retry>, left: nat, delay: int)
    requires Trying(c, m, path, retry, left, delay)
    ensures Tried(c, m, path, Attempt(c.env, m, path, left, delay, Backoff(retry)))
    decreases left
  {
    hide *;
    TryingLeft(c, m, path, retry, left, delay);
    AttemptTurn(c.env, m, path, left, delay, Backoff(retry));
    var a := Invoke(c.env, m, Do(path));
    if a.reply.Ok? || a.reply.failure == RetryAfter || left == 1 {
      LastTry(c, m, path, retry, left, delay);
    } else {
      var slept := a.m.(log := a.m.log + [Slept(delay)]);
      Sleeps(c, m, path, retry, left, delay, a);
      if !c.env.cancelled(slept.log) {
        var later := Attempt(c.env, slept, path, left - 1, NextDelay(Backoff(retry), delay), Backoff(retry));
        AttemptPlays(c, slept, path, retry, left - 1, NextDelay(Backoff(retry), delay));
        TriedLater(c, m, slept, path, later);
      }
    }
  }

  /** One turn of the loop over the attempts. */
  lemma AttemptTurn(env: Env, m: Machine, path: Path, left: nat, delay: int, backoff: bool)
    requires left >= 1
    ensures var a := Invoke(env, m, Do(path));
      var slept := a.m.(log := a.m.log + [Slept(delay)]);
      Attempt(env, m, path, left, delay, backoff) ==
        if a.reply.Ok? || a.reply.failure == RetryAfter || left == 1 then a
        else if env.cancelled(slept.log) then Answer(slept, Fail(Ordinary))
        else Attempt(env, slept, path, left - 1, NextDelay(backoff, delay), backoff)
  {
  }

  lemma TryingLeft(c: Course, m: Machine, path: Path, retry: Option<Retry>, left: nat, delay: int)
    requires Trying(c, m, path, retry, left, delay)
    ensures left >= 1
  {
  }

  lemma LastTry(c: Course, m: Machine, path: Path, retry: Option<Retry>, left: nat, delay: int)
    requires Trying(c, m, path, retry, left, delay)
    requires var a := Invoke(c.env, m, Do(path)); a.reply.Ok? || a.reply.failure == RetryAfter || left == 1
    ensures Tried(c, m, path, Invoke(c.env, m, Do(path)))
  {
    hide Scripted, Asks, Admitted, Pause, RetryOf, ActionAt, LimitOf, DataNow;
    ActionIs(c.top, path, retry);
    Calls(c, m, Do(path));
    var a := Invoke(c.env, m, Do(path));
    assert a.m.log[..|a.m.log| - 1] == m.log;
  }

  lemma TriedLater(c: Course, m: Machine, m': Machine, path: Path, a: Answer)
    requires Tried(c, m', path, a) && c.from < |m.log| && m.log <= m'.log && m'.log[..c.from] == m.log[..c.from]
    requires Durable(m'.log) == Durable(m.log) && m'.s == m.s
    ensures Tried(c, m, path, a)
  {
    hide Scripted, DataNow, Durable, Retries;
    LogsGrow(m.log, m'.log, a.m.log);
  }

  /** One attempt failed and was waited for; the next one may be made. */
  lemma Sleeps(c: Course, m: Machine, path: Path, retry: Option<Retry>, left: nat, delay: int, a: Answer)
    requires Trying(c, m, path, retry, left, delay) && left > 1 && a == Invoke(c.env, m, Do(path))
    requires a.reply.Fail? && a.reply.failure != RetryAfter
    ensures var slept := a.m.(log := a.m.log + [Slept(delay)]);
      && Scripted(c, slept.log) && m.log <= slept.log && slept.log[..c.from] == m.log[..c.from]
      && Durable(slept.log) == Durable(m.log) && slept.data == DataNow(c, slept.log)
      && c.from < |m.log| && slept.s == m.s
      && if c.env.cancelled(slept.log) then Tried(c, m, path, Answer(slept, Fail(Ordinary)))
         else Trying(c, slept, path, retry, left - 1, NextDelay(Backoff(retry), delay))
  {
    hide Scripted, Asks, Admitted, NextDelay, Backoff, Pause, RetryOf, ActionAt, LimitOf, DataNow;
    ActionIs(c.top, path, retry);
    Calls(c, m, Do(path));
    assert a.m.log[..|a.m.log| - 1] == m.log;
    assert Lines(c, a.m.log, Slept(delay));
    Extends(c, a.m.log, Slept(delay));
    if !c.env.cancelled(a.m.log + [Slept(delay)]) {
      TriesAgain(c, m, path, retry, left, delay, a);
      DoubledPause(retry, Tries(a.m.log, path));
    }
  }

  lemma TriesAgain(c: Course, m: Machine, path: Path, retry: Option<Retry>, left: nat, delay: int, a: Answer)
    requires Trying(c, m, path, retry, left, delay) && a == Invoke(c.env, m, Do(path))
    requires var log := a.m.log + [Slept(delay)];
      && !c.env.cancelled(log) && Durable(log) == Durable(m.log) && LimitOf(c.top, path) == 0
    ensures var log := a.m.log + [Slept(delay)];
      Admitted(c, log, path) && Asks(c, log, Do(path)) && Tries(log, path) == Tries(m.log, path) + 1 == Tries(a.m.log, path)
  {
    hide Scripted, Admitted, Pause, RetryOf, ActionAt, DataNow;
    var log := a.m.log + [Slept(delay)];
    assert m.log <= log && log[..|log| - 1] == a.m.log && a.m.log[..|m.log|] == m.log;
    AdmittedGrows(c, m.log, log, path);
  }

  /** About to work at path. */
  ghost predicate Ready(c: Course, path: Path, m: Machine) {
    Resting(c, m) && Admitted(c, m.log, path) && !c.env.cancelled(m.log)
  }

  /** The attempts begin right after a snapshot. */
  lemma StartsTrying(c: Course, step: Step, compensated: bool, retry: Option<Retry>, path: Path, m: Machine)
    requires Carried(c, m) && Ready(c, path, m) && NextCall(c.top, m.s) == Some(Do(path))
    requires FindStep(c.top, path) == Some(step) && step.kind == Action(compensated, retry)
    ensures Trying(c, m, path, retry, MaxAttempts(retry), InitialDelay(retry))
  {
    hide Chronicle, Sound, Scripted, NextCall, Halfway, DataNow, Admitted;
    AskedNext(c, m);
  }

  lemma ActionPlays(c: Course, step: Step, compensated: bool, retry: Option<Retry>, path: Path, m: Machine)
    requires Carried(c, m) && Ready(c, path, m) && NextCall(c.top, m.s) == Some(Do(path)) && m.s.currentPath == path
    requires FindStep(c.top, path) == Some(step) && step.kind == Action(compensated, retry)
    ensures StepPlays(c, path, ExecAction(c.env, compensated, retry, path, m))
  {
    hide Carried, Ready, Trying, Tried, StepPlays, Attempt, MaxAttempts, InitialDelay, Backoff, CallbackFailed, SnapshotData;
    StartsTrying(c, step, compensated, retry, path, m);
    AttemptPlays(c, m, path, retry, MaxAttempts(retry), InitialDelay(retry));
    ActionTried(c, step, compensated, path, m, Attempt(c.env, m, path, MaxAttempts(retry), InitialDelay(retry), Backoff(retry)));
  }

  lemma ActionTried(c: Course, step: Step, compensated: bool, path: Path, m: Machine, a: Answer)
    requires Carried(c, m) && Ready(c, path, m) && NextCall(c.top, m.s) == Some(Do(path)) && m.s.currentPath == path
    requires FindStep(c.top, path) == Some(step) && step.kind.Action? && compensated == step.kind.compensated
    requires Tried(c, m, path, a)
    ensures StepPlays(c, path, if a.reply.Fail? then CallbackFailed(c.env, a.m, path, a.reply.failure, false)
                               else SnapshotData(c.env, a.m.(s := Complete(a.m.s, path, compensated))))
  {
    hide Chronicle, Sound, Scripted, Snapshot, SnapshotData, PersistDeferred, NextCall, Halfway, Agrees, Stays, DataNow, May,
         Retries, Admitted, Effect;
    OnwardSame(c, m.log, a.m.log);
    if a.m.log[|a.m.log| - 1].Called? {
      assert Answered(c, a.m, Do(path), a.reply);
      if a.reply.Fail? {
        TracksStays(c.top, a.m.log, a.m.s);
        AnswerFailed(c, a.m, Do(path), a.reply.failure);
      } else {
        DoneByCall(c, step, path, a.m, m, compensated);
        CompleteMay(c, a.m, Do(path), a.reply, path, compensated);
        AnswerSaved(c, a.m.(s := Complete(a.m.s, path, compensated)), Do(path), a.reply, path);
      }
    }
  }

  /** The journal entry of an action or a poll is what the interpreter makes of the answer. */
  lemma DoneByCall(c: Course, step: Step, path: Path, a: Machine, m: Machine, has: bool)
    requires Carried(c, m) && a.s == m.s && m.s.currentPath == path && FindStep(c.top, path) == Some(step)
    requires step.kind.Action? && has == step.kind.compensated && NextCall(c.top, m.s) == Some(Do(path))
    requires Durable(a.log) == Durable(m.log) && a.log != []
    requires var e := a.log[|a.log| - 1]; e.Called? && e.call == Do(path) && e.reply.Ok?
    ensures ByCall(c.top, a.log, Complete(a.s, path, has))
  {
    hide Chronicle, Sound, NextCall, Halfway, Agrees, Remembers, Linked;
    CompleteAgrees(c.top, Durable(m.log), m.s, path, has, path);
    assert Complete(m.s, path, has).(currentPath := path) == Complete(m.s, path, has);
  }

  /** A step is done: what is offered is what the interpreter makes of the answer. */
  lemma CompleteMay(c: Course, m: Machine, call: Call, reply: Reply, path: Path, has: bool)
    requires Answered(c, m, call, reply) && reply.Ok? && (call.Do? || (call.Check? && reply.done))
    requires ByCall(c.top, m.log, Complete(m.s, path, has)) && m.s.pollStartedAt == PollClock(c, m.log)
    ensures May(c, m.log, Offer(m.(s := Complete(m.s, path, has))))
  {
    hide Scripted, Agrees, Effect, NextCall, Retries, DataNow, PollClock;
    var s := Complete(m.s, path, has);
    AgreesSame(c.top, Effect(c.top, Durable(m.log), call, reply), s, Offer(m.(s := s)));
  }

  // ---------- polls ----------

  lemma CarriedStays(c: Course, m: Machine)
    requires Carried(c, m)
    ensures Stays(c.top, Durable(m.log), m.s) && NextCall(c.top, m.s) == NextCall(c.top, Durable(m.log))
    ensures Even(Durable(m.log), m.s)
  {
    hide Chronicle, Sound, NextCall, Halfway, Remembers, Linked;
    TracksStays(c.top, m.log, m.s);
  }

  /** The same state and data but for the clock of the poll. */
  function Since(m: Machine, started: Option<int>): Machine {
    m.(s := m.s.(pollStartedAt := started))
  }

  /** The whole limit has passed: the step fails without a call. */
  lemma PollExpires(c: Course, step: Step, path: Path, m: Machine)
    requires Carried(c, m) && Ready(c, path, m) && NextCall(c.top, m.s) == Some(Check(path))
    requires FindStep(c.top, path) == Some(step) && step.kind.Poll?
    requires var max := step.kind.maxDuration;
      max > 0 && m.s.pollStartedAt.Some? && c.env.now(m.log) - m.s.pollStartedAt.value >= max
    ensures StepPlays(c, path, Result(Since(m, None), StepFailed(path, Plain)))
  {
    hide Chronicle, Sound, Remembers, Linked, Scripted, NextCall, Agrees, Stays, DataNow, Admitted, Even;
    CarriedStays(c, m);
    assert PollExpired(c.env, c.top, m.log, path);
    var s := Offer(Since(m, None).(s := StartCompensation(Since(m, None).s, path, Plain)));
    assert !c.env.cancelled(m.log) ==> RollsBack(c, m.log, s, path, Durable(m.log).completedSteps, None);
  }

  /** What the clock of a poll is after an answer. */
  lemma PollClockAt(c: Course, m: Machine, a: Machine, reply: Reply, started: int)
    requires exists path :: a.log == m.log + [Called(Check(path), reply)]
    requires Durable(a.log) == Durable(m.log) && Durable(m.log).pollStartedAt == m.s.pollStartedAt
    requires started == if m.s.pollStartedAt.None? then c.env.now(m.log) else m.s.pollStartedAt.value
    ensures PollClock(c, a.log) ==
      if (reply.Ok? && !reply.done) || (reply.Fail? && reply.failure == RetryAfter) then Some(started) else None
  {
    assert a.log[..|a.log| - 1] == m.log;
  }

  lemma CheckStays(c: Course, path: Path, m: Machine, a: Answer)
    requires Resting(c, m) && Stays(c.top, Durable(m.log), m.s) && Even(Durable(m.log), m.s) && m.s.status == Running
    requires Scripted(c, a.m.log) && Onward(c, a.m.log) && a.m.log == m.log + [Called(Check(path), a.reply)]
    requires Durable(a.m.log) == Durable(m.log) && a.m.data == DataNow(c, a.m.log)
    requires a.m.s == m.s.(pollStartedAt := a.m.s.pollStartedAt)
    ensures forall clock :: Stays(c.top, Durable(m.log), Since(a.m, clock).s) && Even(Durable(m.log), Since(a.m, clock).s)
                            && Answered(c, Since(a.m, clock), Check(path), a.reply)
    ensures Since(a.m, a.m.s.pollStartedAt) == a.m
  {
    hide Stays, Scripted, DataNow;
    forall clock ensures Stays(c.top, Durable(m.log), Since(a.m, clock).s) && Even(Durable(m.log), Since(a.m, clock).s)
                         && Answered(c, Since(a.m, clock), Check(path), a.reply)
    {
      StaysSame(c.top, Durable(m.log), m.s, Since(a.m, clock).s);
      assert forall q :: RepeatAt(Since(a.m, clock).s, q) == RepeatAt(m.s, q);
    }
  }

  /** Not yet: nothing but waiting is saved. */
  lemma WaitMay(c: Course, m: Machine, call: Call, reply: Reply)
    requires Answered(c, m, call, reply) && call.Check? && reply.Ok? && !reply.done
    requires Stays(c.top, Durable(m.log), m.s) && m.s.pollStartedAt == PollClock(c, m.log)
    ensures May(c, m.log, Offer(m.(s := m.s.(status := Polling))))
  {
    hide Scripted, Stays, NextCall, Retries, DataNow, PollClock;
    StaysSame(c.top, Durable(m.log), m.s, Offer(m.(s := m.s.(status := Polling))));
  }

  /** Check has been answered; the clock of the poll may be any. */
  ghost predicate Checked(c: Course, path: Path, m: Machine, a: Answer, started: int) {
    && Durable(a.m.log) == Durable(m.log) && a.m.s.pollStartedAt == Some(started) && a.m.s.currentPath == path
    && NextCall(c.top, Durable(m.log)) == Some(Check(path))
    && PollClock(c, a.m.log) == (if (a.reply.Ok? && !a.reply.done) || (a.reply.Fail? && a.reply.failure == RetryAfter)
                                 then Some(started) else None)
    && forall clock :: Stays(c.top, Durable(m.log), Since(a.m, clock).s) && Even(Durable(m.log), Since(a.m, clock).s)
                       && Answered(c, Since(a.m, clock), Check(path), a.reply)
  }

  lemma PollChecks(c: Course, step: Step, path: Path, m: Machine, started: int)
    requires Carried(c, m) && Ready(c, path, m) && NextCall(c.top, m.s) == Some(Check(path)) && m.s.currentPath == path
    requires FindStep(c.top, path) == Some(step) && step.kind.Poll?
    requires started == if m.s.pollStartedAt.None? then c.env.now(m.log) else m.s.pollStartedAt.value
    requires step.kind.maxDuration <= 0 || c.env.now(m.log) - started < step.kind.maxDuration
    ensures Checked(c, path, m, Invoke(c.env, Since(m, Some(started)), Check(path)), started)
  {
    hide Chronicle, Sound, Remembers, Linked, Scripted, NextCall, Stays, DataNow, Admitted, Even, May, Unmoved, Tracks, PollClock;
    CarriedStays(c, m);
    Calls(c, m, Check(path));
    var a := Invoke(c.env, Since(m, Some(started)), Check(path));
    OnwardSame(c, m.log, a.m.log);
    PollClockAt(c, m, a.m, a.reply, started);
    CheckStays(c, path, m, a);
  }

  lemma CarriedRuns(c: Course, m: Machine)
    requires Carried(c, m)
    ensures m.s.status == Running
  {
  }

  lemma PollFailed(c: Course, path: Path, m: Machine, a: Answer, started: int)
    requires Checked(c, path, m, a, started) && a.reply.Fail?
    ensures var keeps := a.reply.failure == RetryAfter || c.env.cancelled(a.m.log);
      StepPlays(c, path, CallbackFailed(c.env, if keeps then a.m else Since(a.m, None), path, a.reply.failure, true))
  {
    hide Stays, Even, Answered, NextCall, PollClock, StepPlays, CallbackFailed;
    var keeps := a.reply.failure == RetryAfter || c.env.cancelled(a.m.log);
    assert Since(a.m, Some(started)) == a.m;
    AnswerFailed(c, if keeps then a.m else Since(a.m, None), Check(path), a.reply.failure);
  }

  lemma PollPending(c: Course, path: Path, m: Machine, a: Answer, started: int)
    requires Checked(c, path, m, a, started) && a.reply.Ok? && !a.reply.done
    ensures StepPlays(c, path, PersistDeferred(c.env, a.m, true))
  {
    hide Stays, Even, Answered, NextCall, PollClock, StepPlays, PersistDeferred, May;
    assert Since(a.m, Some(started)) == a.m;
    WaitMay(c, a.m, Check(path), a.reply);
    AnswerDeferred(c, a.m, Check(path), a.reply, path, true);
  }

  lemma PollDone(c: Course, step: Step, path: Path, m: Machine, a: Answer, started: int)
    requires Checked(c, path, m, a, started) && a.reply.Ok? && a.reply.done
    requires FindStep(c.top, path) == Some(step) && step.kind.Poll?
    ensures var t := Since(a.m, None); StepPlays(c, path, SnapshotData(c.env, t.(s := Complete(t.s, path, false))))
  {
    hide Stays, Even, NextCall, PollClock, StepPlays, SnapshotData, May, Scripted, ByCall, DataNow, Retries;
    var t := Since(a.m, None);
    assert Answered(c, t, Check(path), a.reply) && Even(Durable(m.log), t.s);
    PollAnswered(c, step, path, t, Durable(m.log));
    CompleteMay(c, t, Check(path), a.reply, path, false);
    AnswerSaved(c, t.(s := Complete(t.s, path, false)), Check(path), a.reply, path);
  }

  lemma PollPlays(c: Course, step: Step, maxDuration: int, path: Path, m: Machine)
    requires Carried(c, m) && Ready(c, path, m) && NextCall(c.top, m.s) == Some(Check(path)) && m.s.currentPath == path
    requires FindStep(c.top, path) == Some(step) && step.kind == Poll(maxDuration)
    ensures StepPlays(c, path, ExecPoll(c.env, maxDuration, path, m))
  {
    hide Carried, Ready, NextCall, FindStep, Checked, StepPlays, CallbackFailed, PersistDeferred, SnapshotData;
    var started := if m.s.pollStartedAt.None? then c.env.now(m.log) else m.s.pollStartedAt.value;
    if maxDuration > 0 && c.env.now(m.log) - started >= maxDuration {
      PollExpires(c, step, path, m);
    } else {
      var a := Invoke(c.env, Since(m, Some(started)), Check(path));
      PollChecks(c, step, path, m, started);
      CarriedRuns(c, m);
      if a.reply.Fail? {
        PollFailed(c, path, m, a, started);
      } else if !a.reply.done {
        PollPending(c, path, m, a, started);
      } else {
        PollDone(c, step, path, m, a, started);
      }
    }
  }

  // ---------- branches ----------

  /** The answer of Decide or Until, which are not tried again. */
  lemma Hears(c: Course, m: Machine, call: Call, a: Answer)
    requires Resting(c, m) && m.s.status == Running && (call.Decide? || call.Until?)
    requires Scripted(c, a.m.log) && a.m.log == m.log + [Called(call, a.reply)] && a.m.s == m.s
    requires Durable(a.m.log) == Durable(m.log) && a.m.data == DataNow(c, a.m.log)
    ensures Answered(c, a.m, call, a.reply) && PollClock(c, a.m.log) == Durable(m.log).pollStartedAt
  {
    hide Scripted, DataNow;
    assert a.m.log[..c.from] == m.log[..c.from];
  }

  lemma UnknownKey(c: Course, step: Step, path: Path, m: Machine, reply: Reply)
    requires Answered(c, m, Decide(path), reply) && reply.Ok? && Abreast(Durable(m.log), m.s)
    requires PollClock(c, m.log) == Durable(m.log).pollStartedAt
    requires FindStep(c.top, path) == Some(step) && step.kind.Branch? && FindKey(step.kind.paths, reply.key).None?
    ensures StepPlays(c, path, Result(m, StepFailed(path, Plain)))
  {
    hide Scripted, DataNow, Retries, PollClock;
    var s := Offer(m.(s := StartCompensation(m.s, path, Plain)));
    assert !KnownKey(c.top, path, reply.key);
    assert !c.env.cancelled(m.log) ==> RollsBack(c, m.log, s, path, Durable(m.log).completedSteps, None);
  }

  lemma DecideMay(c: Course, step: Step, path: Path, m: Machine, reply: Reply, k: nat, at: Path)
    requires Answered(c, m, Decide(path), reply) && reply.Ok? && Even(Durable(m.log), m.s)
    requires PollClock(c, m.log) == Durable(m.log).pollStartedAt == m.s.pollStartedAt
    requires NextCall(c.top, Durable(m.log)) == Some(Decide(path))
    requires FindStep(c.top, path) == Some(step) && step.kind.Branch? && FindKey(step.kind.paths, reply.key) == Some(k)
    requires at == if step.kind.paths[k].steps == [] then path else path + [step.kind.paths[k].key]
    ensures May(c, m.log, Offer(m.(s := Complete(m.s, path, false).(currentPath := at))))
  {
    hide Scripted, DataNow, Retries, PollClock, NextCall, Agrees, Even;
    var s := Complete(m.s, path, false).(currentPath := at);
    CompleteAgrees(c.top, Durable(m.log), m.s, path, false, at);
    AgreesSame(c.top, Effect(c.top, Durable(m.log), Decide(path), reply), s, Offer(m.(s := s)));
    assert KnownKey(c.top, path, reply.key);
  }

  /** A decision: a failure, a key that is not known, or a path that is saved. */
  lemma DecidePlays(c: Course, step: Step, paths: seq<BranchPath>, path: Path, m: Machine)
    requires Carried(c, m) && Ready(c, path, m) && NextCall(c.top, m.s) == Some(Decide(path)) && m.s.currentPath == path
    requires FindStep(c.top, path) == Some(step) && step.kind == Branch(paths)
    ensures var d := DecideBranch(c.env, paths, path, m);
      if d.Settled? then StepPlays(c, path, d.r)
      else Resting(c, d.m) && m.log <= d.m.log && d.m.s.repeatStates == m.s.repeatStates && Durable(d.m.log) == d.m.s
  {
    hide Chronicle, Sound, Remembers, Linked, Scripted, NextCall, Agrees, Stays, DataNow, Admitted, SnapshotData, PersistDeferred,
         Even, May, CallbackFailed, Retries, ByCall, Unmoved, Tracks, StepPlays, PollClock;
    CarriedStays(c, m);
    Calls(c, m, Decide(path));
    var a := Invoke(c.env, m, Decide(path));
    Hears(c, m, Decide(path), a);
    if a.reply.Fail? {
      AnswerFailed(c, a.m, Decide(path), a.reply.failure);
    } else {
      var k := FindKey(paths, a.reply.key);
      if k.None? {
        UnknownKey(c, step, path, a.m, a.reply);
      } else {
        var at := if paths[k.value].steps == [] then path else path + [paths[k.value].key];
        var t := a.m.(s := Complete(a.m.s, path, false).(currentPath := at));
        DecideMay(c, step, path, a.m, a.reply, k.value, at);
        Offers(c, t);
        AnswerSaved(c, t, Decide(path), a.reply, path);
        assert Complete(a.m.s, path, false).(currentPath := path) == Complete(a.m.s, path, false);
      }
    }
  }

  // ---------- repeats ----------

  /** A repeat that is not finished has its next call at or below its own path. */
  lemma NextInside(c: Course, step: Step, path: Path, m: Machine)
    requires AtStep(c, step, path, m) && step.kind.Repeat? && !IsCompleted(m.s, path)
    ensures var next := NextCall(c.top, Durable(m.log)); next.Some? && path <= next.value.path
  {
    hide Chronicle, Sound, Remembers, Linked, StepLocated, Unmoved, Halfway, Inside, PlacedStep;
    NextOfStepBelow(step, path, m.s);
  }

  /** The clock of a repeat is started and saved, if it has a limit and has not been started. */
  lemma StartPlays(c: Course, step: Step, path: Path, m: Machine)
    requires AtStep(c, step, path, m) && Ready(c, path, m) && step.kind.Repeat? && !IsCompleted(m.s, path)
    ensures var r := EnsureStarted(c.env, step.kind.maxDuration, path, m);
      && StepPlays(c, path, r) && (r.err == NoError || r.err == SnapshotFailed)
      && (r.err == NoError ==> Resting(c, r.m) && m.log <= r.m.log && r.m.s.status == Running)
      && (r.err == NoError && step.kind.maxDuration > 0 ==> RepeatAt(r.m.s, path).startedAt.Some?)
      && (r.m.log == m.log ==> r.m == m) && (r.err == NoError && r.m.log != m.log ==> Durable(r.m.log) == r.m.s)
  {
    hide Chronicle, Sound, Remembers, Linked, Scripted, NextCall, Agrees, DataNow, Admitted, StepLocated, StepLifts, PlacedStep, Inside, May, Tracks;
    if step.kind.maxDuration > 0 && RepeatAt(m.s, path).startedAt.None? {
      var t := WithRepeat(m, path, RepeatAt(m.s, path).(startedAt := Some(c.env.now(m.log))));
      StartMay(c, step, path, m);
      Offers(c, t);
      OnwardSame(c, m.log, SnapshotData(c.env, t).m.log);
      assert t.s.(data := t.data) == t.s;
    }
  }

  lemma StartMay(c: Course, step: Step, path: Path, m: Machine)
    requires AtStep(c, step, path, m) && Ready(c, path, m) && step.kind.Repeat? && !IsCompleted(m.s, path)
    requires step.kind.maxDuration > 0 && RepeatAt(m.s, path).startedAt.None?
    ensures May(c, m.log, Offer(WithRepeat(m, path, RepeatAt(m.s, path).(startedAt := Some(c.env.now(m.log))))))
  {
    hide Chronicle, Sound, Remembers, Linked, Scripted, NextCall, Agrees, DataNow, Admitted, StepLocated, StepLifts, PlacedStep, Inside, Tracks;
    var rs := RepeatAt(m.s, path).(startedAt := Some(c.env.now(m.log)));
    var t := WithRepeat(m, path, rs);
    NextInside(c, step, path, m);
    StartWorked(c.top, m.log, m.s, path, rs);
    AgreesSame(c.top, Durable(m.log), t.s, Offer(t));
    forall q ensures RepeatAt(Offer(t), q) == if q == path then rs else RepeatAt(Durable(m.log), q) {}
    assert StartsClock(c, m.log, Offer(t), path);
  }

  /** Out of time, at the entry or before Until: a rollback with the timeout is what follows. */
  lemma LatePlays(c: Course, step: Step, path: Path, m: Machine)
    requires Resting(c, m) && m.s.status == Running && FindStep(c.top, path) == Some(step) && step.kind.Repeat?
    requires RepeatExpired(c.env, c.top, m.log, path)
    ensures StepPlays(c, path, RepeatTimeoutFailure(m, step, path))
  {
    hide Scripted, DataNow, RepeatExpired;
    var timeout := RepeatTimeout(step.name, step.kind.maxDuration);
    var s := Offer(m.(s := StartCompensation(m.s, path, TimedOut(timeout))));
    assert !c.env.cancelled(m.log) ==> TimesOut(c, m.log, s, path);
  }

  /** Until has been answered for the iteration at hand. */
  ghost predicate Heard(c: Course, step: Step, path: Path, m: Machine, rs: RepeatState, a: Machine, reply: Reply) {
    && Turning(c, step, path, m, rs) && Resting(c, m) && a.s == m.s
    && Answered(c, a, Until(path, rs.iteration), reply) && Durable(a.log) == Durable(m.log)
    && PollClock(c, a.log) == Durable(m.log).pollStartedAt
  }

  lemma TurningFacts(c: Course, step: Step, path: Path, m: Machine, rs: RepeatState)
    requires Turning(c, step, path, m, rs)
    ensures NextCall(c.top, Durable(m.log)) == Some(Until(path, rs.iteration)) && Stays(c.top, Durable(m.log), m.s)
    ensures RepeatAt(Durable(m.log), path) == rs.(awaitingCondition := RepeatAt(Durable(m.log), path).awaitingCondition)
    ensures m.s.status == Running && FindStep(c.top, path) == Some(step) && step.kind.Repeat?
  {
    hide Chronicle, Sound, Remembers, Linked, NextCall, Halfway, Inside, NoneBelow;
    TracksStays(c.top, m.log, m.s);
    assert RepeatAt(m.s, path) == rs;
  }

  lemma IterationFields(step: Step, path: Path, s: RunState, rs: RepeatState)
    requires step.kind.Repeat?
    ensures forall s' | s' == DoneState(step, path, s, rs) || s' == NextState(step, path, s, rs)
                        || s' == Retained(step, s, path, rs.iteration) ::
      s'.status == s.status && s'.pollStartedAt == s.pollStartedAt && Unfailed(s, s')
  {
  }

  /** The repeat is done, or goes on: what is offered is what the interpreter makes of the answer. */
  lemma TurnMay(c: Course, step: Step, path: Path, m: Machine, rs: RepeatState, a: Machine, reply: Reply)
    requires Heard(c, step, path, m, rs, a, reply) && reply.Ok? && (reply.done || !LastIteration(step, rs))
    ensures May(c, a.log, Offer(a.(s := if reply.done then DoneState(step, path, a.s, rs) else NextState(step, path, a.s, rs))))
  {
    hide Chronicle, Sound, Remembers, Linked, Scripted, NextCall, Agrees, DataNow, DoneState, NextState, Retries, PollClock,
         Turning;
    TurningFacts(c, step, path, m, rs);
    AnsweredAgrees(c, step, path, m, rs);
    IterationFields(step, path, a.s, rs);
    var d, call := Durable(a.log), Until(path, rs.iteration);
    var t := a.(s := if reply.done then DoneState(step, path, a.s, rs) else NextState(step, path, a.s, rs));
    assert LastIteration(step, RepeatAt(d, path)) == LastIteration(step, rs) == AtLimit(c.top, call);
    AgreesSame(c.top, Effect(c.top, d, call, reply), t.s, Offer(t));
  }

  /** After an answer, a failure that is to be rolled back. */
  lemma AnswerFaults(c: Course, m: Machine, call: Call, reply: Reply, path: Path, s: RunState)
    requires Answered(c, m, call, reply) && s.repeatTimeout.None? && s.status == Running
    requires !c.env.cancelled(m.log) ==> May(c, m.log, Offer(m.(s := StartCompensation(s, path, Plain))))
    ensures StepPlays(c, path, Result(m.(s := s), StepFailed(path, Plain)))
  {
    hide Scripted, DataNow, Retries, May, StartCompensation;
  }

  /** No iteration is left: the journal to undo lacks a compact iteration. */
  lemma LimitPlays(c: Course, step: Step, path: Path, m: Machine, rs: RepeatState, a: Machine, reply: Reply)
    requires Heard(c, step, path, m, rs, a, reply) && reply.Ok? && !reply.done && LastIteration(step, rs)
    ensures StepPlays(c, path, Result(a.(s := Retained(step, a.s, path, rs.iteration)), StepFailed(path, Plain)))
  {
    hide Scripted, DataNow, Retries, Turning, Retained, May, Resting, StepPlays, Onward, PollClock;
    TurningFacts(c, step, path, m, rs);
    IterationFields(step, path, a.s, rs);
    if !c.env.cancelled(a.log) {
      LimitMay(c, step, path, m, rs, a, reply);
    }
    AnswerFaults(c, a, Until(path, rs.iteration), reply, path, Retained(step, a.s, path, rs.iteration));
  }

  lemma LimitMay(c: Course, step: Step, path: Path, m: Machine, rs: RepeatState, a: Machine, reply: Reply)
    requires Heard(c, step, path, m, rs, a, reply) && reply.Ok? && !reply.done && LastIteration(step, rs)
    requires !c.env.cancelled(a.log)
    ensures var t := a.(s := Retained(step, a.s, path, rs.iteration));
      May(c, a.log, Offer(t.(s := StartCompensation(t.s, path, Plain))))
  {
    hide Chronicle, Sound, Remembers, Linked, Scripted, NextCall, Agrees, Stays, DataNow, Retries, PollClock, Turning, Outside,
         Retained, JournalAfter;
    TurningFacts(c, step, path, m, rs);
    IterationFields(step, path, a.s, rs);
    RetainedJournal(c, step, path, a.s, rs.iteration, Durable(a.log));
    var t := a.(s := Retained(step, a.s, path, rs.iteration));
    var s := Offer(t.(s := StartCompensation(t.s, path, Plain)));
    assert RollsBack(c, a.log, s, path, JournalAfter(c.top, Durable(a.log), path, rs.iteration), None);
  }

  lemma RetainedJournal(c: Course, step: Step, path: Path, s: RunState, n: nat, d: RunState)
    requires FindStep(c.top, path) == Some(step) && step.kind.Repeat? && s.completedSteps == d.completedSteps
    ensures Retained(step, s, path, n).completedSteps == JournalAfter(c.top, d, path, n)
  {
  }

  lemma FinishPlays(c: Course, step: Step, path: Path, m: Machine, rs: RepeatState)
    requires Turning(c, step, path, m, rs) && Resting(c, m) && Admitted(c, m.log, path)
    requires step.kind.maxDuration > 0 ==> rs.startedAt.Some?
    ensures StepPlays(c, path, FinishIteration(c.env, step, path, m, rs))
  {
    hide Chronicle, Sound, Scripted, NextCall, Agrees, Stays, DataNow, Admitted, SnapshotData, PersistDeferred, May, CallbackFailed,
         Retries, StepPlays, PollClock, Turning, DoneState, NextState, Retained, RepeatTimeoutFailure, Yielded;
    TurningFacts(c, step, path, m, rs);
    if TimedOutAt(step.kind.maxDuration, rs, c.env.now(m.log)) {
      assert RepeatExpired(c.env, c.top, m.log, path);
      LatePlays(c, step, path, m);
    } else {
      var call := Until(path, rs.iteration);
      UntilAsks(c, step, path, m, rs);
      Calls(c, m, call);
      var a := Invoke(c.env, m, call);
      Hears(c, m, call, a);
      if a.reply.Fail? {
        AnswerFailed(c, a.m, call, a.reply.failure);
      } else {
        IterationFields(step, path, a.m.s, rs);
        if a.reply.done {
          TurnMay(c, step, path, m, rs, a.m, a.reply);
          AnswerSaved(c, a.m.(s := DoneState(step, path, a.m.s, rs)), call, a.reply, path);
        } else if LastIteration(step, rs) {
          LimitPlays(c, step, path, m, rs, a.m, a.reply);
        } else {
          TurnMay(c, step, path, m, rs, a.m, a.reply);
          AnswerDeferred(c, a.m.(s := NextState(step, path, a.m.s, rs)), call, a.reply, path, false);
        }
      }
    }
  }

  lemma UntilAsks(c: Course, step: Step, path: Path, m: Machine, rs: RepeatState)
    requires Turning(c, step, path, m, rs) && Resting(c, m) && Admitted(c, m.log, path)
    requires step.kind.maxDuration > 0 ==> rs.startedAt.Some? && c.env.now(m.log) - rs.startedAt.value < step.kind.maxDuration
    ensures Asks(c, m.log, Until(path, rs.iteration))
  {
    hide Chronicle, Sound, Scripted, NextCall, Agrees, Stays, DataNow, Admitted, Turning, Yielded;
    TurningFacts(c, step, path, m, rs);
  }

  // ---------- rollback ----------

  /** Rolling back, with a snapshot as the last event. */
  ghost predicate Rolling(c: Course, m: Machine) {
    && Undoing(c, m) && Scripted(c, m.log)
    && m.log[|m.log| - 1].Saved? && Durable(m.log).status == Compensating && !Yielded(c.from, m.log)
    && m.data == DataNow(c, m.log)
    && -1 <= m.s.compensationIndex <= Durable(m.log).compensationIndex < |Durable(m.log).completedSteps|
  }

  /** The rollback came to its end, or to an error the log asks for. */
  ghost predicate RollEnds(c: Course, m: Machine, r: Result) {
    && Scripted(c, r.m.log) && c.from < |m.log| && c.from < |r.m.log| && r.m.log[..c.from] == m.log[..c.from]
    && (r.err == NoError ==>
          && r.m.log[|r.m.log| - 1] == Saved(r.m.s) && r.m.s.status == Failed && Unfailed(m.s, r.m.s))
    && (r.err != NoError ==> Concludes(c, r))
  }

  lemma RollingUpcoming(c: Course, m: Machine)
    requires Rolling(c, m)
    ensures var i := m.s.compensationIndex;
      && m.s.completedSteps == Durable(m.log).completedSteps && Unfailed(Durable(m.log), m.s) && i < |m.s.completedSteps|
      && (i < 0 ==> Upcoming(c.top, Durable(m.log), -1))
      && (i >= 0 && Undoes(c.top, m.s.completedSteps[i]) ==>
            UpcomingAt(c.top, Durable(m.log), i, m.s.completedSteps[i].path))
  {
    hide Chronicle, Sound, Remembers, Scripted, DataNow, Undoes;
  }

  /** The next compensator has answered. */
  ghost predicate Returned(c: Course, m: Machine, i: nat, a: Answer) {
    && Rolling(c, m) && i == m.s.compensationIndex && i < |m.s.completedSteps| && Undoes(c.top, m.s.completedSteps[i])
    && Scripted(c, a.m.log) && c.from < |a.m.log| && a.m.log[..c.from] == m.log[..c.from]
    && a.m.log == m.log + [Called(Compensate(m.s.completedSteps[i].path), a.reply)]
    && Durable(a.m.log) == Durable(m.log) && a.m.s == m.s && a.m.data == DataNow(c, a.m.log)
  }

  lemma ReturnedMay(c: Course, m: Machine, i: nat, a: Answer)
    requires Returned(c, m, i, a) && (a.reply.Fail? ==> !c.env.cancelled(a.m.log))
    ensures var at := if a.reply.Ok? then i - 1 else i; May(c, a.m.log, Offer(a.m.(s := a.m.s.(compensationIndex := at))))
  {
    hide Chronicle, Sound, Remembers, Scripted, DataNow, Undoes, Undoing, Upcoming;
    RollingUpcoming(c, m);
    RollingStatus(c, m);
  }

  lemma RollingStatus(c: Course, m: Machine)
    requires Rolling(c, m)
    ensures m.s.status == Compensating && c.from < |m.log|
  {
    hide Chronicle, Sound, Remembers, Scripted, DataNow, Skipped;
  }

  lemma StopPlays(c: Course, m: Machine, i: nat, a: Answer)
    requires Returned(c, m, i, a) && a.reply.Fail?
    ensures RollEnds(c, m, StopCompensation(c.env, a.m.(s := a.m.s.(compensationIndex := i)), a.reply.failure))
  {
    hide Scripted, DataNow, Undoes, Undoing, SnapshotData, May, Rolling;
    var t := a.m.(s := a.m.s.(compensationIndex := i));
    RollingStatus(c, m);
    if !c.env.cancelled(a.m.log) {
      ReturnedMay(c, m, i, a);
      Offers(c, t);
    }
  }

  lemma RefusedConcludes(c: Course, r: Result)
    requires r.err == SnapshotFailed && Verdict(c, r.m.log) == SnapshotFailed
    ensures Concludes(c, r)
  {
  }

  /** One turn of the loop down the journal. */
  lemma CompensateTurn(env: Env, top: seq<Step>, m: Machine, i: nat)
    requires i < |m.s.completedSteps|
    ensures var cs := m.s.completedSteps[i];
      var a := Invoke(env, m, Compensate(cs.path));
      var t := a.m.(s := a.m.s.(compensationIndex := i - 1));
      var r := SnapshotData(env, t);
      CompensateFrom(env, top, m, i) ==
        if cs.hasCompensator && env.cancelled(m.log) then Result(m, Cancelled)
        else if !Undoes(top, cs) then CompensateFrom(env, top, m.(s := m.s.(compensationIndex := i - 1)), i - 1)
        else if a.reply.Fail? then StopCompensation(env, a.m.(s := a.m.s.(compensationIndex := i)), a.reply.failure)
        else if r.err != NoError then r
        else CompensateFrom(env, top, r.m, i - 1)
  {
    hide SnapshotData, FindStep, StopCompensation;
  }

  lemma {:induction false} CompensatePlays(c: Course, m: Machine, i: int)
    requires Rolling(c, m) && i == m.s.compensationIndex && i < |m.s.completedSteps|
    ensures RollEnds(c, m, CompensateFrom(c.env, c.top, m, i))
    decreases i + 1
  {
    hide *;
    if i < 0 {
      FailPlays(c, m);
      CompensateLast(c.env, c.top, m, i);
    } else {
      var cs := m.s.completedSteps[i];
      CompensateTurn(c.env, c.top, m, i);
      if cs.hasCompensator && c.env.cancelled(m.log) {
        RollingRests(c, m);
      } else if !Undoes(c.top, cs) {
        var skipped := m.(s := m.s.(compensationIndex := i - 1));
        RollingSkips(c, m, i);
        CompensatePlays(c, skipped, i - 1);
        SkippedEnds(c, m, skipped, CompensateFrom(c.env, c.top, skipped, i - 1));
      } else {
        UndoesMarked(c.top, cs);
        CompensatorPlays(c, m, i);
        var a := Invoke(c.env, m, Compensate(cs.path));
        if a.reply.Fail? {
          StopPlays(c, m, i, a);
        } else {
          var r := SnapshotData(c.env, a.m.(s := a.m.s.(compensationIndex := i - 1)));
          if r.err == NoError {
            CompensatePlays(c, r.m, i - 1);
            LaterEnds(c, m, r.m, CompensateFrom(c.env, c.top, r.m, i - 1));
          }
        }
      }
    }
  }

  lemma UndoesMarked(top: seq<Step>, e: CompletedStep)
    requires Undoes(top, e)
    ensures e.hasCompensator
  {
  }

  lemma CompensateLast(env: Env, top: seq<Step>, m: Machine, i: int)
    requires i < 0 && i < |m.s.completedSteps|
    ensures CompensateFrom(env, top, m, i) == SnapshotData(env, m.(s := m.s.(status := Failed, compensationIndex := -1)))
  {
  }

  /** The next compensator is called, and its success is saved. */
  lemma CompensatorPlays(c: Course, m: Machine, i: nat)
    requires Rolling(c, m) && i == m.s.compensationIndex && i < |m.s.completedSteps| && Undoes(c.top, m.s.completedSteps[i])
    requires !c.env.cancelled(m.log)
    ensures var a := Invoke(c.env, m, Compensate(m.s.completedSteps[i].path));
      && Returned(c, m, i, a)
      && var r := SnapshotData(c.env, a.m.(s := a.m.s.(compensationIndex := i - 1)));
      && (a.reply.Ok? && r.err == NoError ==>
            && Rolling(c, r.m) && r.m.s.compensationIndex == i - 1 && i - 1 < |r.m.s.completedSteps| && Unfailed(m.s, r.m.s)
            && c.from < |m.log| && c.from < |r.m.log| && r.m.log[..c.from] == m.log[..c.from])
      && (a.reply.Ok? && r.err != NoError ==> RollEnds(c, m, r))
  {
    hide Scripted, DataNow, SnapshotData, May, FindStep, Rolling, Undoing, Yielded, Undoes, Asks, Verdict;
    RollingStatus(c, m);
    UndoAsks(c, m, i);
    Calls(c, m, Compensate(m.s.completedSteps[i].path));
    var a := Invoke(c.env, m, Compensate(m.s.completedSteps[i].path));
    assert Returned(c, m, i, a);
    if a.reply.Ok? {
      ReturnedMay(c, m, i, a);
      var t := a.m.(s := a.m.s.(compensationIndex := i - 1));
      Offers(c, t);
      if SnapshotData(c.env, t).err == NoError {
        RollingOn(c, m, i, a);
      } else {
        RefusedConcludes(c, SnapshotData(c.env, t));
      }
    }
  }

  lemma SkippedEnds(c: Course, m: Machine, skipped: Machine, r: Result)
    requires skipped == m.(s := m.s.(compensationIndex := skipped.s.compensationIndex)) && RollEnds(c, skipped, r)
    ensures RollEnds(c, m, r)
  {
    hide Scripted, Concludes;
  }

  lemma LaterEnds(c: Course, m: Machine, m': Machine, r: Result)
    requires c.from < |m.log| && c.from < |m'.log| && m'.log[..c.from] == m.log[..c.from] && Unfailed(m.s, m'.s)
    requires RollEnds(c, m', r)
    ensures RollEnds(c, m, r)
  {
    hide Scripted, Concludes;
  }

  lemma FailPlays(c: Course, m: Machine)
    requires Rolling(c, m) && m.s.compensationIndex < 0
    ensures RollEnds(c, m, SnapshotData(c.env, m.(s := m.s.(status := Failed, compensationIndex := -1))))
  {
    hide Chronicle, Sound, Remembers, Scripted, DataNow, SnapshotData, Skipped, Upcoming;
    RollingUpcoming(c, m);
    Offers(c, m.(s := m.s.(status := Failed, compensationIndex := -1)));
  }

  lemma RollingRests(c: Course, m: Machine)
    requires Rolling(c, m) && c.env.cancelled(m.log)
    ensures RollEnds(c, m, Result(m, Cancelled))
  {
    hide Chronicle, Sound, Remembers, Scripted, DataNow, Skipped;
  }

  lemma RollingSkips(c: Course, m: Machine, i: nat)
    requires Rolling(c, m) && i == m.s.compensationIndex && i < |m.s.completedSteps| && !Undoes(c.top, m.s.completedSteps[i])
    ensures Rolling(c, m.(s := m.s.(compensationIndex := i - 1)))
  {
    hide Chronicle, Sound, Remembers, Scripted, DataNow, Undoes, Skipped;
    UndoSkips(c, m, i);
  }

  lemma UndoAsks(c: Course, m: Machine, i: nat)
    requires Rolling(c, m) && i == m.s.compensationIndex && i < |m.s.completedSteps| && Undoes(c.top, m.s.completedSteps[i])
    requires !c.env.cancelled(m.log)
    ensures Asks(c, m.log, Compensate(m.s.completedSteps[i].path)) && Scripted(c, m.log) && m.data == DataNow(c, m.log)
  {
    hide Chronicle, Sound, Remembers, Scripted, DataNow, Undoes, Skipped, Upcoming;
    RollingUpcoming(c, m);
  }

  /** A success is saved, and the rollback goes on below it. */
  lemma RollingOn(c: Course, m: Machine, i: nat, a: Answer)
    requires Returned(c, m, i, a) && a.reply.Ok?
    requires Invoke(c.env, m, Compensate(m.s.completedSteps[i].path)) == a
    requires var t := a.m.(s := a.m.s.(compensationIndex := i - 1));
      var r := SnapshotData(c.env, t);
      && r.err == NoError && Scripted(c, r.m.log) && r.m.log == a.m.log + [Saved(r.m.s)] && r.m.s == Offer(t)
      && Durable(r.m.log) == r.m.s && r.m.data == a.m.data && DataNow(c, r.m.log) == DataNow(c, a.m.log)
    ensures Rolling(c, SnapshotData(c.env, a.m.(s := a.m.s.(compensationIndex := i - 1))).m)
  {
    hide Chronicle, Sound, Remembers, Scripted, DataNow, Undoes, SnapshotData, Skipped;
    var t := a.m.(s := a.m.s.(compensationIndex := i - 1));
    Quietly(c, m.log, Called(Compensate(m.s.completedSteps[i].path), a.reply));
    assert Undoing(c, a.m);
    UndoSaves(c, a.m, t.s);
  }

  // ---------- scopes ----------

  /** A failure that is rolled back. */
  lemma EnterPlays(c: Course, m: Machine, path: Path, cause: Cause, err: Error)
    requires Scripted(c, m.log) && Onward(c, m.log) && Faults(c, path, m, cause) && !c.env.cancelled(m.log)
    requires !cause.Uncompensated? && err == StepFailed(path, cause)
    requires Chronicle(c, m.log) && Sound(c.env, c.top, m.s) && Remembers(Durable(m.log), m.s)
    requires Hanging(m.log) ==> AtLimit(c.top, m.log[|m.log| - 1].call)
    ensures var r := EnterCompensation(c.env, c.top, m, path, cause, err);
      Scripted(c, r.m.log) && Onward(c, r.m.log) && Concludes(c, r) && r.m.s.status != Running
  {
    hide Chronicle, Sound, Remembers, Scripted, DataNow, SnapshotData, CompensateFrom, May, AtLimit, Concludes, RollEnds;
    EnterUndoing(c, m, path, cause);
    var t := m.(s := StartCompensation(m.s, path, cause));
    Offers(c, t);
    var r := SnapshotData(c.env, t);
    OnwardSame(c, m.log, r.m.log);
    if r.err == NoError {
      EnterRolling(c, m, path, cause);
      CompensatePlays(c, r.m, r.m.s.compensationIndex);
      CompensateEnds(c, r.m, r.m.s.compensationIndex);
      RolledVerdict(c, m, path, cause, err);
    } else {
      RefusedConcludes(c, r);
    }
  }

  lemma EnterRolling(c: Course, m: Machine, path: Path, cause: Cause)
    requires c.from < |m.log| && m.data == DataNow(c, m.log) && !Undid(m.log)
    requires var t := m.(s := StartCompensation(m.s, path, cause));
      var r := SnapshotData(c.env, t);
      && r.err == NoError && Undoing(c, r.m) && Scripted(c, r.m.log) && r.m.log == m.log + [Saved(Offer(t))]
      && r.m.s == Offer(t) && Durable(r.m.log) == r.m.s && r.m.data == DataNow(c, r.m.log)
    ensures Rolling(c, SnapshotData(c.env, m.(s := StartCompensation(m.s, path, cause))).m)
  {
    hide Undoing, Scripted, DataNow, SnapshotData;
  }

  lemma RolledVerdict(c: Course, m: Machine, path: Path, cause: Cause, err: Error)
    requires Onward(c, m.log) && m.s.repeatTimeout.None? && err == StepFailed(path, cause)
    requires var r := SnapshotData(c.env, m.(s := StartCompensation(m.s, path, cause)));
      && r.err == NoError && r.m.s == Offer(m.(s := StartCompensation(m.s, path, cause)))
      && c.from < |r.m.log| && r.m.log[..c.from] == m.log[..c.from]
      && RollEnds(c, r.m, CompensateFrom(c.env, c.top, r.m, r.m.s.compensationIndex))
    ensures var r := EnterCompensation(c.env, c.top, m, path, cause, err);
      Scripted(c, r.m.log) && Onward(c, r.m.log) && Concludes(c, r)
  {
    hide Scripted, SnapshotData, CompensateFrom, Yielded;
  }

  /** Whatever way a step failed, its scope deals with it. */
  lemma HandlePlays(c: Course, step: Step, parent: Path, r: Result)
    requires var path := parent + [step.name]; StepPlays(c, path, r) && StepEndsWell(c, step, path, r)
    requires r.err != NoError
    ensures ScopePlays(c, parent, HandleError(c.env, c.top, r.m, r.err, parent + [step.name]))
  {
    hide Chronicle, Sound, Remembers, Scripted, DataNow, SnapshotData, EnterCompensation, May, AtLimit, Carried, NoneBelow, Halfway,
         Skipped, NextCall, Resting, Yielded;
    var path := parent + [step.name];
    if r.err.StepFailed? && r.m.s.status == Running && |r.err.path| <= |path| && !c.env.cancelled(r.m.log) {
      if r.err.cause.Uncompensated? {
        UncompensatedPlays(c, path, parent, r);
      } else {
        EnterPlays(c, r.m, path, r.err.cause, r.err);
      }
    }
  }

  lemma UncompensatedPlays(c: Course, path: Path, parent: Path, r: Result)
    requires Scripted(c, r.m.log) && Onward(c, r.m.log) && |path| > |parent|
    requires r.err == StepFailed(path, Uncompensated) && r.m.s.status == Running && !c.env.cancelled(r.m.log)
    requires Faults(c, path, r.m, Uncompensated)
    ensures ScopePlays(c, parent, HandleError(c.env, c.top, r.m, r.err, path))
  {
    hide Scripted, DataNow, SnapshotData, May;
    Offers(c, r.m.(s := r.m.s.(failedStepPath := path)));
  }

  /** What stands around path keeps the clocks it was seen to have. */
  lemma AdmittedAfter(c: Course, step: Step, parent: Path, m: Machine, e: Machine)
    requires Carried(c, m) && Admitted(c, m.log, parent)
    requires e.log == m.log && e.s == m.s.(currentPath := e.s.currentPath) && e.data == e.s.data
    requires var path := parent + [step.name];
      path <= e.s.currentPath && Carried(c, ExecStep(c.env, c.top, step, path, e).m)
    ensures Admitted(c, ExecStep(c.env, c.top, step, parent + [step.name], e).m.log, parent)
  {
    hide Chronicle, Sound, Remembers, Linked, Tracks, Admitted, ExecStep;
    var path := parent + [step.name];
    var r := ExecStep(c.env, c.top, step, path, e);
    StepGrows(c.env, c.top, step, path, e);
    forall p | p < parent ensures RepeatAt(Durable(r.m.log), p).startedAt == RepeatAt(Durable(m.log), p).startedAt {
      StepLeaves(c.env, c.top, step, path, e, p);
      assert RepeatAt(Durable(m.log), p) == RepeatAt(m.s, p) == RepeatAt(e.s, p);
      assert RepeatAt(Durable(r.m.log), p) == RepeatAt(r.m.s, p);
    }
    AdmittedGrows(c, m.log, r.m.log, parent);
  }

  lemma AdmittedDeeper(c: Course, log: Log, path: Path, part: string)
    requires Admitted(c, log, path) && (RepeatPath(c.top, path) && LimitOf(c.top, path) > 0 ==> SeenInTime(c, log, path))
    ensures Admitted(c, log, path + [part])
  {
    hide SeenInTime, RepeatPath, LimitOf;
    forall p | p < path + [part] && RepeatPath(c.top, p) && LimitOf(c.top, p) > 0 ensures SeenInTime(c, log, p) {
      assert p < path || p == path;
    }
  }

  lemma {:induction false} StepsPlay(c: Course, steps: seq<Step>, i: nat, parent: Path, m: Machine, resume: Path, first: bool)
    requires AtScope(c, steps, i, parent, m, resume, first) && Resting(c, m) && Admitted(c, m.log, parent)
    ensures ScopePlays(c, parent, ExecSteps(c.env, c.top, steps, i, parent, m, resume, first))
    decreases steps, 2, |steps| - i
  {
    hide Chronicle, Sound, Linked, Unmoved, Tracks, Remembers, PlacedStep, HandleError, Entry, Leads, Around, Located, StepLocated,
         ScopeLifts, StepLifts, Admitted, Scripted, DataNow, Yielded, ExecStep, StepEndsWell, Inside;
    ScopeTurn(c.env, c.top, steps, i, parent, m, resume, first);
    if i < |steps| {
      var path := parent + [steps[i].name];
      LaterEntry(steps, i, parent, m.s, resume, first);
      if first && path == resume && IsCompleted(m.s, path) {
        SkipLeads(c, steps, i, parent, m, resume);
        StepsPlay(c, steps, i + 1, parent, m, resume, false);
      } else if c.env.cancelled(m.log) {
      } else {
        var e := Enter(m, path, resume, first);
        var r := ExecStep(c.env, c.top, steps[i], path, e);
        EntersAt(c, steps, i, parent, m, resume, first);
        StepEndsAt(c, steps[i], path, e);
        ReadyAt(c, steps[i], parent, m, e);
        StepPlaysAt(c, steps[i], path, e);
        if r.err != NoError {
          HandlePlays(c, steps[i], parent, r);
        } else if r.m.s.status == Running {
          NextAtScope(c, steps, i, parent, m, resume, first);
          AdmittedAfter(c, steps[i], parent, m, e);
          StepsPlay(c, steps, i + 1, parent, r.m, resume, false);
        }
      }
    }
  }

  lemma ReadyAt(c: Course, step: Step, parent: Path, m: Machine, e: Machine)
    requires Resting(c, m) && Admitted(c, m.log, parent) && Around(c.top, parent, m.s) && !c.env.cancelled(m.log)
    requires e == m.(s := m.s.(currentPath := e.s.currentPath))
    ensures Ready(c, parent + [step.name], e)
  {
    hide Scripted, DataNow, Admitted, Yielded, Inside;
    AdmittedDeeper(c, m.log, parent, step.name);
  }

  lemma {:induction false} StepPlaysAt(c: Course, step: Step, path: Path, m: Machine)
    requires AtStep(c, step, path, m) && Ready(c, path, m)
    ensures StepPlays(c, path, ExecStep(c.env, c.top, step, path, m))
    decreases step, 1
  {
    hide Chronicle, Sound, Linked, Unmoved, Tracks, Remembers, Inside, StepLocated, ExecAction, ExecPoll, DecideBranch,
         StepLifts, NextCall, Ready, StepPlays;
    if !step.kind.Repeat? && |m.s.currentPath| == |path| {
      AtOpening(c, step, path, m);
    }
    match step.kind
    case Action(compensated, retry) => ActionPlays(c, step, compensated, retry, path, m);
    case Poll(maxDuration) => PollPlays(c, step, maxDuration, path, m);
    case Branch(_) => BranchPlays(c, step, path, m);
    case Repeat(_, _, _, _) => RepeatPlays(c, step, path, m);
  }

  /** The end of the scope inside is the end of the step. */
  lemma ScopeInStep(c: Course, path: Path, part: string, r: Result)
    requires ScopePlays(c, path + [part], r)
    ensures StepPlays(c, path, r)
  {
    hide Scripted, Concludes, Resting, Faults;
  }

  lemma ScopeIs(c: Course, steps: seq<Step>, i: nat, scope: Path, m: Machine)
    ensures ExecScope(c.env, c.top, steps, i, scope, m) == ExecSteps(c.env, c.top, steps, i, scope, m, m.s.currentPath, true)
  {
  }

  lemma {:induction false} BranchPlays(c: Course, step: Step, path: Path, m: Machine)
    requires AtStep(c, step, path, m) && Ready(c, path, m) && step.kind.Branch?
    requires |m.s.currentPath| == |path| ==> AtLeaf(c, path, m.s) && NextCall(c.top, m.s) == Some(Decide(path))
    ensures StepPlays(c, path, ExecStep(c.env, c.top, step, path, m))
    decreases step, 0, 1
  {
    hide Chronicle, Sound, Linked, Unmoved, Tracks, Remembers, StepLocated, ExecSteps, DecideBranch, StepLifts, NextCall,
         Admitted, Scripted, DataNow, Yielded, AtScope, StepPlays, ScopePlays, Inside;
    var paths := step.kind.paths;
    if |m.s.currentPath| > |path| {
      var k := FindKey(paths, m.s.currentPath[|path|]).value;
      var steps, scope := paths[k].steps, path + [paths[k].key];
      ChosenAtScope(c, step, path, k, m);
      AdmittedDeeper(c, m.log, path, paths[k].key);
      StepsPlay(c, steps, ChildIndex(steps, m.s, path), scope, m, m.s.currentPath, true);
      ScopeIs(c, steps, ChildIndex(steps, m.s, path), scope, m);
      ScopeInStep(c, path, paths[k].key, ExecStep(c.env, c.top, step, path, m));
    } else {
      DecideEnds(c, step, paths, path, m);
      DecidePlays(c, step, paths, path, m);
      var d := DecideBranch(c.env, paths, path, m);
      if d.Entered? {
        var scope := path + [paths[d.index].key];
        EnteredAtScope(c, step, path, m);
        SameClocks(c, m, d.m, path);
        AdmittedGrows(c, m.log, d.m.log, path);
        AdmittedDeeper(c, d.m.log, path, paths[d.index].key);
        StepsPlay(c, paths[d.index].steps, 0, scope, d.m, scope, true);
        ScopeIs(c, paths[d.index].steps, 0, scope, d.m);
        ScopeInStep(c, path, paths[d.index].key, ExecStep(c.env, c.top, step, path, m));
      }
    }
  }

  lemma SameClocks(c: Course, m: Machine, m': Machine, path: Path)
    requires Carried(c, m) && Carried(c, m')
    requires forall p :: p < path ==> RepeatAt(m'.s, p).startedAt == RepeatAt(m.s, p).startedAt
    ensures forall p :: p < path ==> RepeatAt(Durable(m'.log), p).startedAt == RepeatAt(Durable(m.log), p).startedAt
  {
    hide Chronicle, Sound, Linked, Tracks, Remembers;
    forall p | p < path ensures RepeatAt(Durable(m'.log), p).startedAt == RepeatAt(Durable(m.log), p).startedAt {
      assert RepeatAt(m'.s, p) == RepeatAt(Durable(m'.log), p) && RepeatAt(m.s, p) == RepeatAt(Durable(m.log), p);
    }
  }

  /** The repeat has time left, as was just read, or no limit. */
  ghost predicate InTime(c: Course, step: Step, path: Path, m: Machine) {
    && step.kind.Repeat? && FindStep(c.top, path) == Some(step)
    && (step.kind.maxDuration > 0 ==>
          var started := RepeatAt(Durable(m.log), path).startedAt;
          started.Some? && c.env.now(m.log) - started.value < step.kind.maxDuration)
  }

  lemma InTimeSeen(c: Course, step: Step, path: Path, m: Machine)
    requires InTime(c, step, path, m) && c.from < |m.log|
    ensures RepeatPath(c.top, path) && LimitOf(c.top, path) > 0 ==> SeenInTime(c, m.log, path)
  {
    assert m.log[..|m.log|] == m.log;
  }

  lemma {:induction false} RepeatPlays(c: Course, step: Step, path: Path, m: Machine)
    requires AtStep(c, step, path, m) && Ready(c, path, m) && step.kind.Repeat?
    ensures StepPlays(c, path, ExecStep(c.env, c.top, step, path, m))
    decreases step, 0, 1
  {
    hide Chronicle, Sound, Linked, Unmoved, Tracks, Remembers, StepLocated, EnsureStarted, FinishIteration, RunIteration, PlacedStep,
         Standing, NoneBelow, StepLifts, NextCall, Admitted, Scripted, DataNow, Yielded, StepPlays, Turning, Inside, StepEndsWell,
         RepeatTimeoutFailure;
    NotYetDone(c.env, c.top, step, path, m.s);
    StartEnds(c, step.kind.maxDuration, path, m);
    StartPlays(c, step, path, m);
    var r := EnsureStarted(c.env, step.kind.maxDuration, path, m);
    if r.err == NoError {
      PlacedStarted(step, path, m.s, r.m.s);
      PlacedIteration(step, path, r.m.s);
      NotYetDone(c.env, c.top, step, path, r.m.s);
      StartAdmitted(c, step, path, m);
      var rs := RepeatAt(r.m.s, path);
      DurableRecord(c, r.m, path);
      if TimedOutAt(step.kind.maxDuration, rs, c.env.now(r.m.log)) {
        NextInside(c, step, path, r.m);
        assert RepeatExpired(c.env, c.top, r.m.log, path);
        LatePlays(c, step, path, r.m);
      } else if rs.awaitingCondition {
        AwaitedTurning(c, step, path, r.m, rs);
        RestingRecord(c, r.m, path, rs);
        FinishPlays(c, step, path, WithRepeat(r.m, path, rs), rs);
      } else {
        IterationPlays(c, step, path, r.m, rs);
      }
    }
  }

  lemma DurableRecord(c: Course, m: Machine, path: Path)
    requires Carried(c, m)
    ensures RepeatAt(Durable(m.log), path) == RepeatAt(m.s, path)
  {
    hide Chronicle, Sound, Linked, Tracks, Remembers;
  }

  /** A record in memory says nothing about the log. */
  lemma RestingRecord(c: Course, m: Machine, path: Path, rs: RepeatState)
    requires Resting(c, m)
    ensures Resting(c, WithRepeat(m, path, rs))
  {
    hide Scripted, DataNow, Yielded;
  }

  lemma StartAdmitted(c: Course, step: Step, path: Path, m: Machine)
    requires Carried(c, m) && Admitted(c, m.log, path) && step.kind.Repeat?
    requires var r := EnsureStarted(c.env, step.kind.maxDuration, path, m);
      r.err == NoError && Carried(c, r.m) && m.log <= r.m.log
    ensures Admitted(c, EnsureStarted(c.env, step.kind.maxDuration, path, m).m.log, path)
  {
    hide Chronicle, Sound, Linked, Unmoved, Tracks, Remembers, Admitted;
    var r := EnsureStarted(c.env, step.kind.maxDuration, path, m);
    forall p | p < path ensures RepeatAt(r.m.s, p).startedAt == RepeatAt(m.s, p).startedAt {}
    SameClocks(c, m, r.m, path);
    AdmittedGrows(c, m.log, r.m.log, path);
  }

  lemma {:induction false} IterationPlays(c: Course, step: Step, path: Path, m: Machine, rs: RepeatState)
    requires AtStep(c, step, path, m) && step.kind.Repeat? && Standing(step, path, m.s) && InTime(c, step, path, m)
    requires Resting(c, m) && Admitted(c, m.log, path)
    requires rs == RepeatAt(m.s, path) && !rs.awaitingCondition && !rs.completed && !IsCompleted(m.s, path)
    ensures StepPlays(c, path, RunIteration(c.env, c.top, step, path, m, rs))
    decreases step, 0, 0
  {
    hide Chronicle, Sound, Linked, Unmoved, Tracks, Remembers, FinishIteration, PlacedStep, Standing, NoneBelow, Entry, Leads, Around,
         StepLocated, Located, StepLifts, ScopeLifts, NextOfScope, NextOfStep, NextCall, Admitted, Scripted, DataNow, Yielded,
         StepPlays, ScopePlays, Turning, InTime, ExecScope;
    var steps, scope := step.kind.steps, path + [Itoa(rs.iteration)];
    var i, e := ChildIndex(steps, m.s, path), WithRepeat(m, path, rs);
    IterationAtScope(c, step, path, m, rs);
    InTimeSeen(c, step, path, m);
    AdmittedDeeper(c, m.log, path, Itoa(rs.iteration));
    RestingRecord(c, m, path, rs);
    StepsEnd(c, steps, i, scope, e, e.s.currentPath, true);
    StepsPlay(c, steps, i, scope, e, e.s.currentPath, true);
    var r := ExecScope(c.env, c.top, steps, i, scope, e);
    ScopeIs(c, steps, i, scope, e);
    if r.err == NoError && r.m.s.status == Running {
      IterationDone(c, step, path, m, rs);
    } else {
      ScopeInStep(c, path, Itoa(rs.iteration), r);
    }
  }

  /** The children are done. */
  lemma IterationDone(c: Course, step: Step, path: Path, m: Machine, rs: RepeatState)
    requires AtStep(c, step, path, m) && step.kind.Repeat? && InTime(c, step, path, m) && Admitted(c, m.log, path)
    requires rs == RepeatAt(m.s, path)
    requires var steps, scope, e := step.kind.steps, path + [Itoa(rs.iteration)], WithRepeat(m, path, rs);
      var r := ExecScope(c.env, c.top, steps, ChildIndex(steps, m.s, path), scope, e);
      && Inside(c.top, path, e.s) && Unfinished(e.s, path) && e.s.repeatStates[path] == rs
      && ScopeEnds(c, steps, scope, r) && ScopePlays(c, scope, r) && r.err == NoError && r.m.s.status == Running
    ensures StepPlays(c, path, RunIteration(c.env, c.top, step, path, m, rs))
  {
    hide Chronicle, Sound, Linked, Unmoved, Tracks, Remembers, FinishIteration, PlacedStep, NoneBelow, StepLocated,
         StepLifts, NextOfScope, NextOfStep, NextCall, Admitted, Scripted, DataNow, Yielded, StepPlays, Turning, ExecScope;
    var steps, scope := step.kind.steps, path + [Itoa(rs.iteration)];
    var i, e := ChildIndex(steps, m.s, path), WithRepeat(m, path, rs);
    var r := ExecScope(c.env, c.top, steps, i, scope, e);
    var due := rs.(awaitingCondition := true);
    IterationLeaves(c, steps, i, path, rs.iteration, e, r);
    ChildrenBelow(c, step, path, rs.iteration, r.m.s);
    DueTurning(c, step, path, r.m, rs);
    IterationAdmitted(c, step, path, m, rs);
    RestingRecord(c, r.m, path, due);
    DurableRecord(c, m, path);
    FinishPlays(c, step, path, WithRepeat(r.m, path, due), due);
  }

  lemma IterationAdmitted(c: Course, step: Step, path: Path, m: Machine, rs: RepeatState)
    requires step.kind.Repeat? && Carried(c, m) && path <= m.s.currentPath && Admitted(c, m.log, path)
    requires var e := WithRepeat(m, path, rs);
      var r := ExecScope(c.env, c.top, step.kind.steps, ChildIndex(step.kind.steps, m.s, path), path + [Itoa(rs.iteration)], e);
      Carried(c, r.m)
    ensures var e := WithRepeat(m, path, rs);
      var r := ExecScope(c.env, c.top, step.kind.steps, ChildIndex(step.kind.steps, m.s, path), path + [Itoa(rs.iteration)], e);
      Admitted(c, r.m.log, path)
  {
    hide Chronicle, Sound, Linked, Unmoved, Tracks, Remembers, Admitted, ExecSteps;
    var e, steps, scope := WithRepeat(m, path, rs), step.kind.steps, path + [Itoa(rs.iteration)];
    var i := ChildIndex(steps, m.s, path);
    var r := ExecScope(c.env, c.top, steps, i, scope, e);
    StepsGrow(c.env, c.top, steps, i, scope, e, e.s.currentPath, true);
    forall p | p < path ensures RepeatAt(r.m.s, p).startedAt == RepeatAt(m.s, p).startedAt {
      IterationKeeps(c, steps, i, path, rs.iteration, e, p);
    }
    SameClocks(c, m, r.m, path);
    AdmittedGrows(c, m.log, r.m.log, path);
  }
}
