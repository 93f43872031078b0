/**
 * The time limits of polls and repeats over whole histories: what their clocks say, that nothing is
 * asked once a limit has been read to have run out, and what happens instead.
 */
module Limits {
  import opened Options
  import opened Definition
  import opened State
  import opened Executor
  import opened Journal
  import opened Guarantees
  import opened Runs
  import opened Records
  import opened NextCalls
  import opened Effects
  import opened Courses
  import opened Sequence
  import opened Script
  import opened Staging
  import opened Failures

  // ---------- readings before a call ----------

  /**
   * A poll with a limit is asked only while the clock, read right before the question, is less than
   * the limit past the time saved with the state.
   */
  lemma PollInTime(env: Env, top: seq<Step>, log: Log, k: nat)
    requires History(env, top, log) && k < |log| && log[k].Called? && log[k].call.Check?
    requires LimitOf(top, log[k].call.path) > 0
    ensures var started := Durable(log[..k]).pollStartedAt;
      started.Some? ==> env.now(log[..k]) - started.value < LimitOf(top, log[k].call.path)
  {
    hide History, Admitted, NextCall, DataNow, Yielded;
    var from := EventPlays(env, top, log, k);
  }

  /** The same for Until, which is asked only on a started clock. */
  lemma UntilInTime(env: Env, top: seq<Step>, log: Log, k: nat)
    requires History(env, top, log) && k < |log| && log[k].Called? && log[k].call.Until?
    requires LimitOf(top, log[k].call.path) > 0
    ensures var started := RepeatAt(Durable(log[..k]), log[k].call.path).startedAt;
      started.Some? && env.now(log[..k]) - started.value < LimitOf(top, log[k].call.path)
  {
    hide History, Admitted, NextCall, DataNow, Yielded;
    var from := EventPlays(env, top, log, k);
  }

  /**
   * Inside a limited repeat nothing is called by a run that has not read, since it began, that the
   * repeat has time left: not even what was interrupted.
   */
  lemma InsideInTime(env: Env, top: seq<Step>, log: Log, k: nat, p: Path)
    requires History(env, top, log) && Loadable(Durable(log))
    requires var run := Run(env, top, Durable(log), log).m.log;
      |log| <= k < |run| && run[k].Called? && !run[k].call.Compensate? && p < run[k].call.path
    requires RepeatPath(top, p) && LimitOf(top, p) > 0
    ensures var run := Run(env, top, Durable(log), log).m.log;
      var started := RepeatAt(Durable(run[..k]), p).startedAt;
      started.Some? && exists j :: |log| < j <= k && env.now(run[..j]) - started.value < LimitOf(top, p)
  {
    hide History, Run, NextCall, DataNow, Yielded, RepeatPath, LimitOf, Durable;
    EventOfRun(env, top, log, k);
    var run := Run(env, top, Durable(log), log).m.log;
    var c := Course(env, top, |log|);
    assert SeenInTime(c, run[..k], p);
    var started := RepeatAt(Durable(run[..k]), p).startedAt;
    var j :| |log| < j <= |run[..k]| && env.now(run[..k][..j]) - started.value < LimitOf(top, p);
    assert run[..k][..j] == run[..j];
  }

  // ---------- the clock of a poll ----------

  /** The answer was that the poll is not done yet, or asked to be continued later. */
  predicate Waiting(reply: Reply) {
    if reply.Ok? then !reply.done else reply.failure == RetryAfter
  }

  /**
   * What is saved after an answer to Check: while it is not done, the time the poll was first asked, as
   * read then; once it is done or has failed, none.
   */
  lemma PollClockSaved(env: Env, top: seq<Step>, log: Log, k: nat)
    requires History(env, top, log) && Loadable(Durable(log))
    requires var run := Run(env, top, Durable(log), log).m.log;
      |log| < k < |run| && run[k - 1].Called? && run[k - 1].call.Check? && run[k].Saved?
    ensures var run := Run(env, top, Durable(log), log).m.log; var was, s := Durable(run[..k]).pollStartedAt, run[k].state;
      && s.pollStartedAt == (if !Waiting(run[k - 1].reply) then None
                             else if was.Some? then was else Some(env.now(run[..k - 1])))
      && (Waiting(run[k - 1].reply) <==> s.status == Polling)
      && (run[k - 1].reply.Ok? && run[k - 1].reply.done ==> s.status == Running && IsCompleted(s, run[k - 1].call.path))
  {
    hide History, Run, NextCall, DataNow, Yielded, Stays;
    EventOfRun(env, top, log, k);
    var run := Run(env, top, Durable(log), log).m.log;
    var c, before, call, reply := Course(env, top, |log|), run[..k], run[k - 1].call, run[k - 1].reply;
    assert before[k - 1] == run[k - 1] && before[..k - 1] == run[..k - 1];
    if reply.Ok? && reply.done {
      RunWhole(env, top, log);
      CallsFindTheirStep(env, top, run, k - 1);
      var d, step := Durable(before), FindStep(top, call.path).value;
      assert Effect(top, d, call, reply).completedSteps[|d.completedSteps|].path == call.path;
      SameCompleted(Effect(top, d, call, reply), run[k].state);
    }
  }

  /** A whole run after a history is a history. */
  lemma RunWhole(env: Env, top: seq<Step>, log: Log)
    requires History(env, top, log) && Loadable(Durable(log))
    ensures History(env, top, Run(env, top, Durable(log), log).m.log)
  {
    hide Run, Concludes, Scripted, LogGood, Valid;
    RunIsScripted(env, top, log);
    var n: nat :| Reachable(env, top, log, n);
    var run := Run(env, top, Durable(log), log).m.log;
    assert RunsTo(env, top, log, run);
    assert Reachable(env, top, run, n + 1);
  }

  /** The time t was read when this poll was asked. */
  ghost predicate AskedAt(env: Env, log: Log, p: Path, t: int) {
    exists j :: 0 <= j < |log| && log[j].Called? && log[j].call == Check(p) && env.now(log[..j]) == t
  }

  lemma AskedStays(env: Env, log: Log, e: Event, p: Path, t: int)
    requires AskedAt(env, log, p, t)
    ensures AskedAt(env, log + [e], p, t)
  {
    var j :| 0 <= j < |log| && log[j].Called? && log[j].call == Check(p) && env.now(log[..j]) == t;
    assert (log + [e])[j] == log[j] && (log + [e])[..j] == log[..j];
  }

  /** A clock that is saved belongs to the poll that comes next, and was read when that was asked. */
  ghost predicate OwnClock(env: Env, top: seq<Step>, log: Log) {
    var d := Durable(log);
    d.status != Compensating && d.status != Failed && d.pollStartedAt.Some? ==>
      var next := NextCall(top, d);
      next.Some? && next.value.Check? && AskedAt(env, log, next.value.path, d.pollStartedAt.value)
  }

  lemma StaysNext(top: seq<Step>, d: RunState, s: RunState)
    requires Stays(top, d, s)
    ensures NextCall(top, s) == NextCall(top, d)
  {
  }

  /** The first snapshot of a run changes nothing that is read here. */
  lemma OpeningSaved(c: Course, log: Log, s: RunState)
    requires |log| == c.from && May(c, log, s)
    ensures s.pollStartedAt == Durable(log).pollStartedAt && NextCall(c.top, s) == NextCall(c.top, Durable(log))
  {
    hide NextCall, DataNow;
    var d := Durable(log);
    assert forall q :: RepeatAt(s, q) == RepeatAt(d, q) && IsCompleted(s, q) == IsCompleted(d, q);
    NextSame(c.top, d, s);
  }

  lemma OwnClockNext(c: Course, log: Log, e: Event)
    requires LogGood(c.top, log) && Allowed(c.top, log, e)
    requires OwnClock(c.env, c.top, log) && Lines(c, log, e) && c.from <= |log|
    requires log != [] && log[|log| - 1].Called? && !log[|log| - 1].call.Compensate? ==>
               NextCall(c.top, Durable(log)) == Some(log[|log| - 1].call)
    ensures OwnClock(c.env, c.top, log + [e])
  {
    hide LogGood, NextCall, Allowed, May, AskedAt, Stays;
    Append(log, e);
    var d := Durable(log);
    if d.pollStartedAt.Some? && NextCall(c.top, d).Some? && AskedAt(c.env, log, NextCall(c.top, d).value.path, d.pollStartedAt.value) {
      AskedStays(c.env, log, e, NextCall(c.top, d).value.path, d.pollStartedAt.value);
    }
    if e.Saved? && e.state.status != Compensating && e.state.status != Failed {
      ForwardFrom(c, log, e.state);
      if |log| == c.from {
        OpeningSaved(c, log, e.state);
      } else {
        OwnClockSaved(c, log, e.state);
      }
    }
  }

  lemma ForwardFrom(c: Course, log: Log, s: RunState)
    requires LogGood(c.top, log) && Allowed(c.top, log, Saved(s)) && s.status != Compensating && s.status != Failed
    ensures Durable(log).status != Compensating && Durable(log).status != Failed
  {
    hide LogGood, TopPos, RollbackOK, JournalOK;
    DurableOK(c.top, log);
  }

  /** A saved clock is the old one, of the poll that still comes next, or was read for the last question. */
  lemma ClockSaved(c: Course, log: Log, s: RunState)
    requires c.from < |log| && May(c, log, s) && s.status != Compensating && s.status != Failed
    requires Durable(log).status != Compensating && s.pollStartedAt.Some?
    requires Durable(log).pollStartedAt.Some? ==>
               NextCall(c.top, Durable(log)).Some? && NextCall(c.top, Durable(log)).value.Check?
    requires log[|log| - 1].Called? && !log[|log| - 1].call.Compensate? ==>
               NextCall(c.top, Durable(log)) == Some(log[|log| - 1].call)
    ensures NextCall(c.top, s) == NextCall(c.top, Durable(log))
    ensures || Durable(log).pollStartedAt == s.pollStartedAt
            || (&& log[|log| - 1].Called? && log[|log| - 1].call.Check?
                && s.pollStartedAt == Some(c.env.now(log[..|log| - 1])))
  {
    hide NextCall, Yielded, Retries, DataNow, Effect, RepeatPath, LimitOf, Admitted, KnownKey, AtLimit, Upcoming, PollExpired,
         RepeatExpired;
  }

  lemma OwnClockSaved(c: Course, log: Log, s: RunState)
    requires c.from < |log| && May(c, log, s) && s.status != Compensating && s.status != Failed
    requires OwnClock(c.env, c.top, log) && Durable(log).status != Compensating && Durable(log).status != Failed
    requires log[|log| - 1].Called? && !log[|log| - 1].call.Compensate? ==>
               NextCall(c.top, Durable(log)) == Some(log[|log| - 1].call)
    ensures OwnClock(c.env, c.top, log + [Saved(s)])
  {
    hide NextCall, May;
    Append(log, Saved(s));
    if s.pollStartedAt.Some? {
      ClockSaved(c, log, s);
      if Durable(log).pollStartedAt == s.pollStartedAt {
        AskedStays(c.env, log, Saved(s), NextCall(c.top, s).value.path, s.pollStartedAt.value);
      } else {
        assert (log + [Saved(s)])[..|log| - 1] == log[..|log| - 1];
        assert AskedAt(c.env, log + [Saved(s)], log[|log| - 1].call.path, s.pollStartedAt.value);
      }
    }
  }

  /**
   * Whenever a time is saved for a poll, before any rollback, that poll is what comes next, and the
   * time is the clock reading at one of its own questions: no poll inherits the time of another.
   */
  lemma {:induction false} PollClockIsOwn(env: Env, top: seq<Step>, log: Log, k: nat)
    requires History(env, top, log) && k <= |log|
    ensures OwnClock(env, top, log[..k])
    decreases k
  {
    hide History, LogGood, OwnClock, Lines, Allowed, NextCall;
    if k == 0 {
      NoClock(env, top);
    } else {
      var before := log[..k - 1];
      assert log[..k] == before + [log[k - 1]];
      PollClockIsOwn(env, top, log, k - 1);
      HistoryIsGood(env, top, log);
      EventAllowed(top, log, k - 1);
      var from := EventPlays(env, top, log, k - 1);
      if k > 1 && log[k - 2].Called? && !log[k - 2].call.Compensate? {
        NextIsDurable(env, top, log, k - 2);
        assert before == log[..k - 2] + [log[k - 2]];
        Append(log[..k - 2], log[k - 2]);
      }
      OwnClockNext(Course(env, top, from), before, log[k - 1]);
    }
  }

  lemma NoClock(env: Env, top: seq<Step>)
    ensures OwnClock(env, top, [])
  {
  }

  // ---------- what happens when a limit has run out ----------

  /** Every limited repeat at or around the call has its clock started. */
  ghost predicate OnTheClock(top: seq<Step>, d: RunState, call: Call) {
    forall q :: q <= call.path && RepeatPath(top, q) && LimitOf(top, q) > 0 ==> RepeatAt(d, q).startedAt.Some?
  }

  /** With all clocks started, and no call, what is offered next to a running state starts a rollback. */
  lemma OnlyRollback(c: Course, log: Log, s: RunState, call: Call)
    requires c.from < |log| && log[|log| - 1].Saved? && Durable(log).status == Running && May(c, log, s)
    requires NextCall(c.top, Durable(log)) == Some(call) && OnTheClock(c.top, Durable(log), call)
    ensures s.status == Compensating
  {
    hide NextCall, Yielded, DataNow, Stays, RepeatPath, LimitOf;
  }

  /** A state that waits for a poll has the poll next, its time noted, and every repeat around it timed. */
  ghost predicate Awaits(top: seq<Step>, d: RunState) {
    var next := NextCall(top, d);
    next.Some? && next.value.Check? && d.pollStartedAt.Some? && OnTheClock(top, d, next.value)
  }

  lemma PollingSaved(c: Course, from': nat, log: Log, s: RunState)
    requires May(c, log, s) && s.status == Polling
    requires log != [] && log[|log| - 1].Called? ==>
      && Asks(c.(from := from'), log[..|log| - 1], log[|log| - 1].call)
      && Durable(log[..|log| - 1]) == Durable(log) && NextCall(c.top, Durable(log)) == Some(log[|log| - 1].call)
      && (log[|log| - 1].call.Check? ==> !RepeatPath(c.top, log[|log| - 1].call.path))
    ensures Awaits(c.top, s)
  {
    hide NextCall, Yielded, DataNow, Effect, RepeatPath, LimitOf;
    var d, call := Durable(log), log[|log| - 1].call;
    assert Stays(c.top, d, s) && NextCall(c.top, s) == Some(call) && call.Check?;
    forall q | q <= call.path && RepeatPath(c.top, q) && LimitOf(c.top, q) > 0 ensures RepeatAt(s, q).startedAt.Some? {
      assert q != call.path;
      assert q < call.path;
      assert SeenInTime(c.(from := from'), log[..|log| - 1], q);
      assert RepeatAt(s, q).startedAt == RepeatAt(d, q).startedAt;
    }
  }

  lemma PollingAwaits(env: Env, top: seq<Step>, log: Log, k: nat)
    requires History(env, top, log) && k < |log| && log[k].Saved? && log[k].state.status == Polling
    ensures Awaits(top, log[k].state)
  {
    hide History, May, Asks, NextCall, Awaits;
    var before := log[..k];
    var from := EventPlays(env, top, log, k);
    var from' := 0;
    if k > 0 && log[k - 1].Called? {
      from' := EventPlays(env, top, log, k - 1);
      assert before == log[..k - 1] + [log[k - 1]];
      Append(log[..k - 1], log[k - 1]);
      CallsFindTheirStep(env, top, log, k - 1);
      PollingForward(Course(env, top, from), before, log[k].state);
      NextIsDurable(env, top, log, k - 1);
      assert before[..k - 1] == log[..k - 1];
    }
    PollingSaved(Course(env, top, from), from', before, log[k].state);
  }

  lemma PollingForward(c: Course, log: Log, s: RunState)
    requires May(c, log, s) && s.status == Polling && log != [] && log[|log| - 1].Called?
    ensures !log[|log| - 1].call.Compensate?
  {
    hide DataNow, AfterFailure, AfterSuccess, PollClock, Retries;
  }

  /** The run was started from a state waiting for the poll at p, and found its limit run out. */
  ghost predicate Overdue(env: Env, top: seq<Step>, log: Log, run: Log, p: Path) {
    var d := Durable(log);
    && d.status == Polling && d.pollStartedAt.Some? && NextCall(top, d) == Some(Check(p)) && LimitOf(top, p) > 0
    && |log| < |run| && run[|log|].Saved?
    && env.now(run[..|log| + 1]) - d.pollStartedAt.value >= LimitOf(top, p)
  }

  /** The state that the first snapshot of such a run saved. */
  lemma OverdueStart(env: Env, top: seq<Step>, log: Log, p: Path)
    requires History(env, top, log) && Loadable(Durable(log))
    requires Overdue(env, top, log, Run(env, top, Durable(log), log).m.log, p)
    ensures var run := Run(env, top, Durable(log), log).m.log; var d, s := Durable(log), run[|log|].state;
      && Durable(run[..|log| + 1]) == s && s.status == Running && s.pollStartedAt == d.pollStartedAt
      && NextCall(top, s) == Some(Check(p)) && OnTheClock(top, s, Check(p))
      && run[..|log| + 1][|log|] == run[|log|] && !Yielded(|log|, run[..|log| + 1])
  {
    hide Run, History, NextCall, RepeatPath, LimitOf, DataNow, Concludes, May, OnTheClock, Yielded;
    var c, run, d := Course(env, top, |log|), Run(env, top, Durable(log), log).m.log, Durable(log);
    EndOfRun(env, top, log);
    EventOfRun(env, top, log, |log|);
    assert run[..|log|] == log;
    var s := run[|log|].state;
    OpeningSaved(c, log, s);
    OpeningTimed(c, log, s, Check(p));
    DurableAwaits(env, top, log);
    assert run[..|log| + 1] == log + [run[|log|]];
    Append(log, run[|log|]);
    OpeningNotYielded(run[..|log| + 1], |log|);
  }

  lemma OpeningNotYielded(log: Log, from: nat)
    requires |log| == from + 1
    ensures !Yielded(from, log)
  {
  }

  lemma OpeningTimed(c: Course, log: Log, s: RunState, call: Call)
    requires |log| == c.from && May(c, log, s)
    ensures s.status == (if Durable(log).status == Compensating then Compensating else Running)
    ensures OnTheClock(c.top, Durable(log), call) ==> OnTheClock(c.top, s, call)
  {
    hide NextCall, RepeatPath, LimitOf, DataNow;
    assert forall q :: RepeatAt(s, q) == RepeatAt(Durable(log), q);
  }

  lemma DurableAwaits(env: Env, top: seq<Step>, log: Log)
    requires History(env, top, log) && Durable(log).status == Polling
    ensures Awaits(top, Durable(log))
  {
    hide History, Awaits;
    assert log[..|log|] == log;
    DurableSaved(log, |log|);
    var j :| 0 <= j < |log| && log[j].Saved? && log[j].state == Durable(log);
    PollingAwaits(env, top, log, j);
  }

  /**
   * A run that finds the limit of its poll run out asks nothing at all: unless it is cancelled, the
   * next state it saves is that of a rollback, and all it calls are compensators.
   */
  lemma PollTimesOut(env: Env, top: seq<Step>, log: Log, p: Path)
    requires History(env, top, log) && Loadable(Durable(log))
    requires Overdue(env, top, log, Run(env, top, Durable(log), log).m.log, p)
    ensures var r := Run(env, top, Durable(log), log); var run, n := r.m.log, |log| + 1;
      && (if n < |run| then (run[n].Saved? || run[n].Refused?) && run[n].state.status == Compensating
          else r.err == Cancelled && env.cancelled(run))
      && forall k :: |log| <= k < |run| && run[k].Called? ==> run[k].call.Compensate?
  {
    hide Run, History, NextCall, OnTheClock, Concludes, Overdue, Yielded, May, Asks;
    var c, r, n := Course(env, top, |log|), Run(env, top, Durable(log), log), |log| + 1;
    var run := r.m.log;
    OverdueLength(env, top, log, run, p);
    OverdueStart(env, top, log, p);
    EndOfRun(env, top, log);
    if n < |run| {
      OverdueNext(env, top, log, p);
      RunWhole(env, top, log);
      forall k | |log| <= k < |run| && run[k].Called? ensures run[k].call.Compensate? {
        if run[n].Saved? {
          CompensationIsFinal(env, top, run, n, k);
        } else {
          NothingAfter(env, top, log, n);
        }
      }
    } else {
      assert run[..n] == run;
      RestsCancelled(c, r);
    }
  }

  lemma OverdueLength(env: Env, top: seq<Step>, log: Log, run: Log, p: Path)
    requires Overdue(env, top, log, run, p)
    ensures |log| < |run| && run[|log|].Saved?
  {
  }

  lemma RestsCancelled(c: Course, r: Result)
    requires Concludes(c, r) && r.m.log != [] && r.m.log[|r.m.log| - 1].Saved? && !Yielded(c.from, r.m.log)
    requires c.from < |r.m.log| && r.m.log[|r.m.log| - 1].state.status == Running
    ensures r.err == Cancelled && c.env.cancelled(r.m.log)
  {
  }

  /** Nothing follows a refused snapshot in its run. */
  lemma NothingAfter(env: Env, top: seq<Step>, log: Log, n: nat)
    requires History(env, top, log) && Loadable(Durable(log))
    requires var run := Run(env, top, Durable(log), log).m.log; |log| <= n < |run| && run[n].Refused?
    ensures |Run(env, top, Durable(log), log).m.log| == n + 1
  {
    hide Run, History, DataNow, Tries;
    var run := Run(env, top, Durable(log), log).m.log;
    if n + 1 < |run| {
      assert run[..n + 1][n] == run[n];
      EventOfRun(env, top, log, n + 1);
      assert false;
    }
  }

  lemma OverdueNext(env: Env, top: seq<Step>, log: Log, p: Path)
    requires History(env, top, log) && Loadable(Durable(log))
    requires Overdue(env, top, log, Run(env, top, Durable(log), log).m.log, p)
    requires var run := Run(env, top, Durable(log), log).m.log; |log| + 1 < |run|
    ensures var run, n := Run(env, top, Durable(log), log).m.log, |log| + 1;
      (run[n].Saved? || run[n].Refused?) && run[n].state.status == Compensating
  {
    hide Run, History, NextCall, DataNow, Yielded, OnTheClock, Admitted, May, Tries;
    var c, run, n := Course(env, top, |log|), Run(env, top, Durable(log), log).m.log, |log| + 1;
    OverdueStart(env, top, log, p);
    EventOfRun(env, top, log, n);
    if run[n].Saved? || run[n].Refused? {
      OnlyRollback(c, run[..n], run[n].state, Check(p));
    }
  }

  /** The run stands before Until of the repeat at p, whose limit has run out at this reading. */
  ghost predicate LateForUntil(env: Env, top: seq<Step>, from: nat, log: Log, p: Path) {
    var d, next := Durable(log), NextCall(top, Durable(log));
    && from < |log| && log[|log| - 1].Saved? && d.status == Running && !Yielded(from, log)
    && next.Some? && next.value.Until? && next.value.path == p && OnTheClock(top, d, next.value)
    && RepeatPath(top, p) && LimitOf(top, p) > 0
    && env.now(log) - RepeatAt(d, p).startedAt.value >= LimitOf(top, p)
  }

  /**
   * After the children of an iteration the limit is read again: if it has run out, Until is not asked,
   * and unless it is cancelled the run rolls back and says which limit it was.
   */
  lemma RepeatTimesOut(env: Env, top: seq<Step>, log: Log, k: nat, p: Path)
    requires History(env, top, log) && Loadable(Durable(log))
    requires var run := Run(env, top, Durable(log), log).m.log; k <= |run| && LateForUntil(env, top, |log|, run[..k], p)
    ensures var r := Run(env, top, Durable(log), log); var run := r.m.log;
      if k < |run| then
        && (run[k].Saved? || run[k].Refused?) && run[k].state.status == Compensating
        && run[k].state.repeatTimeout.Some?
        && RepeatExpired(env, top, run[..k], run[k].state.failedStepPath)
        && run[k].state.repeatTimeout.value.maxDuration == LimitOf(top, run[k].state.failedStepPath)
      else r.err == Cancelled && env.cancelled(run)
  {
    hide Run, History, NextCall, DataNow, Yielded, OnTheClock, Admitted, May, Tries, Concludes, RepeatPath, LimitOf;
    var c, r := Course(env, top, |log|), Run(env, top, Durable(log), log);
    var run := r.m.log;
    EndOfRun(env, top, log);
    if k < |run| {
      EventOfRun(env, top, log, k);
      if run[k].Saved? || run[k].Refused? {
        OnlyRollback(c, run[..k], run[k].state, NextCall(top, Durable(run[..k])).value);
        TimeoutSaid(c, run[..k], run[k].state);
      }
    } else {
      assert run[..k] == run;
      RestsCancelled(c, r);
    }
  }

  lemma TimeoutSaid(c: Course, log: Log, s: RunState)
    requires c.from < |log| && log[|log| - 1].Saved? && Durable(log).status == Running && May(c, log, s)
    requires NextCall(c.top, Durable(log)).Some? && NextCall(c.top, Durable(log)).value.Until? && s.status == Compensating
    ensures s.repeatTimeout.Some? && RepeatExpired(c.env, c.top, log, s.failedStepPath)
    ensures s.repeatTimeout.value.maxDuration == LimitOf(c.top, s.failedStepPath)
  {
    hide NextCall, Yielded, DataNow, Stays, RepeatPath, LimitOf;
  }
}
