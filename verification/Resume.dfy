/**
 * Resuming means the same as not stopping: a run cut at any successful snapshot and started again
 * from the state it saved makes the remaining calls and ends where the uncut run ends.
 */
module Resume {
  import opened Options
  import opened Definition
  import opened State
  import opened Executor
  import opened Journal
  import opened Runs
  import opened Guarantees
  import opened Places
  import opened Lockstep
  import opened Lifecycle
  import opened CutRollback
  import opened CutForward

  // ---------- what follows the first snapshot of a run ----------

  /** The machine of a run after its first snapshot. */
  function Started(d: RunState, log: Log): Machine {
    var s := if d.status == Compensating then d else d.(status := Running);
    var saved := s.(revision := d.revision + 1);
    Machine(saved, d.data, log + [Saved(saved)])
  }

  lemma RunForward(env: Env, top: seq<Step>, d: RunState, log: Log)
    requires Steady(env) && Valid(top) && !d.IsTerminal() && d.status != Compensating
    ensures Run(env, top, d, log) == Going(env, top, Started(d, log))
  {
    hide Valid, ExecScope, ExecSteps;
  }

  lemma RunBackward(env: Env, top: seq<Step>, d: RunState, log: Log)
    requires Steady(env) && Valid(top) && d.status == Compensating && Loadable(d)
    ensures var m := Started(d, log); var c := CompensateFrom(env, top, m, m.s.compensationIndex);
      var r := Run(env, top, d, log);
      r.m == c.m && r.err == if c.err == NoError && c.m.s.repeatTimeout.Some? then RepeatTimedOut else c.err
  {
    hide Valid, CompensateFrom;
  }

  lemma StartedRestarted(env: Env, d: RunState, log': Log)
    requires Clocked(env, d)
    ensures Restarted(env, d.(status := Started(d, log').s.status), Started(d, log'))
    ensures Clocked(env, Started(d, log').s)
  {
    var m' := Started(d, log');
    RevisionTwin(env, d, d.(status := m'.s.status), m'.s);
  }

  lemma RevisionTwin(env: Env, d: RunState, s: RunState, s': RunState)
    requires Clocked(env, d) && s == d.(status := s.status) && s' == s.(revision := s'.revision)
    ensures Twin(env, s, s')
  {
    assert forall q :: RepeatAt(s, q) == RepeatAt(d, q) && RepeatAt(s', q) == RepeatAt(d, q);
  }

  lemma StartedCalls(d: RunState, log': Log)
    ensures Calls(Started(d, log').log) == Calls(log')
  {
    assert Started(d, log').log[..|log'|] == log';
  }

  // ---------- terminal states ----------

  lemma {:induction false} TerminalLast(top: seq<Step>, log: Log, k: nat)
    requires LogGood(top, log) && k < |log| && log[k].Saved? && log[k].state.IsTerminal()
    ensures Durable(log) == log[k].state && Calls(log) == Calls(log[..k + 1])
  {
    if k + 1 < |log| {
      var before := log[..|log| - 1];
      TerminalLast(top, before, k);
      assert before[..k + 1] == log[..k + 1];
    } else {
      assert log[..k + 1] == log;
    }
  }

  // ---------- the theorem ----------

  /**
   * Whatever follows event k of one run also follows in a run that starts from the state saved
   * there, after any other history log': the same calls with the same answers, and a final state
   * that differs at most in its revision and in when clocks were started.
   */
  ghost predicate SameFromHere(env: Env, top: seq<Step>, r: Result, k: nat, log': Log) {
    && k < |r.m.log| && r.m.log[k].Saved?
    && var d := r.m.log[k].state;
    && Loadable(d)
    && var r' := Run(env, top, d, log');
    Twin(env, r.m.s, r'.m.s) && Paired(Calls(r.m.log[..k + 1]), Calls(log'), r.m.log, r'.m.log)
  }

  /** The snapshot at k is not the one with which the run itself stopped, to be called again. */
  predicate WentOn(r: Result, k: nat) {
    k + 1 < |r.m.log| || r.err == NoError
  }

  lemma SamePair(env: Env, r: Result, k: nat, d: RunState, log': Log)
    requires k < |r.m.log|
    ensures FromCut(env, r, k, Started(d, log')) == Pair(env, Calls(r.m.log[..k + 1]), Calls(log'), true, true, None)
  {
    StartedCalls(d, log');
  }

  /** Cut at the first snapshot, or while going forward. */
  lemma GoingCut(env: Env, top: seq<Step>, m: Machine, k: nat, d: RunState, log': Log)
    requires Steady(env) && Clocked(env, d) && InTime(env, top) && Valid(top)
    requires m.s.status == Running && m.data == m.s.data
    requires Entry(top, StartOf(top, m.s), [], m.s, m.s.currentPath, true)
    requires var r := Going(env, top, m);
      && |m.log| <= k < |r.m.log| && r.m.log[k] == Saved(d) && d.status == Running && WentOn(r, k)
    ensures SameFromHere(env, top, Going(env, top, m), k, log')
  {
    hide ValidSteps, Paired, Calls, Entry, ExecSteps, InTime;
    var start := StartOf(top, m.s);
    var e := ExecScope(env, top, top, start, [], m);
    var r := Going(env, top, m);
    var m' := Started(d, log');
    StartedRestarted(env, d, log');
    RunForward(env, top, d, log');
    SamePair(env, r, k, d, log');
    if e.err == NoError && e.m.s.status == Running {
      assert e.m.log <= r.m.log;
      assert r.m.log[|r.m.log| - 1].state.status == Completed;
    }
    assert k < |e.m.log|;
    PrefixEvent(e.m.log, r.m.log, k);
    StepsCut(env, top, top, start, [], m, m.s.currentPath, true, k, m');
    CompletedTwins(FromCut(env, e, k, m'), e, ExecScope(env, top, top, StartOf(top, m'.s), [], m'));
  }

  lemma CompletedTwins(p: Pair, e: Result, e': Result)
    requires Steady(p.env) && TwinResults(p, e, e')
    ensures e.err == NoError && e.m.s.status == Running ==>
      TwinResults(p, SnapshotData(p.env, e.m.(s := e.m.s.(status := Completed))),
                  SnapshotData(p.env, e'.m.(s := e'.m.s.(status := Completed))))
  {
    hide Twins;
    TwinFields(p, e.m, e'.m);
    MoveTwins(p, e.m, e'.m, e.m.s.(status := Completed), e'.m.s.(status := Completed));
    SaveTwins(p, e.m.(s := e.m.s.(status := Completed)), e'.m.(s := e'.m.s.(status := Completed)), false);
  }

  /** Cut at a snapshot of the rollback a failing step started. */
  lemma GoingUndone(env: Env, top: seq<Step>, m: Machine, k: nat, d: RunState, log': Log)
    requires Steady(env) && Clocked(env, d) && Valid(top) && m.s.status == Running
    requires var r := Going(env, top, m);
      && |m.log| <= k < |r.m.log| && r.m.log[k] == Saved(d) && WentOn(r, k)
    requires d.status == Compensating || d.status == Polling
    ensures d.status == Compensating && SameFromHere(env, top, Going(env, top, m), k, log')
  {
    hide Valid, Paired, Calls, ExecSteps, CompensateFrom;
    var start := StartOf(top, m.s);
    var e := ExecScope(env, top, top, start, [], m);
    var r := Going(env, top, m);
    if e.err == NoError && e.m.s.status == Running {
      assert r.m.log[|r.m.log| - 1].state.status == Completed;
      assert k < |e.m.log|;
      PrefixEvent(e.m.log, r.m.log, k);
    }
    var m' := Started(d, log').(s := Started(d, log').s.(status := d.status));
    RevisionTwin(env, d, d, m'.s);
    SamePair(env, r, k, d, log');
    StepsUndo(env, top, top, start, [], m, m.s.currentPath, true, k, m');
    RunBackward(env, top, d, log');
  }

  /** Cut at a snapshot of a resumed rollback. */
  lemma BackwardCut(env: Env, top: seq<Step>, m: Machine, r: Result, k: nat, d: RunState, log': Log)
    requires Steady(env) && Clocked(env, d) && Valid(top) && m.s.status == Compensating
    requires m.s.compensationIndex < |m.s.completedSteps|
    requires var c := CompensateFrom(env, top, m, m.s.compensationIndex);
      r.m == c.m && (if c.err == NoError then r.err == NoError || r.err == RepeatTimedOut else r.err == c.err)
    requires |m.log| <= k < |r.m.log| && r.m.log[k] == Saved(d) && d.status == Compensating && WentOn(r, k)
    ensures SameFromHere(env, top, r, k, log')
  {
    hide Valid, Paired, Calls;
    StartedRestarted(env, d, log');
    SamePair(env, r, k, d, log');
    var c := CompensateFrom(env, top, m, m.s.compensationIndex);
    CompensateCut(env, top, m, m.s.compensationIndex, k, Started(d, log'));
    RunBackward(env, top, d, log');
  }

  /** Cut at the first snapshot of a forward run. */
  lemma GoingFirst(env: Env, top: seq<Step>, d0: RunState, log: Log, log': Log)
    requires Steady(env) && Clocked(env, d0) && InTime(env, top) && Valid(top)
    requires !d0.IsTerminal() && d0.status != Compensating
    ensures var m := Started(d0, log); var r := Going(env, top, m);
      |log| < |r.m.log| && r.m.log[|log|] == Saved(m.s) && SameFromHere(env, top, r, |log|, log')
  {
    hide Valid, Paired, Calls, ExecSteps, InTime;
    var m := Started(d0, log);
    var r := Going(env, top, m);
    var m' := Started(m.s, log');
    GoingGrows(env, top, m);
    assert r.m.log[|log|] == m.log[|log|];
    StartedRestarted(env, d0, log);
    StartedRestarted(env, m.s, log');
    RunForward(env, top, m.s, log');
    CutHere(env, m, r, m');
    SamePair(env, r, |log|, m.s, log');
    var p := FromCut(env, r, |log|, m');
    StepsTwins(p, top, top, StartOf(top, m.s), [], m, m', m.s.currentPath, m.s.currentPath, true);
    CompletedTwins(p, ExecScope(env, top, top, StartOf(top, m.s), [], m),
                   ExecScope(env, top, top, StartOf(top, m.s), [], m'));
  }

  lemma GoingGrows(env: Env, top: seq<Step>, m: Machine)
    ensures m.log <= Going(env, top, m).m.log
  {
    hide ExecSteps;
    StepsGrow(env, top, top, StartOf(top, m.s), [], m, m.s.currentPath, true);
    var e := ExecScope(env, top, top, StartOf(top, m.s), [], m);
    LogsGrow(m.log, e.m.log, SnapshotData(env, e.m.(s := e.m.s.(status := Completed))).m.log);
  }

  /** Cut at the first snapshot of a resumed rollback. */
  lemma BackwardFirst(env: Env, top: seq<Step>, d0: RunState, log: Log, log': Log)
    requires Steady(env) && Clocked(env, d0) && Valid(top) && d0.status == Compensating && Loadable(d0)
    ensures var m := Started(d0, log); var r := Run(env, top, d0, log);
      |log| < |r.m.log| && r.m.log[|log|] == Saved(m.s) && SameFromHere(env, top, r, |log|, log')
  {
    hide Valid, Paired, Calls, CompensateFrom, Run;
    var m := Started(d0, log);
    var m' := Started(m.s, log');
    var i := m.s.compensationIndex;
    RunBackward(env, top, d0, log);
    var r := Run(env, top, d0, log);
    CompensateGrows(env, top, m, i);
    assert r.m.log[|log|] == m.log[|log|];
    StartedRestarted(env, d0, log);
    StartedRestarted(env, m.s, log');
    RunBackward(env, top, m.s, log');
    CutHere(env, m, r, m');
    SamePair(env, r, |log|, m.s, log');
    CompensateTwins(FromCut(env, r, |log|, m'), top, m, m', i);
  }

  /** A terminal state was the last thing saved; running it again does nothing. */
  lemma TerminalCut(env: Env, top: seq<Step>, r: Result, k: nat, log': Log)
    requires LogGood(top, r.m.log) && Valid(top)
    requires k < |r.m.log| && r.m.log[k].Saved? && r.m.log[k].state.IsTerminal()
    requires r.m.s == Durable(r.m.log) && Clocked(env, r.m.s)
    ensures SameFromHere(env, top, r, k, log')
  {
    hide Valid, LogGood;
    TerminalLast(top, r.m.log, k);
  }

  /** Without cancellation and refusals a run never ends in these ways. */
  lemma SteadyEnds(env: Env, top: seq<Step>, log: Log)
    requires Steady(env) && InTime(env, top) && Valid(top) && LogGood(top, log) && Loadable(Durable(log))
    requires Clocked(env, Durable(log))
    ensures var r := Run(env, top, Durable(log), log);
      LogGood(top, r.m.log) && r.m.s == Durable(r.m.log)
  {
    hide LogGood, Valid, Run, Paired, CompensateFrom, ExecSteps, InTime;
    RunGood(env, top, log);
    var d := Durable(log);
    RunStarts(env, top, d, log);
    if !d.IsTerminal() {
      var m := Started(d, log);
      var p := Pair(env, Calls(m.log), Calls(m.log), true, true, None);
      assert Twins(p, m, m) by { SelfPaired(m.log); StartedRestarted(env, d, log); TwinSelf(env, m.s); }
      if d.status == Compensating {
        RunBackward(env, top, d, log);
        CompensateTwins(p, top, m, m, m.s.compensationIndex);
      } else {
        RunForward(env, top, d, log);
        StepsTwins(p, top, top, StartOf(top, m.s), [], m, m, m.s.currentPath, m.s.currentPath, true);
      }
    }
  }

  lemma SelfPaired(log: Log)
    ensures Paired(Calls(log), Calls(log), log, log)
  {
  }

  /**
   * Resuming means the same as not stopping. Cut a run of any history at any successful snapshot
   * but the one with which it stopped by itself, and start from the state that snapshot saved, in
   * a process that knows nothing else: the remaining calls of Do, Check, Decide, Until and
   * Compensate are the same, with the same answers, and so are the final status, journal, data,
   * positions and rollback index - for any nesting of branches and repeats, as long as the clock does
   * not move as far as a time limit.
   */
  lemma ResumeIsTransparent(env: Env, top: seq<Step>, log: Log, r: Result, k: nat, log': Log)
    requires History(env, top, log) && Steady(env) && InTime(env, top)
    requires Loadable(Durable(log)) && r == Run(env, top, Durable(log), log)
    requires |log| <= k < |r.m.log| && r.m.log[k].Saved? && WentOn(r, k)
    ensures SameFromHere(env, top, r, k, log')
  {
    hide LogGood, Valid, Going, Run, InTime, SameFromHere;
    HistoryIsGood(env, top, log);
    HistoryIsSound(env, top, log);
    SteadyEnds(env, top, log);
    var d0, d := Durable(log), r.m.log[k].state;
    RunClocked(env, top, log);
    RunStarts(env, top, d0, log);
    if d.IsTerminal() {
      TerminalCut(env, top, r, k, log');
    } else if d0.status == Compensating {
      RunBackward(env, top, d0, log);
      if k == |log| {
        BackwardFirst(env, top, d0, log, log');
      } else {
        BackwardStates(env, top, Started(d0, log), r, k);
        BackwardCut(env, top, Started(d0, log), r, k, d, log');
      }
    } else {
      RunForward(env, top, d0, log);
      if k == |log| {
        GoingFirst(env, top, d0, log, log');
      } else {
        ForwardCut(env, top, log, r, k, log');
      }
    }
  }

  /** Every state a run saves was given times read from the clock. */
  lemma RunClocked(env: Env, top: seq<Step>, log: Log)
    requires History(env, top, log) && Loadable(Durable(log))
    ensures var r := Run(env, top, Durable(log), log);
      && Clocked(env, Durable(r.m.log)) && Clocked(env, Durable(log))
      && forall k :: 0 <= k < |r.m.log| && r.m.log[k].Saved? ==> Clocked(env, r.m.log[k].state)
  {
    hide Run, Valid, LogGood;
    var r := Run(env, top, Durable(log), log);
    HistoryIsGood(env, top, log);
    RunGood(env, top, log);
    var n: nat :| Reachable(env, top, log, n);
    assert RunsTo(env, top, log, r.m.log);
    assert Reachable(env, top, r.m.log, n + 1);
    HistoryIsSound(env, top, log);
    HistoryIsSound(env, top, r.m.log);
  }

  /** A run that saves anything started from a state that was not over. */
  lemma RunStarts(env: Env, top: seq<Step>, d0: RunState, log: Log)
    requires Loadable(d0) && Valid(top)
    ensures d0.IsTerminal() ==> Run(env, top, d0, log) == Result(Machine(d0, d0.data, log), NoError)
  {
    hide Valid;
  }

  lemma BackwardStates(env: Env, top: seq<Step>, m: Machine, r: Result, k: nat)
    requires m.s.status == Compensating && m.s.compensationIndex < |m.s.completedSteps|
    requires r.m == CompensateFrom(env, top, m, m.s.compensationIndex).m
    requires |m.log| <= k < |r.m.log| && r.m.log[k].Saved? && !r.m.log[k].state.IsTerminal()
    ensures r.m.log[k].state.status == Compensating
  {
    hide CompensateFrom;
    CompensateSaves(env, top, m, m.s.compensationIndex, k);
  }

  lemma ForwardCut(env: Env, top: seq<Step>, log: Log, r: Result, k: nat, log': Log)
    requires Steady(env) && InTime(env, top) && Valid(top) && LogGood(top, log) && LogGood(top, r.m.log)
    requires k < |r.m.log| && r.m.log[k].Saved? && Clocked(env, r.m.log[k].state)
    requires var d0 := Durable(log);
      !d0.IsTerminal() && d0.status != Compensating && r == Going(env, top, Started(d0, log))
    requires |log| < k < |r.m.log| && r.m.log[k].Saved? && WentOn(r, k) && !r.m.log[k].state.IsTerminal()
    ensures SameFromHere(env, top, r, k, log')
  {
    hide LogGood, Valid, Going, InTime, SameFromHere, Entry;
    var m, d := Started(Durable(log), log), r.m.log[k].state;
    EventAllowed(top, r.m.log, k);
    assert d.status != New;
    if d.status == Running {
      StartAllowed(top, log);
      TopEntry(Ever(log), top, m.s);
      GoingCut(env, top, m, k, d, log');
    } else {
      GoingUndone(env, top, m, k, d, log');
    }
  }

  // ---------- any number of crashes ----------

  /** Runs of twin states are twins again, whatever happened before. */
  lemma RunTwins(env: Env, top: seq<Step>, s: RunState, log: Log, s': RunState, log': Log)
    requires Steady(env) && InTime(env, top) && Valid(top) && Twin(env, s, s') && Loadable(s)
    ensures Loadable(s') && Twin(env, Run(env, top, s, log).m.s, Run(env, top, s', log').m.s)
    ensures Paired(Calls(log), Calls(log'), Run(env, top, s, log).m.log, Run(env, top, s', log').m.log)
    ensures Run(env, top, s', log').err == Run(env, top, s, log).err
  {
    hide Valid, Run, Calls, Paired, CompensateFrom, ExecSteps, InTime;
    RunStarts(env, top, s, log);
    RunStarts(env, top, s', log');
    if s.IsTerminal() {
      BothPaired(log, log');
    } else {
      StartedCalls(s, log);
      StartedCalls(s', log');
      var m, m' := Started(s, log), Started(s', log');
      var p := Pair(env, Calls(m.log), Calls(m'.log), true, true, None);
      assert Twins(p, m, m') by { BothPaired(m.log, m'.log); StartedTwins(p, s, log, s', log'); }
      if s.status == Compensating {
        RunBackward(env, top, s, log);
        RunBackward(env, top, s', log');
        CompensateTwins(p, top, m, m', m.s.compensationIndex);
      } else {
        RunForward(env, top, s, log);
        RunForward(env, top, s', log');
        var cp, i := m.s.currentPath, StartOf(top, m.s);
        StepsTwins(p, top, top, i, [], m, m', cp, cp, true);
        CompletedTwins(p, ExecScope(env, top, top, i, [], m), ExecScope(env, top, top, i, [], m'));
      }
    }
  }

  lemma StartedTwins(p: Pair, s: RunState, log: Log, s': RunState, log': Log)
    requires Twin(p.env, s, s')
    ensures Twin(p.env, Started(s, log).s, Started(s', log').s)
  {
    var m, m' := Started(s, log), Started(s', log');
    assert forall q :: RepeatAt(m.s, q) == RepeatAt(s, q) && RepeatAt(m'.s, q) == RepeatAt(s', q);
  }

  lemma BothPaired(log: Log, log': Log)
    ensures Paired(Calls(log), Calls(log'), log, log')
  {
  }

  /** The history of n runs that nothing interrupts. */
  ghost function Straight(env: Env, top: seq<Step>, n: nat): Log
    decreases n
  {
    if n == 0 then []
    else
      var before := Straight(env, top, n - 1);
      if Loadable(Durable(before)) then Run(env, top, Durable(before), before).m.log else before
  }

  lemma {:induction false} StraightReachable(env: Env, top: seq<Step>, n: nat)
    requires Valid(top)
    ensures Reachable(env, top, Straight(env, top, n), n)
    ensures LogGood(top, Straight(env, top, n)) && Loadable(Durable(Straight(env, top, n)))
    decreases n
  {
    hide LogGood, Valid, Run;
    if n > 0 {
      var before := Straight(env, top, n - 1);
      StraightReachable(env, top, n - 1);
      RunGood(env, top, before);
      assert RunsTo(env, top, before, Straight(env, top, n));
    }
    HistoryGood(env, top, Straight(env, top, n), n);
    LoadableDurable(top, Straight(env, top, n));
  }

  lemma {:induction false} LastSaved(log: Log, from: nat)
    requires from <= |log|
    ensures Durable(log) == Durable(log[..from])
         || exists k :: from <= k < |log| && log[k].Saved? && Durable(log) == log[k].state
    decreases |log|
  {
    if from < |log| {
      if log[|log| - 1].Saved? {
        assert Durable(log) == log[|log| - 1].state;
      } else {
        LastSaved(log[..|log| - 1], from);
        assert log[..|log| - 1][..from] == log[..from];
      }
    } else {
      assert log[..from] == log;
    }
  }

  /** Finishing this history with one run ends where n + 1 uninterrupted runs end. */
  ghost predicate Catches(env: Env, top: seq<Step>, log: Log, n: nat) {
    && Loadable(Durable(log))
    && Twin(env, Durable(Straight(env, top, n + 1)), Run(env, top, Durable(log), log).m.s)
  }

  /**
   * Crashes never change where a workflow gets to: however often it crashed, and wherever, its next
   * complete run ends in a state that some number of uninterrupted runs ends in as well.
   */
  lemma {:induction false} CrashesConverge(env: Env, top: seq<Step>, log: Log, crashes: nat)
    requires Valid(top) && Steady(env) && InTime(env, top) && Reachable(env, top, log, crashes)
    ensures exists n: nat :: Catches(env, top, log, n)
    decreases crashes
  {
    hide LogGood, Valid, Run, InTime, Twin;
    HistoryGood(env, top, log, crashes);
    LoadableDurable(top, log);
    if crashes == 0 {
      assert Clocked(env, Durable([]));
      SteadyEnds(env, top, []);
      StraightClocked(env, top, 1);
      TwinSelf(env, Durable(Straight(env, top, 1)));
      assert Straight(env, top, 0) == [];
      assert Catches(env, top, log, 0);
    } else {
      var before :| Reachable(env, top, before, crashes - 1) && RunsTo(env, top, before, log);
      CrashesConverge(env, top, before, crashes - 1);
      var n: nat :| Catches(env, top, before, n);
      CrashOnce(env, top, before, log, crashes - 1, n);
    }
  }

  lemma TwinSelf(env: Env, s: RunState)
    requires Clocked(env, s)
    ensures Twin(env, s, s)
  {
  }

  lemma TwinTransitive(env: Env, a: RunState, b: RunState, c: RunState)
    requires Twin(env, a, b) && Twin(env, b, c)
    ensures Twin(env, a, c)
  {
  }

  /** One more crash: the next run goes where the crashed one was going, or one run further. */
  lemma CrashOnce(env: Env, top: seq<Step>, before: Log, log: Log, crashes: nat, n: nat)
    requires Valid(top) && Steady(env) && InTime(env, top)
    requires Reachable(env, top, before, crashes) && RunsTo(env, top, before, log)
    requires Catches(env, top, before, n) && Loadable(Durable(log))
    ensures Catches(env, top, log, n) || Catches(env, top, log, n + 1)
  {
    hide LogGood, Valid, Run, InTime, Twin, Straight, Clocked, Reachable, RunsTo, History, Calls, Paired;
    var r := Run(env, top, Durable(before), before);
    var end := Durable(Straight(env, top, n + 1));
    HistoryGood(env, top, before, crashes);
    CrashedClocked(env, top, before, log, crashes);
    SteadyEnds(env, top, before);
    LastSaved(log, |before|);
    assert log[..|before|] == before;
    if Durable(log) == Durable(before) {
      TwinSelf(env, Durable(log));
      RunTwins(env, top, Durable(before), before, Durable(log), log);
      TwinTransitive(env, end, r.m.s, Run(env, top, Durable(log), log).m.s);
    } else {
      var k :| |before| <= k < |log| && log[k].Saved? && Durable(log) == log[k].state;
      assert r.m.log[k] == log[k];
      if WentOn(r, k) {
        ResumeIsTransparent(env, top, before, r, k, log);
        TwinTransitive(env, end, r.m.s, Run(env, top, Durable(log), log).m.s);
      } else {
        NextCatches(env, top, log, n);
      }
    }
  }

  /** The crashed run had been saved to its end: the next one goes one run further. */
  lemma NextCatches(env: Env, top: seq<Step>, log: Log, n: nat)
    requires Valid(top) && Steady(env) && InTime(env, top) && Loadable(Durable(log))
    requires Twin(env, Durable(Straight(env, top, n + 1)), Durable(log))
    ensures Catches(env, top, log, n + 1)
  {
    hide LogGood, Valid, Run, InTime, Twin, Straight, Clocked;
    var straight := Straight(env, top, n + 1);
    StraightReachable(env, top, n + 1);
    RunTwins(env, top, Durable(straight), straight, Durable(log), log);
    StraightClocked(env, top, n + 1);
    SteadyEnds(env, top, straight);
    StraightNext(env, top, n + 1);
  }

  lemma CrashedClocked(env: Env, top: seq<Step>, before: Log, log: Log, n: nat)
    requires Valid(top) && Reachable(env, top, before, n) && RunsTo(env, top, before, log)
    ensures Clocked(env, Durable(before)) && Clocked(env, Durable(log)) && History(env, top, before)
    ensures Loadable(Durable(before)) && before <= log <= Run(env, top, Durable(before), before).m.log
  {
    hide Valid, Run, Clocked;
    assert Reachable(env, top, log, n + 1);
    ReachableClocked(env, top, before, n);
    ReachableClocked(env, top, log, n + 1);
  }

  lemma ReachableClocked(env: Env, top: seq<Step>, log: Log, n: nat)
    requires Valid(top) && Reachable(env, top, log, n)
    ensures Clocked(env, Durable(log)) && History(env, top, log)
  {
    hide Valid, Reachable;
    HistorySound(env, top, log, n);
    DurableSound(env, top, log);
  }

  lemma StraightClocked(env: Env, top: seq<Step>, n: nat)
    requires Valid(top)
    ensures Clocked(env, Durable(Straight(env, top, n)))
  {
    hide Valid, Straight;
    StraightReachable(env, top, n);
    ReachableClocked(env, top, Straight(env, top, n), n);
  }

  lemma StraightNext(env: Env, top: seq<Step>, n: nat)
    requires Loadable(Durable(Straight(env, top, n)))
    ensures var log := Straight(env, top, n);
      Straight(env, top, n + 1) == Run(env, top, Durable(log), log).m.log
  {
  }
}
