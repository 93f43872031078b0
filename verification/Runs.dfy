/** Whole runs, and histories of runs that each restart from the last durable state. */
module Runs {
  import opened Definition
  import opened State
  import opened Executor
  import opened Journal
  import opened Frames
  import opened Steps
  import opened Repeats
  import opened Rollback
  import opened Scopes

  /**
   * What Run returns is what was saved, unless it was cancelled or the store refused a snapshot;
   * no error means the run is over.
   */
  ghost predicate RunPost(env: Env, top: seq<Step>, log: Log, r: Result) {
    && LogGood(top, r.m.log) && log <= r.m.log
    && match r.err
       case NoError => r.m.s == Durable(r.m.log) && r.m.s.IsTerminal()
       case SnapshotFailed => true
       case Cancelled => env.cancelled(r.m.log)
       case InvalidDefinition => false
       case Unusable => false
       case _ => r.m.s == Durable(r.m.log)
  }

  // ---------- starting ----------

  lemma InitialPos(top: seq<Step>, ever: iset<Path>, s: RunState)
    requires s.currentPath == [] && s.repeatStates == map[] && ever == iset{}
    ensures TopPos(ever, top, s)
  {
  }

  /** A state that differs only in data, status and revision stands where it stood. */
  lemma TopPosSame(top: seq<Step>, ever: iset<Path>, s: RunState, s': RunState)
    requires TopPos(ever, top, s)
    requires s'.currentPath == s.currentPath && s'.completedSteps == s.completedSteps
    requires s'.repeatStates == s.repeatStates
    ensures TopPos(ever, top, s')
  {
    if s.currentPath != [] {
      ScopePosLocal(ever, top, [], s, s');
    }
  }

  /** The state to start from may be saved as running. */
  lemma StartAllowed(top: seq<Step>, log: Log)
    requires LogGood(top, log)
    requires !Durable(log).IsTerminal() && Durable(log).status != Compensating
    ensures var d := Durable(log); var s := d.(status := Running, revision := d.revision + 1);
      && Allowed(top, log, Saved(s)) && Marks(s) <= Ever(log)
      && TopPos(Ever(log), top, s)
  {
    hide LogGood, Allowed;
    DurableOK(top, log);
    var d := Durable(log);
    var s := d.(status := Running, revision := d.revision + 1);
    SameMarks(d, s);
    assert Ever(log) + Marks(s) == Ever(log);
    if d == INITIAL && Ever(log) == iset{} {
      InitialPos(top, Ever(log), s);
    } else {
      TopPosSame(top, Ever(log), d, s);
    }
    ForwardAllowed(top, log, s);
  }

  lemma TopPlug(top: seq<Step>, ever: iset<Path>, s: RunState)
    ensures ScopePlug(top, ever, s, top, [])
  {
  }

  lemma TopLocated(top: seq<Step>)
    ensures Located(top, [], top)
  {
    forall q | q != [] ensures FindStep(top, [] + q) == FindStep(top, q) {
      assert [] + q == q;
    }
  }

  function StartOf(top: seq<Step>, s: RunState): nat {
    if s.currentPath == [] then 0 else StartIndex(top, s.currentPath[0])
  }

  lemma TopReady(top: seq<Step>, m: Machine)
    requires Valid(top) && Ready(top, m) && TopPos(Ever(m.log), top, m.s)
    ensures ScopeReady(top, top, StartOf(top, m.s), [], m, true)
  {
    TopPlug(top, Ever(m.log), m.s);
    TopLocated(top);
  }

  /** The configuration after the first snapshot of a run. */
  lemma StartedReady(env: Env, top: seq<Step>, log: Log)
    requires Valid(top) && LogGood(top, log)
    requires !Durable(log).IsTerminal() && Durable(log).status != Compensating
    ensures var s := Durable(log);
      var r := SnapshotData(env, Machine(s.(status := Running), s.data, log));
      && LogGood(top, r.m.log) && log <= r.m.log
      && (r.err == NoError || r.err == SnapshotFailed)
      && (r.err == NoError ==> ScopeReady(top, top, StartOf(top, r.m.s), [], r.m, true))
  {
    hide Allowed, ScopeReady;
    var d := Durable(log);
    var m := Machine(d.(status := Running), d.data, log);
    StartAllowed(top, log);
    assert Candidate(m) == d.(status := Running, revision := d.revision + 1);
    SaveGood(env, top, m);
    var r := SnapshotData(env, m);
    if r.err == NoError {
      assert Ever(r.m.log) == Ever(log);
      TopReady(top, r.m);
    }
  }

  // ---------- completing ----------

  lemma CompleteAllowed(top: seq<Step>, m: Machine)
    requires Ready(top, m)
    ensures Allowed(top, m.log, Saved(Candidate(m.(s := m.s.(status := Completed)))))
  {
    hide LogGood, TopPos;
    var s := Candidate(m.(s := m.s.(status := Completed)));
    DurableOK(top, m.log);
    Append(m.log, Saved(s));
  }

  /** All steps are done: completion may be saved. */
  lemma CompleteGood(env: Env, top: seq<Step>, m: Machine)
    requires Ready(top, m)
    ensures var r := SnapshotData(env, m.(s := m.s.(status := Completed)));
      && LogGood(top, r.m.log) && m.log <= r.m.log
      && (r.err == NoError || r.err == SnapshotFailed)
      && (r.err == NoError ==> r.m.s == Durable(r.m.log) && r.m.s.IsTerminal())
  {
    hide LogGood, Allowed;
    var m2 := m.(s := m.s.(status := Completed));
    CompleteAllowed(top, m);
    SaveGood(env, top, m2);
  }

  // ---------- resuming a rollback ----------

  /** Saving the same rollback position again records nothing. */
  lemma SamePending(log: Log, s: RunState)
    requires s == Durable(log).(revision := s.revision)
    requires RollbackOK(Recorded(log), Durable(log))
    ensures RollbackOK(Recorded(log + [Saved(s)]), s)
  {
    Append(log, Saved(s));
    assert Pending(s) == Pending(Durable(log));
    assert Records(log, s) == [];
    assert Recorded(log) + [] == Recorded(log);
  }

  lemma ResumeAllowed(top: seq<Step>, log: Log)
    requires LogGood(top, log) && Durable(log).status == Compensating
    ensures var d := Durable(log); var s := d.(revision := d.revision + 1);
      && Allowed(top, log, Saved(s))
      && JournalOK(top, s.completedSteps) && -1 <= s.compensationIndex < |s.completedSteps|
  {
    hide LogGood, RollbackOK;
    var d := Durable(log);
    var s := d.(revision := d.revision + 1);
    DurableOK(top, log);
    SamePending(log, s);
    RollbackAllowed(top, log, s);
  }

  lemma ResumeGood(env: Env, top: seq<Step>, log: Log)
    requires Valid(top) && LogGood(top, log) && Durable(log).status == Compensating
    ensures Loadable(Durable(log))
    ensures RunPost(env, top, log, ResumeCompensation(env, top, Machine(Durable(log), Durable(log).data, log)))
  {
    hide Allowed, LogGood;
    var d := Durable(log);
    var m := Machine(d, d.data, log);
    ResumeAllowed(top, log);
    SaveGood(env, top, m);
    var r := SnapshotData(env, m);
    if r.err == NoError {
      assert Undoing(top, r.m, r.m.s.compensationIndex);
      CompensateGood(env, top, r.m, r.m.s.compensationIndex);
      LogsGrow(log, r.m.log, CompensateFrom(env, top, r.m, r.m.s.compensationIndex).m.log);
    }
  }

  // ---------- a run ----------

  lemma LoadableDurable(top: seq<Step>, log: Log)
    requires LogGood(top, log)
    ensures Loadable(Durable(log))
  {
    DurableOK(top, log);
  }

  lemma ForwardGood(env: Env, top: seq<Step>, log: Log)
    requires Valid(top) && LogGood(top, log)
    requires !Durable(log).IsTerminal() && Durable(log).status != Compensating && !env.cancelled(log)
    requires Loadable(Durable(log))
    ensures RunPost(env, top, log, Run(env, top, Durable(log), log))
  {
    hide LogGood, Valid, Ready, ScopeReady, StepPlug;
    var d := Durable(log);
    StartedReady(env, top, log);
    var r := SnapshotData(env, Machine(d.(status := Running), d.data, log));
    if r.err == NoError {
      var start := StartOf(top, r.m.s);
      ScopeGood(env, top, top, start, [], r.m, r.m.s.currentPath, true);
      var e := ExecScope(env, top, top, start, [], r.m);
      LogsGrow(log, r.m.log, e.m.log);
      if e.err == NoError && e.m.s.status == Running {
        CompleteGood(env, top, e.m);
        LogsGrow(log, e.m.log, SnapshotData(env, e.m.(s := e.m.s.(status := Completed))).m.log);
      }
    }
  }

  /** A run restarted from the last durable state keeps the log good and returns what it saved. */
  lemma RunGood(env: Env, top: seq<Step>, log: Log)
    requires Valid(top) && LogGood(top, log)
    ensures Loadable(Durable(log))
    ensures RunPost(env, top, log, Run(env, top, Durable(log), log))
  {
    hide LogGood, Valid;
    LoadableDurable(top, log);
    var d := Durable(log);
    if !d.IsTerminal() && !env.cancelled(log) {
      if d.status == Compensating {
        ResumeGood(env, top, log);
      } else {
        ForwardGood(env, top, log);
      }
    }
  }

  // ---------- histories ----------

  /**
   * log is what n runs can leave behind: each starts from the last durable state and is cut
   * anywhere - between any two events - by a crash, or runs to its end.
   */
  ghost predicate Reachable(env: Env, top: seq<Step>, log: Log, n: nat)
    decreases n
  {
    if n == 0 then log == []
    else exists before :: Reachable(env, top, before, n - 1) && RunsTo(env, top, before, log)
  }

  ghost predicate RunsTo(env: Env, top: seq<Step>, before: Log, log: Log) {
    Loadable(Durable(before)) && before <= log && log <= Run(env, top, Durable(before), before).m.log
  }

  /** Every history of a valid pipeline, under any environment and any crashes, is good. */
  lemma {:induction false} HistoryGood(env: Env, top: seq<Step>, log: Log, n: nat)
    requires Valid(top) && Reachable(env, top, log, n)
    ensures LogGood(top, log)
    decreases n
  {
    hide Valid, Run, Allowed;
    if n > 0 {
      var before :| Reachable(env, top, before, n - 1) && RunsTo(env, top, before, log);
      HistoryGood(env, top, before, n - 1);
      RunGood(env, top, before);
      var whole := Run(env, top, Durable(before), before).m.log;
      PrefixGood(top, whole, |log|);
      assert whole[..|log|] == log;
    }
  }

  /** A forward run once it is saved as running. */
  function Going(env: Env, top: seq<Step>, m: Machine): Result {
    var e := ExecScope(env, top, top, StartOf(top, m.s), [], m);
    if e.err != NoError || e.m.s.status != Running then e
    else SnapshotData(env, e.m.(s := e.m.s.(status := Completed)))
  }

  /** A forward run is its first snapshot and what follows it. */
  lemma RunGoing(env: Env, top: seq<Step>, s: RunState, log: Log)
    requires Valid(top) && !s.IsTerminal() && s.status != Compensating && !env.cancelled(log)
    ensures var r := SnapshotData(env, Machine(s.(status := Running), s.data, log));
      Run(env, top, s, log) == if r.err != NoError then r else Going(env, top, r.m)
  {
    hide Valid, ExecSteps, ExecScope;
  }
}
