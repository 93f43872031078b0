/** Runs and histories keep to the script: every event, the data store, and the error at the end. */
module Staging {
  import opened Options
  import opened Definition
  import opened State
  import opened Executor
  import opened Journal
  import opened Runs
  import opened Guarantees
  import opened Records
  import opened NextCalls
  import opened Effects
  import opened Courses
  import opened Lifecycle
  import opened Script
  import opened Plays

  /** No timeout has been noted before a rollback. */
  predicate Calm(s: RunState) {
    s.status != Compensating && s.status != Failed ==> s.repeatTimeout.None?
  }

  // ---------- a run ----------

  lemma NothingYet(c: Course, log: Log)
    requires c.from == |log|
    ensures Scripted(c, log) && log[..c.from] == log && Verdict(c, log) == Cancelled
  {
  }

  /** The first snapshot of a run is that of the state it was started from. */
  lemma Opens(env: Env, top: seq<Step>, log: Log)
    requires !Durable(log).IsTerminal() && !env.cancelled(log)
    ensures var c, d := Course(env, top, |log|), Durable(log);
      var s := if d.status == Compensating then d else d.(status := Running);
      Scripted(c, log) && log[..c.from] == log && May(c, log, Offer(Machine(s, d.data, log)))
  {
    NothingYet(Course(env, top, |log|), log);
  }

  lemma StartRests(env: Env, top: seq<Step>, log: Log)
    requires !Durable(log).IsTerminal() && Durable(log).status != Compensating && !env.cancelled(log) && Calm(Durable(log))
    ensures var c, d := Course(env, top, |log|), Durable(log);
      var r := SnapshotData(env, Machine(d.(status := Running), d.data, log));
      && Scripted(c, r.m.log) && Onward(c, r.m.log) && |log| < |r.m.log|
      && if r.err == NoError then Resting(c, r.m) else Concludes(c, r)
  {
    hide Scripted, DataNow, May, SnapshotData;
    var c, d := Course(env, top, |log|), Durable(log);
    var m := Machine(d.(status := Running), d.data, log);
    Opens(env, top, log);
    Offers(c, m);
    StartData(c, log);
    OnwardSame(c, log, SnapshotData(env, m).m.log);
  }

  lemma StartData(c: Course, log: Log)
    requires c.from == |log|
    ensures DataNow(c, log) == Durable(log).data && Durable(log[..c.from]) == Durable(log)
  {
    assert log[..c.from] == log;
  }

  lemma ForwardPlays(env: Env, top: seq<Step>, log: Log)
    requires Valid(top) && LogGood(top, log) && Sound(env, top, Durable(log)) && Loadable(Durable(log)) && Calm(Durable(log))
    requires !Durable(log).IsTerminal() && Durable(log).status != Compensating && !env.cancelled(log)
    ensures var c, r := Course(env, top, |log|), Run(env, top, Durable(log), log);
      Scripted(c, r.m.log) && |log| < |r.m.log| && Concludes(c, r)
  {
    hide LogGood, Valid, Sound, Chronicle, Run, AtScope, SnapshotData, Scripted, DataNow, Resting, Concludes, ExecSteps, Ended, Onward,
         ScopePlays, Going;
    var c, d := Course(env, top, |log|), Durable(log);
    StartAtScope(env, top, log);
    StartRests(env, top, log);
    RunGoing(env, top, d, log);
    var r := SnapshotData(env, Machine(d.(status := Running), d.data, log));
    if r.err == NoError {
      GoingPlays(c, r.m);
      ScriptedFrom(c, Going(env, top, r.m).m.log);
    }
  }

  /** With no call left the run completes. */
  lemma CompletePlays(c: Course, m: Machine)
    requires Carried(c, m) && Resting(c, m) && NextOfScope(c.top, [], m.s) == None
    ensures var r := SnapshotData(c.env, m.(s := m.s.(status := Completed)));
      Scripted(c, r.m.log) && |m.log| < |r.m.log| && Concludes(c, r)
  {
    hide Chronicle, Sound, Remembers, Linked, Scripted, NextOfScope, Stays, DataNow, SnapshotData, Tracks;
    var t := m.(s := m.s.(status := Completed));
    CarriedStays(c, m);
    StaysSame(c.top, Durable(m.log), m.s, Offer(t));
    assert May(c, m.log, Offer(t));
    Offers(c, t);
    OfferGrows(c.env, t);
  }

  lemma OfferGrows(env: Env, m: Machine)
    ensures |SnapshotData(env, m).m.log| == |m.log| + 1
  {
  }

  lemma GoingPlays(c: Course, m: Machine)
    requires AtScope(c, c.top, StartOf(c.top, m.s), [], m, m.s.currentPath, true) && Resting(c, m)
    ensures var r := Going(c.env, c.top, m); Scripted(c, r.m.log) && c.from < |r.m.log| && Concludes(c, r)
  {
    hide Sound, Chronicle, Linked, Leads, Around, ExecSteps, SnapshotData, Unmoved, Halfway, NextOfScope,
         AtScope, Scripted, DataNow, Concludes;
    var i, cp := StartOf(c.top, m.s), m.s.currentPath;
    NothingAround(c, m.log);
    StepsEnd(c, c.top, i, [], m, cp, true);
    StepsPlay(c, c.top, i, [], m, cp, true);
    var e := ExecScope(c.env, c.top, c.top, i, [], m);
    if e.err == NoError && e.m.s.status == Running {
      CompletePlays(c, e.m);
    }
  }

  lemma NothingAround(c: Course, log: Log)
    ensures Admitted(c, log, [])
  {
  }

  lemma BackwardPlays(env: Env, top: seq<Step>, log: Log)
    requires Valid(top) && LogGood(top, log) && Sound(env, top, Durable(log)) && Loadable(Durable(log))
    requires Durable(log).status == Compensating && !env.cancelled(log)
    ensures var c, r := Course(env, top, |log|), Run(env, top, Durable(log), log);
      Scripted(c, r.m.log) && |log| < |r.m.log| && Concludes(c, r)
  {
    hide LogGood, Valid, Sound, Chronicle, CompensateFrom, SnapshotData, Scripted, DataNow, May, Remembers, Undoing, Rolling;
    var c, d := Course(env, top, |log|), Durable(log);
    var m := Machine(d, d.data, log);
    Opens(env, top, log);
    Offers(c, m);
    StartData(c, log);
    var r := SnapshotData(env, m);
    if r.err == NoError {
      BackwardUndoing(env, top, log);
      BackwardRolls(c, r.m, log);
      CompensatePlays(c, r.m, r.m.s.compensationIndex);
    }
  }

  lemma BackwardRolls(c: Course, m: Machine, log: Log)
    requires LogGood(c.top, log) && Durable(log).status == Compensating && |m.log| == c.from + 1
    requires Undoing(c, m) && Scripted(c, m.log) && m.log == log + [Saved(m.s)] && Durable(m.log) == m.s
    requires m.data == DataNow(c, m.log)
    requires m.s.compensationIndex == Durable(log).compensationIndex && m.s.completedSteps == Durable(log).completedSteps
    ensures Rolling(c, m)
  {
    hide LogGood, Undoing, Scripted, DataNow, RollbackOK, JournalOK, TopPos;
    UndoingStatus(c, m);
    DurableOK(c.top, log);
  }

  lemma UndoingStatus(c: Course, m: Machine)
    requires Undoing(c, m)
    ensures m.s.status == Compensating
  {
  }

  /**
   * Each run, from the state that any history left behind, keeps to the script from its first event
   * to its last, and the error it returns can be read off its log.
   */
  lemma RunPlays(env: Env, top: seq<Step>, log: Log)
    requires Valid(top) && LogGood(top, log) && Sound(env, top, Durable(log)) && Loadable(Durable(log)) && Calm(Durable(log))
    ensures var c, r := Course(env, top, |log|), Run(env, top, Durable(log), log);
      && Scripted(c, r.m.log)
      && if r.m.log != log then |log| < |r.m.log| && Concludes(c, r)
         else if Durable(log).IsTerminal() then r.err == NoError
         else r.err == Cancelled && env.cancelled(log)
  {
    hide LogGood, Valid, Sound, Scripted, Concludes, SnapshotData, CompensateFrom, ExecScope;
    NothingYet(Course(env, top, |log|), log);
    if !Durable(log).IsTerminal() && !env.cancelled(log) {
      if Durable(log).status == Compensating {
        BackwardPlays(env, top, log);
      } else {
        ForwardPlays(env, top, log);
      }
    }
  }

  /** A definition that is not valid is refused before anything is called or saved. */
  lemma InvalidRunsNothing(env: Env, top: seq<Step>, s: RunState, log: Log)
    requires Loadable(s) && !Valid(top)
    ensures Run(env, top, s, log) == Result(Machine(s, s.data, log), InvalidDefinition)
  {
  }

  // ---------- histories ----------

  ghost predicate AllCalm(log: Log) {
    forall k :: 0 <= k <= |log| ==> Calm(Durable(log[..k]))
  }

  /** The next event leaves the durable state calm. */
  lemma CalmNext(c: Course, log: Log, e: Event)
    requires Calm(Durable(log)) && Lines(c, log, e) && Allowed(c.top, log, e) && LogGood(c.top, log)
    ensures Calm(Durable(log + [e]))
  {
    hide LogGood, DataNow, Agrees, ByCall, NextCall, RollbackOK, TopPos, JournalOK, Yielded, Retries;
    Append(log, e);
    DurableOK(c.top, log);
  }

  lemma {:induction false} CalmOn(c: Course, log: Log, k: nat)
    requires Scripted(c, log) && LogGood(c.top, log) && c.from <= k <= |log| && Calm(Durable(log[..c.from]))
    ensures Calm(Durable(log[..k]))
    decreases k
  {
    hide LogGood, Lines, Allowed, Calm;
    if k > c.from {
      CalmOn(c, log, k - 1);
      EventAllowed(c.top, log, k - 1);
      assert log[..k] == log[..k - 1] + [log[k - 1]];
      CalmNext(c, log[..k - 1], log[k - 1]);
    }
  }

  /** Each durable state of a run is calm. */
  lemma RunCalm(env: Env, top: seq<Step>, before: Log, k: nat)
    requires Valid(top) && LogGood(top, before) && Sound(env, top, Durable(before)) && Loadable(Durable(before))
    requires Calm(Durable(before))
    ensures var whole := Run(env, top, Durable(before), before).m.log;
      |before| <= k <= |whole| ==> Calm(Durable(whole[..k]))
  {
    hide Valid, Run, LogGood, Sound, Scripted, Concludes, Calm;
    RunPlays(env, top, before);
    RunGood(env, top, before);
    var whole := Run(env, top, Durable(before), before).m.log;
    assert whole[..|before|] == before;
    if |before| <= k <= |whole| {
      CalmOn(Course(env, top, |before|), whole, k);
    }
  }

  lemma {:induction false} HistoryCalm(env: Env, top: seq<Step>, log: Log, n: nat)
    requires Valid(top) && Reachable(env, top, log, n)
    ensures AllCalm(log)
    decreases n
  {
    hide Valid, Run, LogGood, Sound, Calm, AllSound, Loadable;
    if n > 0 {
      var before :| Reachable(env, top, before, n - 1) && RunsTo(env, top, before, log);
      HistoryCalm(env, top, before, n - 1);
      HistoryGood(env, top, before, n - 1);
      HistorySound(env, top, before, n - 1);
      DurableSound(env, top, before);
      assert before[..|before|] == before;
      var whole := Run(env, top, Durable(before), before).m.log;
      forall k | 0 <= k <= |log| ensures Calm(Durable(log[..k])) {
        assert log[..k] == whole[..k];
        if k < |before| {
          assert before[..k] == log[..k];
        } else {
          RunCalm(env, top, before, k);
        }
      }
    } else {
      CalmInitial(log);
    }
  }

  lemma CalmInitial(log: Log)
    requires log == []
    ensures AllCalm(log)
  {
  }

  /** The same for a run of any history. */
  lemma RunIsScripted(env: Env, top: seq<Step>, log: Log)
    requires History(env, top, log)
    ensures Loadable(Durable(log)) && LogGood(top, log)
    ensures var c, r := Course(env, top, |log|), Run(env, top, Durable(log), log);
      && Scripted(c, r.m.log) && log <= r.m.log && LogGood(top, r.m.log)
      && if r.m.log != log then |log| < |r.m.log| && Concludes(c, r)
         else if Durable(log).IsTerminal() then r.err == NoError
         else r.err == Cancelled && env.cancelled(log)
  {
    hide LogGood, Valid, Run, Sound, Scripted, Concludes, AllSound;
    HistoryIsGood(env, top, log);
    HistoryIsSound(env, top, log);
    var n: nat :| Reachable(env, top, log, n);
    HistoryCalm(env, top, log, n);
    assert log[..|log|] == log;
    RunGood(env, top, log);
    RunPlays(env, top, log);
  }

  lemma {:induction false} RunOf(env: Env, top: seq<Step>, log: Log, n: nat, k: nat) returns (from: nat)
    requires Valid(top) && Reachable(env, top, log, n) && k < |log|
    ensures from <= k && History(env, top, log[..from]) && RunsTo(env, top, log[..from], log[..k + 1])
    decreases n
  {
    hide Valid, Run, Loadable;
    var before :| Reachable(env, top, before, n - 1) && RunsTo(env, top, before, log);
    if k < |before| {
      from := RunOf(env, top, before, n - 1, k);
      assert log[..from] == before[..from] && log[..k + 1] == before[..k + 1];
    } else {
      from := |before|;
      assert log[..from] == before;
    }
  }

  /** Every event of a history belongs to a run of it and keeps to the script of that run. */
  lemma EventPlays(env: Env, top: seq<Step>, log: Log, k: nat) returns (from: nat)
    requires History(env, top, log) && k < |log|
    ensures from <= k && History(env, top, log[..from]) && Lines(Course(env, top, from), log[..k], log[k])
  {
    hide LogGood, Valid, Run, Lines, Concludes;
    var n: nat :| Reachable(env, top, log, n);
    from := RunOf(env, top, log, n, k);
    RunIsScripted(env, top, log[..from]);
    var whole := Run(env, top, Durable(log[..from]), log[..from]).m.log;
    assert log[..k + 1] == whole[..k + 1];
    assert whole[..k] == whole[..k + 1][..k] == log[..k] && whole[k] == whole[..k + 1][k] == log[k];
  }

  /**
   * No update of the data store is lost: every callback is given, and every state offered to the store
   * holds, what the run began with as all callbacks since have left it - failed ones included.
   */
  lemma DataIsKept(env: Env, top: seq<Step>, log: Log, k: nat)
    requires History(env, top, log) && Loadable(Durable(log))
    requires |log| <= k < |Run(env, top, Durable(log), log).m.log|
    ensures var run := Run(env, top, Durable(log), log).m.log; var data := DataNow(Course(env, top, |log|), run[..k]);
      && (run[k].Saved? || run[k].Refused? ==> run[k].state.data == data)
      && (run[k].Called? ==> run[k].reply == env.call(run[..k], run[k].call, data).reply)
  {
    hide Run, History, DataNow, Asks, Concludes, LogGood;
    RunIsScripted(env, top, log);
    var run := Run(env, top, Durable(log), log).m.log;
    assert Lines(Course(env, top, |log|), run[..k], run[k]);
  }
}
