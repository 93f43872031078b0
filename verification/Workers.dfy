/**
 * Any number of workers running one record against a compare-and-swap store, their events
 * interleaved arbitrarily. A worker that stops acting has crashed; one that loads later has been
 * started instead.
 */
module Workers {
  import opened Definition
  import opened State
  import opened Executor
  import opened Journal
  import opened Runs
  import opened FailStop
  import CutRollback
  import Resume

  /** A process that loaded the state base leads to, and has got as far as event done of its run. */
  datatype Worker = Worker(env: Env, base: Log, done: nat)

  /** The record, given by the history that led to it, and all workers started so far. */
  datatype World = World(history: Log, workers: seq<Worker>)

  const EMPTY := World([], [])

  /** Everything the worker does if nothing stops it. */
  ghost function Trace(top: seq<Step>, w: Worker): Log {
    if Loadable(Durable(w.base)) then Run(w.env, top, Durable(w.base), w.base).m.log else w.base
  }

  ghost predicate Underway(top: seq<Step>, w: Worker) {
    LogGood(top, w.base) && |w.base| <= w.done <= |Trace(top, w)|
  }

  /** The last state this worker loaded or saved. */
  ghost function View(top: seq<Step>, w: Worker): RunState
    requires Underway(top, w)
  {
    Durable(Trace(top, w)[..w.done])
  }

  /** The worker saved something itself: it is past the first snapshot of its run. */
  ghost predicate Committed(top: seq<Step>, w: Worker)
    requires Underway(top, w)
  {
    exists k :: |w.base| <= k < w.done && Trace(top, w)[k].Saved?
  }

  // ---------- steps ----------

  ghost predicate Loads(top: seq<Step>, g: World, g': World, env: Env) {
    g' == g.(workers := g.workers + [Worker(env, g.history, |g.history|)])
  }

  /** The store accepts a snapshot exactly when the record still has the revision it is based on. */
  ghost predicate Acts(top: seq<Step>, g: World, g': World, i: nat) {
    && i < |g.workers|
    && var w := g.workers[i];
    && w.done < |Trace(top, w)|
    && var e := Trace(top, w)[w.done];
    && (e.Saved? ==> e.state.revision == Durable(g.history).revision + 1)
    && (e.Refused? ==> e.state.revision != Durable(g.history).revision + 1)
    && g'.workers == g.workers[i := w.(done := w.done + 1)]
    && g'.history == if e.Saved? then Trace(top, w)[..w.done + 1] else g.history
  }

  ghost predicate Next(top: seq<Step>, g: World, g': World) {
    (exists env :: Loads(top, g, g', env)) || (exists i: nat :: Acts(top, g, g', i))
  }

  ghost predicate Execution(top: seq<Step>, worlds: seq<World>) {
    && worlds != [] && worlds[0] == EMPTY
    && forall n :: 0 <= n < |worlds| - 1 ==> Next(top, worlds[n], worlds[n + 1])
  }

  // ---------- the invariant ----------

  ghost predicate Behind(top: seq<Step>, g: World, w: Worker) {
    && Underway(top, w)
    && View(top, w).revision <= Durable(g.history).revision
    && (View(top, w).revision == Durable(g.history).revision ==> View(top, w) == Durable(g.history))
  }

  /** This worker saved the very state the record holds. */
  ghost predicate Holds(top: seq<Step>, g: World, w: Worker)
    requires Underway(top, w)
  {
    Committed(top, w) && View(top, w).revision == Durable(g.history).revision
  }

  ghost predicate Inv(top: seq<Step>, g: World) {
    && LogGood(top, g.history)
    && (forall i :: 0 <= i < |g.workers| ==> Behind(top, g, g.workers[i]))
    && (forall i, j :: 0 <= i < j < |g.workers| ==>
          !(Holds(top, g, g.workers[i]) && Holds(top, g, g.workers[j])))
  }

  lemma TraceGood(top: seq<Step>, w: Worker)
    requires Valid(top) && LogGood(top, w.base)
    ensures LogGood(top, Trace(top, w)) && w.base <= Trace(top, w)
  {
    hide LogGood, Valid, Run;
    RunGood(w.env, top, w.base);
  }

  /** What the next snapshot of a worker is: the successor of what it loaded or saved last. */
  lemma NextSaved(top: seq<Step>, w: Worker)
    requires Valid(top) && Underway(top, w) && w.done < |Trace(top, w)| && Trace(top, w)[w.done].Saved?
    ensures var log := Trace(top, w);
      && LogGood(top, log[..w.done + 1]) && Durable(log[..w.done + 1]) == log[w.done].state
      && Successor(top, View(top, w), log[w.done].state, log[..w.done])
      && log[w.done].state.revision == View(top, w).revision + 1
  {
    hide LogGood, Valid, Trace, StateOK, RollbackOK;
    var log := Trace(top, w);
    TraceGood(top, w);
    PrefixGood(top, log, w.done + 1);
    EventAllowed(top, log, w.done);
    assert log[..w.done + 1] == log[..w.done] + [log[w.done]];
    Append(log[..w.done], log[w.done]);
  }

  lemma SameView(log: Log, done: nat)
    requires done < |log| && !log[done].Saved?
    ensures Durable(log[..done + 1]) == Durable(log[..done])
  {
    assert log[..done + 1] == log[..done] + [log[done]];
    Append(log[..done], log[done]);
  }

  /** An event that is no save changes neither what a worker has seen nor what it has saved. */
  lemma NextOther(top: seq<Step>, w: Worker)
    requires Underway(top, w) && w.done < |Trace(top, w)| && !Trace(top, w)[w.done].Saved?
    ensures Underway(top, w.(done := w.done + 1))
    ensures View(top, w.(done := w.done + 1)) == View(top, w)
    ensures Committed(top, w.(done := w.done + 1)) <==> Committed(top, w)
  {
    hide LogGood, Trace, Durable;
    SameTrace(top, w);
    SameView(Trace(top, w), w.done);
  }

  lemma NewcomerBehind(top: seq<Step>, g: World, env: Env)
    requires Valid(top) && LogGood(top, g.history)
    ensures var w := Worker(env, g.history, |g.history|);
      Behind(top, g, w) && !Committed(top, w)
  {
    hide LogGood, Valid, Run;
    var w := Worker(env, g.history, |g.history|);
    TraceGood(top, w);
    assert Trace(top, w)[..w.done] == g.history;
  }

  lemma LoadsKeeps(top: seq<Step>, g: World, g': World, env: Env)
    requires Valid(top) && Inv(top, g) && Loads(top, g, g', env)
    ensures Inv(top, g')
  {
    hide LogGood, Valid, Trace, View, Committed;
    NewcomerBehind(top, g, env);
    forall i | 0 <= i < |g'.workers| ensures Behind(top, g', g'.workers[i]) {
      if i < |g.workers| { assert Behind(top, g, g.workers[i]); }
    }
  }

  /** A save moves the record one revision on, from exactly the state this worker had seen last. */
  lemma SavesKeeps(top: seq<Step>, g: World, g': World, i: nat)
    requires Valid(top) && Inv(top, g) && Acts(top, g, g', i) && Trace(top, g.workers[i])[g.workers[i].done].Saved?
    ensures Inv(top, g')
    ensures View(top, g.workers[i]) == Durable(g.history)
    ensures Durable(g'.history).revision == Durable(g.history).revision + 1
  {
    hide LogGood, Valid, Trace, Successor;
    var w := g.workers[i];
    var w' := g'.workers[i];
    assert Behind(top, g, w);
    NextSaved(top, w);
    assert Trace(top, w') == Trace(top, w) by { SameTrace(top, w); }
    forall j | 0 <= j < |g'.workers| ensures Behind(top, g', g'.workers[j]) {
      if j != i { assert Behind(top, g, g.workers[j]); }
    }
    forall j | 0 <= j < |g'.workers| && j != i ensures !Holds(top, g', g'.workers[j]) {
      assert Behind(top, g, g.workers[j]);
    }
  }

  lemma SameTrace(top: seq<Step>, w: Worker)
    ensures Trace(top, w.(done := w.done + 1)) == Trace(top, w)
  {
  }

  lemma OthersKeep(top: seq<Step>, g: World, g': World, i: nat)
    requires Valid(top) && Inv(top, g) && Acts(top, g, g', i) && !Trace(top, g.workers[i])[g.workers[i].done].Saved?
    ensures Inv(top, g')
  {
    hide LogGood, Valid, Trace, View, Committed;
    assert Behind(top, g, g.workers[i]);
    NextOther(top, g.workers[i]);
    forall j | 0 <= j < |g'.workers| ensures Behind(top, g', g'.workers[j]) {
      if j != i { assert Behind(top, g, g.workers[j]); }
    }
    forall j, k | 0 <= j < k < |g'.workers| ensures !(Holds(top, g', g'.workers[j]) && Holds(top, g', g'.workers[k])) {
      assert Holds(top, g', g'.workers[j]) ==> Holds(top, g, g.workers[j]);
      assert Holds(top, g', g'.workers[k]) ==> Holds(top, g, g.workers[k]);
    }
  }

  // ---------- every interleaving ----------

  lemma {:induction false} ExecutionInv(top: seq<Step>, worlds: seq<World>, n: nat)
    requires Valid(top) && Execution(top, worlds) && n < |worlds|
    ensures Inv(top, worlds[n])
    decreases n
  {
    hide Valid, LogGood, Inv, Loads, Acts;
    if n == 0 {
      EmptyInv(top);
    } else {
      ExecutionInv(top, worlds, n - 1);
      assert Next(top, worlds[n - 1], worlds[n - 1 + 1]);
      StepKeeps(top, worlds[n - 1], worlds[n]);
    }
  }

  lemma EmptyInv(top: seq<Step>)
    ensures Inv(top, EMPTY)
  {
  }

  lemma StepKeeps(top: seq<Step>, g: World, g': World)
    requires Valid(top) && Inv(top, g) && Next(top, g, g')
    ensures Inv(top, g')
  {
    hide Valid, Inv;
    if env :| Loads(top, g, g', env) {
      LoadsKeeps(top, g, g', env);
    } else {
      var i: nat :| Acts(top, g, g', i);
      if Trace(top, g.workers[i])[g.workers[i].done].Saved? {
        SavesKeeps(top, g, g', i);
      } else {
        OthersKeep(top, g, g', i);
      }
    }
  }

  /**
   * Whenever the record changes, one worker changed it, and what that worker had loaded or saved last
   * is exactly the state the record held before: the revision rises by one, and the new state is what
   * the worker's own run allows next.
   */
  lemma DerivesFromPrevious(top: seq<Step>, worlds: seq<World>, n: nat)
    requires Valid(top) && Execution(top, worlds) && n + 1 < |worlds|
    requires worlds[n + 1].history != worlds[n].history
    ensures var d, d' := Durable(worlds[n].history), Durable(worlds[n + 1].history);
      && d'.revision == d.revision + 1
      && LogGood(top, worlds[n + 1].history)
      && exists i: nat :: Acts(top, worlds[n], worlds[n + 1], i)
           && var w := worlds[n].workers[i];
           && Underway(top, w) && View(top, w) == d
           && Successor(top, d, d', Trace(top, w)[..w.done])
  {
    hide Valid, LogGood, Inv, Successor, Trace;
    var g, g' := worlds[n], worlds[n + 1];
    ExecutionInv(top, worlds, n);
    ExecutionInv(top, worlds, n + 1);
    assert Next(top, g, g');
    var i: nat :| Acts(top, g, g', i);
    SavesKeeps(top, g, g', i);
    assert Underway(top, g.workers[i]) by { WorkerUnderway(top, g, i); }
    NextSaved(top, g.workers[i]);
    HistoryStaysGood(top, g');
  }

  lemma WorkerUnderway(top: seq<Step>, g: World, i: nat)
    requires Inv(top, g) && i < |g.workers|
    ensures Underway(top, g.workers[i])
  {
    assert Behind(top, g, g.workers[i]);
  }

  lemma HistoryStaysGood(top: seq<Step>, g: World)
    requires Inv(top, g)
    ensures LogGood(top, g.history)
  {
  }

  /** At most one worker holds the state the record holds; all others write in vain. */
  lemma OneHolder(top: seq<Step>, worlds: seq<World>, n: nat, i: nat, j: nat)
    requires Valid(top) && Execution(top, worlds) && n < |worlds|
    requires i < |worlds[n].workers| && j < |worlds[n].workers|
    ensures Underway(top, worlds[n].workers[i]) && Underway(top, worlds[n].workers[j])
    ensures Holds(top, worlds[n], worlds[n].workers[i]) && Holds(top, worlds[n], worlds[n].workers[j]) ==> i == j
  {
    hide Valid, LogGood, Trace, View, Committed;
    ExecutionInv(top, worlds, n);
    var g := worlds[n];
    assert Behind(top, g, g.workers[i]) && Behind(top, g, g.workers[j]);
    assert i < j ==> !(Holds(top, g, g.workers[i]) && Holds(top, g, g.workers[j]));
    assert j < i ==> !(Holds(top, g, g.workers[j]) && Holds(top, g, g.workers[i]));
  }

  /** A worker whose view is older than the record cannot save any more. */
  lemma StaleCannotSave(top: seq<Step>, worlds: seq<World>, n: nat, i: nat)
    requires Valid(top) && Execution(top, worlds) && n + 1 < |worlds| && Acts(top, worlds[n], worlds[n + 1], i)
    ensures Underway(top, worlds[n].workers[i])
    ensures View(top, worlds[n].workers[i]).revision < Durable(worlds[n].history).revision
      ==> worlds[n + 1].history == worlds[n].history
  {
    hide Valid, LogGood, Inv, Trace, View;
    ExecutionInv(top, worlds, n);
    WorkerUnderway(top, worlds[n], i);
    if Trace(top, worlds[n].workers[i])[worlds[n].workers[i].done].Saved? {
      NextSaved(top, worlds[n].workers[i]);
    }
  }

  /** A worker whose write is refused does nothing more, and calls nothing. */
  lemma RefusedIsLast(top: seq<Step>, w: Worker)
    requires Underway(top, w) && w.done < |Trace(top, w)| && Trace(top, w)[w.done].Refused?
    ensures w.done + 1 == |Trace(top, w)|
  {
    hide LogGood, Run;
    if Loadable(Durable(w.base)) {
      RunStops(w.env, top, Durable(w.base), w.base);
    }
  }

  /** No worker calls anything before it has committed a revision of its own. */
  lemma CommitsBeforeCalling(top: seq<Step>, w: Worker)
    requires Valid(top) && Underway(top, w) && w.done < |Trace(top, w)| && Trace(top, w)[w.done].Called?
    ensures Committed(top, w)
  {
    hide LogGood, Valid;
    TraceGood(top, w);
    var d := Durable(w.base);
    FirstIsSnapshot(w.env, top, d, w.base);
    assert Trace(top, w)[|w.base|].Saved?;
  }

  lemma FirstIsSnapshot(env: Env, top: seq<Step>, s: RunState, log: Log)
    requires Loadable(s)
    ensures var r := Run(env, top, s, log);
      && log <= r.m.log
      && (|log| < |r.m.log| ==>
            r.m.log[|log|].Saved? || (r.m.log[|log|].Refused? && |r.m.log| == |log| + 1))
  {
    hide Valid, CompensateFrom, ExecSteps;
    RunStops(env, top, s, log);
    CutRollback.StopsGrow(log, Run(env, top, s, log));
    var m := Machine(s, s.data, log);
    if Valid(top) && !s.IsTerminal() && !env.cancelled(log) {
      if s.status == Compensating {
        var r := SnapshotData(env, m);
        if r.err == NoError {
          CutRollback.CompensateGrows(env, top, r.m, r.m.s.compensationIndex);
        }
      } else {
        var r := SnapshotData(env, m.(s := s.(status := Running)));
        if r.err == NoError {
          Resume.GoingGrows(env, top, r.m);
        }
      }
    }
  }
}
