/**
 * What the executor promises about any history: a good log is every log a valid pipeline can leave
 * behind, whatever its callbacks answer, wherever it crashes and however often it restarts.
 */
module Guarantees {
  import opened Decimal
  import opened Definition
  import opened State
  import opened Executor
  import opened Journal
  import opened Runs

  ghost predicate History(env: Env, top: seq<Step>, log: Log) {
    Valid(top) && exists n: nat :: Reachable(env, top, log, n)
  }

  lemma HistoryIsGood(env: Env, top: seq<Step>, log: Log)
    requires History(env, top, log)
    ensures LogGood(top, log)
  {
    var n: nat :| Reachable(env, top, log, n);
    HistoryGood(env, top, log, n);
  }

  /** What was durable at j is still known at any later k. */
  lemma EverAt(log: Log, j: nat, k: nat)
    requires j < k <= |log| && log[j].Saved?
    ensures Marks(log[j].state) <= Ever(log[..k])
  {
    assert log[..j + 1][..j] == log[..j];
    EverMonotone(log[..k], j + 1);
    assert log[..k][..j + 1] == log[..j + 1];
  }

  // ---------- nothing durably done is done again ----------

  /**
   * After a snapshot that records a step as completed, no Do, Check, Decide or Until of that step
   * is ever called again - not even after compaction dropped the record.
   */
  lemma DoneOnce(env: Env, top: seq<Step>, log: Log, j: nat, k: nat)
    requires History(env, top, log) && j < k < |log|
    requires log[j].Saved? && log[k].Called? && !log[k].call.Compensate?
    ensures !IsCompleted(log[j].state, log[k].call.path)
  {
    HistoryIsGood(env, top, log);
    EventAllowed(top, log, k);
    EverAt(log, j, k);
    assert IsCompleted(log[j].state, log[k].call.path) ==> Marked(log[j].state, log[k].call.path);
  }

  /** No durable state lists the same path twice, and every entry names a real step correctly. */
  lemma JournalSound(env: Env, top: seq<Step>, log: Log, k: nat)
    requires History(env, top, log) && k < |log| && log[k].Saved?
    ensures var cs := log[k].state.completedSteps;
      && (forall a, b :: 0 <= a < b < |cs| ==> cs[a].path != cs[b].path)
      && (forall a :: 0 <= a < |cs| ==>
            FindStep(top, cs[a].path).Some?
            && (cs[a].hasCompensator <==> Compensable(FindStep(top, cs[a].path).value)))
  {
    HistoryIsGood(env, top, log);
    EventAllowed(top, log, k);
    var cs := log[k].state.completedSteps;
    forall a | 0 <= a < |cs| ensures EntryOK(top, cs[a]) {}
  }

  /** Every call names, by its path, a step of the matching kind in the definition. */
  lemma CallsFindTheirStep(env: Env, top: seq<Step>, log: Log, k: nat)
    requires History(env, top, log) && k < |log| && log[k].Called?
    ensures FindStep(top, log[k].call.path).Some?
    ensures RightKind(log[k].call, FindStep(top, log[k].call.path).value)
  {
    HistoryIsGood(env, top, log);
    EventAllowed(top, log, k);
  }

  // ---------- at most one step ahead of the store ----------

  lemma {:induction false} AheadSince(log: Log, path: Path, j: nat)
    requires Ahead(log, path) && j < |log|
    requires log[j].Called? && log[j].call.path != path
    ensures exists i :: j < i < |log| && log[i].Saved?
  {
    var last := |log| - 1;
    if !log[last].Saved? {
      assert j < last;
      AheadSince(log[..last], path, j);
      var i :| j < i < last && log[..last][i].Saved?;
      assert log[i].Saved?;
    }
  }

  /** Between calls of different steps there is always a successful snapshot. */
  lemma OneStepAhead(env: Env, top: seq<Step>, log: Log, j: nat, k: nat)
    requires History(env, top, log) && j < k < |log|
    requires log[j].Called? && log[k].Called? && log[j].call.path != log[k].call.path
    ensures exists i :: j < i < k && log[i].Saved?
  {
    HistoryIsGood(env, top, log);
    EventAllowed(top, log, k);
    AheadSince(log[..k], log[k].call.path, j);
    var i :| j < i < |log[..k]| && log[..k][i].Saved?;
    assert log[i].Saved?;
  }

  lemma {:induction false} AheadRefused(log: Log, path: Path, j: nat)
    requires Ahead(log, path) && j < |log| && log[j].Refused?
    ensures exists i :: j < i < |log| && log[i].Saved?
  {
    var last := |log| - 1;
    if !log[last].Saved? {
      assert j < last;
      AheadRefused(log[..last], path, j);
      var i :| j < i < last && log[..last][i].Saved?;
      assert log[i].Saved?;
    }
  }

  /** After a refused snapshot nothing is called until some later run saved a state. */
  lemma NothingAfterRefusal(env: Env, top: seq<Step>, log: Log, j: nat, k: nat)
    requires History(env, top, log) && j < k < |log|
    requires log[j].Refused? && log[k].Called?
    ensures exists i :: j < i < k && log[i].Saved?
  {
    HistoryIsGood(env, top, log);
    EventAllowed(top, log, k);
    AheadRefused(log[..k], log[k].call.path, j);
    var i :| j < i < |log[..k]| && log[..k][i].Saved?;
    assert log[i].Saved?;
  }

  // ---------- revisions ----------

  function Saves(log: Log): nat {
    if log == [] then 0 else Saves(log[..|log| - 1]) + if log[|log| - 1].Saved? then 1 else 0
  }

  lemma {:induction false} RevisionCounts(top: seq<Step>, log: Log)
    requires LogGood(top, log)
    ensures Durable(log).revision == Saves(log)
  {
    if log != [] {
      RevisionCounts(top, log[..|log| - 1]);
    }
  }

  /** The durable revision is the number of successful snapshots, over all restarts. */
  lemma RevisionIsSaves(env: Env, top: seq<Step>, log: Log)
    requires History(env, top, log)
    ensures Durable(log).revision == Saves(log)
  {
    HistoryIsGood(env, top, log);
    RevisionCounts(top, log);
  }

  /**
   * The state Run returns is the last durable one, unless it was cancelled or a snapshot was
   * refused; without an error the run is Completed or Failed.
   */
  lemma ReturnedIsSaved(env: Env, top: seq<Step>, log: Log)
    requires History(env, top, log)
    ensures Loadable(Durable(log))
    ensures var r := Run(env, top, Durable(log), log);
      && (r.err != Cancelled && r.err != SnapshotFailed ==> r.m.s == Durable(r.m.log))
      && (r.err == NoError ==> r.m.s.status == Completed || r.m.s.status == Failed)
      && (r.err == Cancelled ==> env.cancelled(r.m.log))
      && r.err != InvalidDefinition && r.err != Unusable
  {
    hide Run, LogGood;
    HistoryIsGood(env, top, log);
    RunGood(env, top, log);
  }

  // ---------- rollback ----------

  lemma {:induction false} UndoMember(cs: seq<CompletedStep>, p: Path)
    ensures p in Undo(cs) <==> exists i :: 0 <= i < |cs| && cs[i].hasCompensator && cs[i].path == p
  {
    if cs != [] {
      var rest, last := cs[..|cs| - 1], cs[|cs| - 1];
      UndoMember(rest, p);
      if exists i :: 0 <= i < |cs| && cs[i].hasCompensator && cs[i].path == p {
        var i :| 0 <= i < |cs| && cs[i].hasCompensator && cs[i].path == p;
        if i < |rest| { assert rest[i] == cs[i]; }
      }
      if p in Undo(rest) {
        var i :| 0 <= i < |rest| && rest[i].hasCompensator && rest[i].path == p;
        assert cs[i] == rest[i];
      }
    }
  }

  predicate Distinct(ps: seq<Path>) {
    forall a, b :: 0 <= a < b < |ps| ==> ps[a] != ps[b]
  }

  lemma {:induction false} UndoDistinct(top: seq<Step>, cs: seq<CompletedStep>)
    requires JournalOK(top, cs)
    ensures Distinct(Undo(cs))
  {
    if cs != [] {
      var rest, last := cs[..|cs| - 1], cs[|cs| - 1];
      UndoDistinct(top, rest);
      UndoMember(rest, last.path);
      if last.hasCompensator {
        forall b | 0 <= b < |Undo(rest)| ensures Undo(rest)[b] != last.path {
          assert Undo(rest)[b] in Undo(rest);
        }
      }
    }
  }

  /**
   * When a run has failed, the compensations whose success was made durable - over all restarts -
   * are exactly the compensated entries of the journal, latest first, each once.
   */
  lemma RollbackExact(env: Env, top: seq<Step>, log: Log)
    requires History(env, top, log) && Durable(log).status == Failed
    ensures Recorded(log) == Undo(Durable(log).completedSteps)
    ensures Distinct(Recorded(log))
  {
    HistoryIsGood(env, top, log);
    DurableOK(top, log);
    assert Recorded(log) + [] == Recorded(log);
    UndoDistinct(top, Durable(log).completedSteps);
  }

  /** During rollback the recorded compensations and the pending ones make up the whole of it. */
  lemma RollbackPartial(env: Env, top: seq<Step>, log: Log)
    requires History(env, top, log) && Durable(log).status == Compensating
    ensures Recorded(log) + Pending(Durable(log)) == Undo(Durable(log).completedSteps)
  {
    HistoryIsGood(env, top, log);
    DurableOK(top, log);
  }

  /**
   * A compensator is called only as the next pending one, so never once its success was recorded:
   * it can repeat after succeeding only if the snapshot after that success was not saved.
   */
  lemma CompensatedOnce(env: Env, top: seq<Step>, log: Log, k: nat)
    requires History(env, top, log) && k < |log| && log[k].Called? && log[k].call.Compensate?
    ensures Durable(log[..k]).status == Compensating
    ensures Pending(Durable(log[..k])) != [] && Pending(Durable(log[..k]))[0] == log[k].call.path
    ensures log[k].call.path !in Recorded(log[..k])
  {
    HistoryIsGood(env, top, log);
    EventAllowed(top, log, k);
    var before := log[..k];
    var d := Durable(before);
    DurableOK(top, before);
    UndoDistinct(top, d.completedSteps);
    var whole := Recorded(before) + Pending(d);
    forall a | 0 <= a < |Recorded(before)| ensures Recorded(before)[a] != log[k].call.path {
      assert whole[a] != whole[|Recorded(before)|];
    }
  }

  /** The compensator of p succeeded at k, and the next event made that durable. */
  predicate Compensated(log: Log, k: nat, p: Path) {
    && k + 1 < |log| && log[k].Called? && log[k].call == Compensate(p) && log[k].reply.Ok? && log[k + 1].Saved?
    && p in Recorded(log[..k + 2])
  }

  lemma {:induction false} RecordedAt(log: Log, p: Path)
    requires p in Recorded(log)
    ensures exists k: nat :: Compensated(log, k, p)
  {
    var before := log[..|log| - 1];
    if p in Recorded(before) {
      RecordedAt(before, p);
      var k: nat :| Compensated(before, k, p);
      assert log[..k + 2] == before[..k + 2];
      assert Compensated(log, k, p);
    } else {
      assert log[|before| - 1] == before[|before| - 1];
      assert log[..|log|] == log;
      assert Compensated(log, |log| - 2, p);
    }
  }

  lemma {:induction false} RecordedStays(log: Log, a: nat, b: nat, p: Path)
    requires a <= b <= |log| && p in Recorded(log[..a])
    ensures p in Recorded(log[..b])
    decreases b
  {
    if a < b {
      RecordedStays(log, a, b - 1, p);
      assert log[..b][..b - 1] == log[..b - 1];
    }
  }

  /**
   * Each recorded compensation was one successful call of that compensator, made durable at once, and
   * in the whole rest of the history that compensator is not called again.
   */
  lemma RecordedWasCalled(env: Env, top: seq<Step>, log: Log, p: Path)
    requires History(env, top, log) && p in Recorded(log)
    ensures exists k: nat :: Compensated(log, k, p)
              && forall j :: k + 1 < j < |log| && log[j].Called? ==> log[j].call != Compensate(p)
  {
    RecordedAt(log, p);
    var k: nat :| Compensated(log, k, p);
    forall j | k + 1 < j < |log| && log[j].Called? ensures log[j].call != Compensate(p) {
      if log[j].call == Compensate(p) {
        CompensatedOnce(env, top, log, j);
        RecordedStays(log, k + 2, j, p);
      }
    }
  }

  lemma {:induction false} DurableFrozen(top: seq<Step>, log: Log, j: nat, k: nat)
    requires LogGood(top, log) && j < k <= |log| && log[j].Saved?
    requires log[j].state.status == Compensating || log[j].state.status == Failed
    ensures Durable(log[..k]).status == Compensating || Durable(log[..k]).status == Failed
    ensures Durable(log[..k]).completedSteps == log[j].state.completedSteps
    decreases k
  {
    assert log[..k][..k - 1] == log[..k - 1];
    if k > j + 1 {
      DurableFrozen(top, log, j, k - 1);
      EventAllowed(top, log, k - 1);
    }
  }

  /** Compensation is entered once: from then on no forward call is made and the journal is fixed. */
  lemma CompensationIsFinal(env: Env, top: seq<Step>, log: Log, j: nat, k: nat)
    requires History(env, top, log) && j < k < |log| && log[j].Saved?
    requires log[j].state.status == Compensating || log[j].state.status == Failed
    ensures log[k].Called? ==> log[k].call.Compensate?
    ensures log[k].Saved? ==>
      && (log[k].state.status == Compensating || log[k].state.status == Failed)
      && log[k].state.completedSteps == log[j].state.completedSteps
  {
    HistoryIsGood(env, top, log);
    EventAllowed(top, log, k);
    DurableFrozen(top, log, j, k);
  }

  // ---------- repeats ----------

  lemma {:induction false} DurableSaved(log: Log, k: nat)
    requires k <= |log| && Durable(log[..k]) != INITIAL
    ensures exists j :: 0 <= j < k && log[j].Saved? && log[j].state == Durable(log[..k])
    decreases k
  {
    assert k > 0;
    assert log[..k][..k - 1] == log[..k - 1];
    if !log[k - 1].Saved? {
      DurableSaved(log, k - 1);
    }
  }

  /** Until is asked about the durable iteration, which stays below a positive limit. */
  lemma UntilBounded(env: Env, top: seq<Step>, log: Log, k: nat)
    requires History(env, top, log) && k < |log| && log[k].Called? && log[k].call.Until?
    ensures log[k].call.iteration == RepeatAt(Durable(log[..k]), log[k].call.path).iteration
    ensures var f := FindStep(top, log[k].call.path);
      && f.Some? && f.value.kind.Repeat?
      && (f.value.kind.maxIterations > 0 ==> log[k].call.iteration < f.value.kind.maxIterations)
  {
    HistoryIsGood(env, top, log);
    EventAllowed(top, log, k);
  }

  /** An iteration finished in a durable state is never forgotten. */
  lemma IterationMarked(log: Log, j: nat, k: nat, path: Path, n: nat)
    requires j <= k <= |log| && n < RepeatAt(Durable(log[..j]), path).iteration
    ensures path + [Itoa(n)] in Ever(log[..k])
  {
    DurableSaved(log, j);
    var i :| 0 <= i < j && log[i].Saved? && log[i].state == Durable(log[..j]);
    EverAt(log, i, k);
    var mark := path + [Itoa(n)];
    assert mark[..|mark| - 1] == path;
    assert Marked(log[i].state, mark);
  }

  /** Over a whole history the iteration Until is asked about never falls. */
  lemma UntilNeverFalls(env: Env, top: seq<Step>, log: Log, j: nat, k: nat)
    requires History(env, top, log) && j < k < |log|
    requires log[j].Called? && log[j].call.Until? && log[k].Called? && log[k].call.Until?
    requires log[j].call.path == log[k].call.path
    ensures log[j].call.iteration <= log[k].call.iteration
  {
    HistoryIsGood(env, top, log);
    EventAllowed(top, log, k);
    EventAllowed(top, log, j);
    if log[k].call.iteration < log[j].call.iteration {
      IterationMarked(log, j, k, log[k].call.path, log[k].call.iteration);
    }
  }

  /**
   * From one durable state to the next an iteration number stays or rises by one, and rises only
   * right after a not-done answer for it; the clock of a repeat is kept until it completes.
   */
  lemma RepeatProgress(env: Env, top: seq<Step>, log: Log, k: nat, p: Path)
    requires History(env, top, log) && k < |log| && log[k].Saved?
    requires log[k].state.status == Running || log[k].state.status == Polling
    requires p in log[k].state.repeatStates
    ensures var was, now := RepeatAt(Durable(log[..k]), p), log[k].state.repeatStates[p];
      && (now.iteration == was.iteration
          || (&& now.iteration == was.iteration + 1
              && k > 0 && log[k - 1].Called? && log[k - 1].call == Until(p, was.iteration)
              && log[k - 1].reply.Ok? && !log[k - 1].reply.done))
      && (was.startedAt.Some? && !now.completed ==> now.startedAt == was.startedAt)
  {
    HistoryIsGood(env, top, log);
    EventAllowed(top, log, k);
    assert RepeatStep(top, Durable(log[..k]), log[k].state, log[..k], p);
  }
}
