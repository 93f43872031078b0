/**
 * The life of a repeat over a whole history, through every crash: once recorded it stays recorded
 * with its clock until it finishes, every durable not-done answer takes it one iteration further,
 * and a compact one leaves the journal as it found it.
 */
module Lifecycle {
  import opened Definition
  import opened State
  import opened Executor
  import opened Journal
  import opened Scopes
  import opened Runs
  import opened Guarantees
  import opened Places
  import opened Lockstep
  import opened Records
  import opened NextCalls
  import opened Effects
  import opened Courses

  // ---------- runs ----------

  lemma TopAround(top: seq<Step>, s: RunState)
    ensures Around(top, [], s)
  {
  }

  lemma TopLeads(ever: iset<Path>, top: seq<Step>, s: RunState)
    requires TopPos(ever, top, s) && Marks(s) <= ever && OnPath(s)
    ensures Leads(top, top, StartOf(top, s), [], s, s.currentPath, true)
  {
    if s.currentPath == [] {
      LeadsFrom(top, top, [], s);
    } else {
      PosPlacedScope(ever, top, [], s);
      TopAround(top, s);
      LeadsIn(top, top, [], s);
    }
  }

  /** After its first snapshot a forward run is ready to go through the pipeline. */
  lemma StartAtScope(env: Env, top: seq<Step>, log: Log)
    requires Valid(top) && LogGood(top, log) && Sound(env, top, Durable(log))
    requires !Durable(log).IsTerminal() && Durable(log).status != Compensating
    ensures var c, d := Course(env, top, |log|), Durable(log);
      var r := SnapshotData(env, Machine(d.(status := Running), d.data, log));
      && Ended(c, r) && (r.err == NoError || r.err == SnapshotFailed)
      && (r.err == NoError ==>
            Durable(r.m.log) == r.m.s && AtScope(c, top, StartOf(top, r.m.s), [], r.m, r.m.s.currentPath, true))
  {
    hide LogGood, Valid, Sound, Chronicle, TopPos, Entry, Leads, Around, Located, SnapshotData, Tracks, Unmoved, ScopeLifts;
    var c, d := Course(env, top, |log|), Durable(log);
    var m := Machine(d.(status := Running), d.data, log);
    NoEvents(c, log);
    LinkedSelf(d);
    SameSound(env, top, d, d, m.s);
    StartsWorked(top, log, d, m.s);
    SavesData(c, m);
    var r := SnapshotData(env, m);
    if r.err == NoError {
      SavedLast(env, m);
      StartAllowed(top, log);
      TopEntry(Ever(log), top, r.m.s);
      TopAround(top, r.m.s);
      SoundOnPath(env, top, r.m.s);
      TopLeads(Ever(log), top, r.m.s);
      TopLocated(top);
      TopLifts(top);
      ValidTop(top);
    }
  }

  /** The first snapshot of a run is no work, whether the run had been waiting for a poll or is new. */
  lemma StartsWorked(top: seq<Step>, log: Log, d: RunState, s: RunState)
    requires d == Durable(log) && s == d.(status := s.status)
    ensures Worked(top, log, s)
  {
    hide NextCall;
    assert forall q :: RepeatAt(s, q) == RepeatAt(d, q) && IsCompleted(s, q) == IsCompleted(d, q);
    NextSame(top, d, s);
  }

  lemma ForwardCourse(env: Env, top: seq<Step>, log: Log)
    requires Valid(top) && LogGood(top, log) && Sound(env, top, Durable(log)) && Loadable(Durable(log))
    requires !Durable(log).IsTerminal() && Durable(log).status != Compensating && !env.cancelled(log)
    ensures var r := Run(env, top, Durable(log), log);
      Chronicle(Course(env, top, |log|), r.m.log) && Interrupts(Course(env, top, |log|), r)
  {
    hide LogGood, Valid, Sound, Chronicle, Run, AtScope, SnapshotData, Halfway, Clocked;
    var d := Durable(log);
    StartAtScope(env, top, log);
    RunGoing(env, top, d, log);
    var r := SnapshotData(env, Machine(d.(status := Running), d.data, log));
    if r.err == NoError {
      GoingCourse(Course(env, top, |log|), r.m);
    }
  }

  lemma NoEvents(c: Course, log: Log)
    requires c.from == |log|
    ensures Chronicle(c, log)
  {
  }

  /** What a cancelled forward run returns is the last durable state, but for where it was stopped. */
  ghost predicate Interrupts(c: Course, r: Result) {
    r.err == Cancelled ==>
      && (r.m.s.status == Running && !Dropped(c.top, r.m.log) ==>
            Clocked(c.env, r.m.s) && Halfway(c.top, Durable(r.m.log), r.m.s))
      && (r.m.s.status == Compensating || r.m.s.status == Failed ==>
            Clocked(c.env, r.m.s) && Skipped(c.top, Durable(r.m.log), r.m.s))
  }

  lemma ValidTop(top: seq<Step>)
    requires Valid(top)
    ensures ValidSteps(top)
  {
  }

  lemma GoingCourse(c: Course, m: Machine)
    requires AtScope(c, c.top, StartOf(c.top, m.s), [], m, m.s.currentPath, true)
    ensures Chronicle(c, Going(c.env, c.top, m).m.log) && Interrupts(c, Going(c.env, c.top, m))
  {
    hide Sound, Chronicle, Linked, Entry, Leads, Around, Located, ExecSteps, SnapshotData, Unmoved, Halfway, NextOfScope,
         AtScope;
    var i, cp := StartOf(c.top, m.s), m.s.currentPath;
    StepsEnd(c, c.top, i, [], m, cp, true);
    var e := ExecScope(c.env, c.top, c.top, i, [], m);
    if e.err == NoError && e.m.s.status == Running {
      SameSound(c.env, c.top, Durable(e.m.log), e.m.s, e.m.s.(status := Completed));
      TracksWorked(c.top, e.m.log, e.m.s);
      WorkedSame(c.top, e.m.log, e.m.s, e.m.s.(status := Completed));
      SavesData(c, e.m.(s := e.m.s.(status := Completed)));
    }
  }

  lemma BackwardCourse(env: Env, top: seq<Step>, log: Log)
    requires Valid(top) && Sound(env, top, Durable(log))
    requires Durable(log).status == Compensating && Loadable(Durable(log)) && !env.cancelled(log)
    ensures var r := Run(env, top, Durable(log), log);
      Chronicle(Course(env, top, |log|), r.m.log) && Interrupts(Course(env, top, |log|), r)
  {
    hide Valid, Sound, Chronicle, CompensateFrom, SnapshotData, Carried, Halfway, Clocked, Skipped, Remembers;
    var c, d := Course(env, top, |log|), Durable(log);
    BackwardUndoing(env, top, log);
    var r := SnapshotData(env, Machine(d, d.data, log));
    if r.err == NoError {
      CompensateEnds(c, r.m, r.m.s.compensationIndex);
    }
  }

  /** After its first snapshot a run that was being rolled back goes on with that. */
  lemma BackwardUndoing(env: Env, top: seq<Step>, log: Log)
    requires Valid(top) && Sound(env, top, Durable(log)) && Durable(log).status == Compensating && Loadable(Durable(log))
    ensures var c, d := Course(env, top, |log|), Durable(log);
      var r := SnapshotData(env, Machine(d, d.data, log));
      && Ended(c, r) && (r.err == NoError || r.err == SnapshotFailed)
      && (r.err == NoError ==>
            && Undoing(c, r.m) && r.m.s.compensationIndex == d.compensationIndex
            && r.m.s.completedSteps == d.completedSteps && r.m.s.repeatTimeout == d.repeatTimeout)
  {
    hide Valid, Sound, Chronicle, SnapshotData, Carried, Skipped, Remembers;
    var c, d := Course(env, top, |log|), Durable(log);
    NoEvents(c, log);
    LinkedSelf(d);
    var m := Machine(d, d.data, log);
    SavesData(c, m);
    var r := SnapshotData(env, m);
    if r.err == NoError {
      LinkedSelf(r.m.s);
      SavedLast(env, m);
      assert Skipped(top, r.m.s, r.m.s);
    }
  }

  lemma RunCourse(env: Env, top: seq<Step>, log: Log)
    requires Valid(top) && LogGood(top, log) && Sound(env, top, Durable(log)) && Loadable(Durable(log))
    ensures var r := Run(env, top, Durable(log), log);
      Chronicle(Course(env, top, |log|), r.m.log) && Interrupts(Course(env, top, |log|), r)
  {
    hide LogGood, Valid, Chronicle, Halfway, OnPath, Idle, Rooted, OnlyRepeats, Clocked, Undoes;
    NoEvents(Course(env, top, |log|), log);
    TracksSelf(top, Durable(log));
    if !Durable(log).IsTerminal() && !env.cancelled(log) {
      if Durable(log).status == Compensating {
        BackwardCourse(env, top, log);
      } else {
        ForwardCourse(env, top, log);
      }
    }
  }

  // ---------- histories ----------

  ghost predicate AllSound(env: Env, top: seq<Step>, log: Log) {
    forall k :: 0 <= k < |log| ==> Follows(env, top, log[..k], log[k])
  }

  lemma DurableSound(env: Env, top: seq<Step>, log: Log)
    requires AllSound(env, top, log)
    ensures Sound(env, top, Durable(log))
  {
    hide Sound, Remembers;
    if Durable(log) != INITIAL {
      assert log[..|log|] == log;
      DurableSaved(log, |log|);
    } else {
      InitialSound(env, top);
    }
  }

  lemma InitialSound(env: Env, top: seq<Step>)
    ensures Sound(env, top, INITIAL)
  {
  }

  lemma {:induction false} HistorySound(env: Env, top: seq<Step>, log: Log, n: nat)
    requires Valid(top) && Reachable(env, top, log, n)
    ensures AllSound(env, top, log)
    decreases n
  {
    hide Valid, Run, LogGood, Sound, Chronicle, AllSound, Interrupts;
    NothingSound(env, top);
    if n > 0 {
      var before :| Reachable(env, top, before, n - 1) && RunsTo(env, top, before, log);
      HistorySound(env, top, before, n - 1);
      HistoryGood(env, top, before, n - 1);
      DurableSound(env, top, before);
      RunCourse(env, top, before);
      CutSound(env, top, before, log, Run(env, top, Durable(before), before).m.log);
    }
  }

  lemma NothingSound(env: Env, top: seq<Step>)
    ensures AllSound(env, top, [])
  {
  }

  lemma CutSound(env: Env, top: seq<Step>, before: Log, log: Log, whole: Log)
    requires AllSound(env, top, before) && before <= log <= whole
    requires Chronicle(Course(env, top, |before|), whole)
    ensures AllSound(env, top, log)
  {
    hide Follows;
    forall k | 0 <= k < |log| ensures Follows(env, top, log[..k], log[k]) {
      if k < |before| {
        assert before[k] == log[k] && before[..k] == log[..k];
      } else {
        assert whole[k] == log[k] && whole[..k] == log[..k];
        assert Fits(Course(env, top, |before|), whole[..k], whole[k]);
      }
    }
  }

  lemma HistoryIsSound(env: Env, top: seq<Step>, log: Log)
    requires History(env, top, log)
    ensures AllSound(env, top, log) && Sound(env, top, Durable(log)) && Valid(top)
  {
    var n: nat :| Reachable(env, top, log, n);
    HistorySound(env, top, log, n);
    DurableSound(env, top, log);
  }

  // ---------- a not-done answer ----------

  /**
   * The first snapshot after a not-done answer of the same run has the repeat in its next iteration,
   * on the same clock - unless that iteration was the last one allowed, and exactly then the run is
   * being rolled back.
   */
  lemma NotDoneAdvances(env: Env, top: seq<Step>, log: Log, r: Result, k: nat)
    requires History(env, top, log) && Loadable(Durable(log)) && r == Run(env, top, Durable(log), log)
    requires |log| < k < |r.m.log| && NotDone(r.m.log[k - 1]) && r.m.log[k].Saved?
    ensures var p, n := r.m.log[k - 1].call.path, r.m.log[k - 1].call.iteration;
      var d, s := Durable(r.m.log[..k]), r.m.log[k].state;
      && RepeatPath(top, p) && n == RepeatAt(d, p).iteration
      && var limit := FindStep(top, p).value.kind.maxIterations;
      if 0 < limit <= n + 1 then s.status == Compensating
      else
        && s.status == Running && p in s.repeatStates
        && s.repeatStates[p].iteration == n + 1
        && !s.repeatStates[p].completed && s.repeatStates[p].startedAt == RepeatAt(d, p).startedAt
  {
    hide Run, LogGood, Sound, History, AllSound, Valid, Ever, Ahead, Interrupts, Chronicle;
    HistoryIsGood(env, top, log);
    HistoryIsSound(env, top, log);
    RunCourse(env, top, log);
    RunGood(env, top, log);
    EventAllowed(top, r.m.log, k - 1);
    var before, last := r.m.log[..k], r.m.log[..k - 1];
    assert before == last + [r.m.log[k - 1]];
    Append(last, r.m.log[k - 1]);
    AdvancedAt(Course(env, top, |log|), r.m.log, k);
  }

  lemma AdvancedAt(c: Course, log: Log, k: nat)
    requires Chronicle(c, log) && c.from < k < |log| && log[k].Saved?
    ensures Advanced(c.top, log[..k], log[k].state)
  {
    hide Follows, Advanced;
    assert Fits(c, log[..k], log[k]);
  }

  // ---------- an unfinished repeat stays ----------

  predicate FinishedAt(log: Log, i: nat, p: Path)
    requires i < |log|
  {
    log[i].Saved? && p in log[i].state.repeatStates && log[i].state.repeatStates[p].completed
  }

  lemma {:induction false} StaysUntil(env: Env, top: seq<Step>, log: Log, j: nat, k: nat, p: Path)
    requires AllSound(env, top, log) && j <= k < |log|
    requires log[j].Saved? && Unfinished(log[j].state, p)
    ensures (exists i :: j < i <= k && FinishedAt(log, i, p))
         || (Unfinished(Durable(log[..k + 1]), p)
             && Continues(log[j].state.repeatStates[p], Durable(log[..k + 1]).repeatStates[p]))
    decreases k
  {
    hide Sound, Follows, AllSound;
    assert log[..k + 1][..k] == log[..k];
    if k > j {
      StaysUntil(env, top, log, j, k - 1, p);
      if !(exists i :: j < i <= k - 1 && FinishedAt(log, i, p)) && log[k].Saved? {
        RemembersAt(env, top, log, k);
        assert !FinishedAt(log, k, p) ==> Unfinished(log[k].state, p);
      }
    }
  }

  /**
   * From its first snapshot until one that finishes it, a repeat stays recorded - through every crash
   * and whatever happens to other steps - and a clock once started keeps its time.
   */
  lemma ClockKept(env: Env, top: seq<Step>, log: Log, j: nat, k: nat, p: Path)
    requires History(env, top, log) && j <= k < |log|
    requires log[j].Saved? && Unfinished(log[j].state, p)
    requires forall i :: j < i <= k ==> !FinishedAt(log, i, p)
    ensures Unfinished(Durable(log[..k + 1]), p)
    ensures var t := log[j].state.repeatStates[p].startedAt;
      t.Some? ==> Durable(log[..k + 1]).repeatStates[p].startedAt == t
  {
    hide AllSound;
    HistoryIsSound(env, top, log);
    StaysUntil(env, top, log, j, k, p);
  }

  // ---------- compact repeats ----------

  /** The repeat at p is recorded for the first time, or again after it had been dropped. */
  predicate Enters(log: Log, j: nat, p: Path) {
    && j < |log| && log[j].Saved?
    && p in log[j].state.repeatStates && p !in Durable(log[..j]).repeatStates
  }

  /** A snapshot that starts another iteration of the compact repeat at p, or finishes it. */
  predicate Boundary(top: seq<Step>, log: Log, k: nat, p: Path) {
    && k < |log| && log[k].Saved? && log[k].state.status == Running
    && CompactAt(top, p) && p in log[k].state.repeatStates
    && var was, now := RepeatAt(Durable(log[..k]), p), log[k].state.repeatStates[p];
    now.iteration != was.iteration || (now.completed && !was.completed)
  }

  lemma {:induction false} OutsideAll(cs: seq<CompletedStep>, p: Path)
    requires forall i :: 0 <= i < |cs| ==> !IsPrefix(p, cs[i].path)
    ensures Outside(cs, p) == cs
  {
    if cs != [] {
      OutsideAll(cs[..|cs| - 1], p);
      assert cs == cs[..|cs| - 1] + [cs[|cs| - 1]];
    }
  }

  /** Before a repeat is recorded there is nothing of it in the journal. */
  lemma BeforeEntry(env: Env, top: seq<Step>, s: RunState, p: Path)
    requires Sound(env, top, s) && RepeatPath(top, p) && p !in s.repeatStates
    ensures NothingBelow(s, p) && !IsCompleted(s, p) && Outside(s.completedSteps, p) == s.completedSteps
  {
    hide Clocked, OnPath, Idle, OnlyRepeats;
    forall i | 0 <= i < |s.completedSteps| ensures !IsPrefix(p, s.completedSteps[i].path) {
      assert IsCompleted(s, s.completedSteps[i].path);
      assert Present(s, s.completedSteps[i].path);
    }
    forall q | q in s.repeatStates ensures !IsPrefix(p, q) {
      assert Present(s, q);
    }
    OutsideAll(s.completedSteps, p);
  }

  /** What good histories say about the snapshot at k and the repeat at p. */
  lemma GoodStep(top: seq<Step>, log: Log, k: nat, p: Path)
    requires LogGood(top, log) && k < |log| && log[k].Saved? && p in log[k].state.repeatStates
    requires var s := log[k].state; s.status == Running || s.status == Polling || s.status == Completed
    ensures RepeatStep(top, Durable(log[..k]), log[k].state, log[..k], p)
    ensures SameOutside(Durable(log[..k]).completedSteps, log[k].state)
    ensures JournalOK(top, log[k].state.completedSteps)
  {
    hide LogGood, RepeatStep, SameOutside, JournalOK, TopPos, Ever, RollbackOK, Recorded;
    EventAllowed(top, log, k);
  }

  /** At a boundary Until has just been answered. */
  lemma BoundaryAsked(top: seq<Step>, log: Log, k: nat, p: Path)
    requires LogGood(top, log) && Boundary(top, log, k, p)
    ensures k > 0 && log[k - 1].Called? && log[k - 1].call.Until? && log[k - 1].call.path == p
    ensures NothingBelow(log[k].state, p)
    ensures SameOutside(Durable(log[..k]).completedSteps, log[k].state)
    ensures var s, now := log[k].state, log[k].state.repeatStates[p];
      if now.completed && !RepeatAt(Durable(log[..k]), p).completed then
        s.currentPath == p && s.completedSteps != []
        && s.completedSteps[|s.completedSteps| - 1] == CompletedStep(p, false)
      else !IsCompleted(s, p)
  {
    hide LogGood, SameOutside, JournalOK;
    GoodStep(top, log, k, p);
  }

  /** Nothing that goes forward comes after a rollback has begun. */
  lemma StillForward(env: Env, top: seq<Step>, log: Log, i: nat, k: nat)
    requires History(env, top, log) && i <= k < |log| && log[i].Saved? && log[k].Saved?
    requires log[k].state.status == Running
    ensures log[i].state.status == Running || log[i].state.status == Polling || log[i].state.status == Completed
  {
    hide LogGood;
    HistoryIsGood(env, top, log);
    EventAllowed(top, log, i);
    if i < k && (log[i].state.status == Compensating || log[i].state.status == Failed) {
      CompensationIsFinal(env, top, log, i, k);
    }
  }

  /** One snapshot on the way: the repeat is not finished by it, so the journal around it stays. */
  lemma InsideOnce(env: Env, top: seq<Step>, log: Log, i: nat, k: nat, p: Path)
    requires History(env, top, log) && i < k < |log| && Boundary(top, log, k, p) && log[i].Saved?
    requires p in log[i].state.repeatStates && !RepeatAt(Durable(log[..i]), p).completed
    ensures Unfinished(log[i].state, p)
    ensures Outside(log[i].state.completedSteps, p) == Outside(Durable(log[..i]).completedSteps, p)
  {
    hide LogGood, JournalOK, History, AllSound, Outside, CompactAt;
    HistoryIsGood(env, top, log);
    HistoryIsSound(env, top, log);
    StillForward(env, top, log, i, k);
    BoundaryAsked(top, log, k, p);
    GoodStep(top, log, i, p);
    RemembersAt(env, top, log, i);
    var s := log[i].state;
    SoundOnPath(env, top, s);
    hide Sound, Remembers;
    if s.repeatStates[p].completed {
      assert s.completedSteps[|s.completedSteps| - 1].path == p;
      assert i < k - 1;
      DoneOnce(env, top, log, i, k - 1);
    }
    assert Unfinished(s, p) && Encloses(s, p);
  }

  lemma {:induction false} InsideKept(env: Env, top: seq<Step>, log: Log, j: nat, i: nat, k: nat, p: Path)
    requires History(env, top, log) && Enters(log, j, p) && j <= i < k < |log| && Boundary(top, log, k, p)
    ensures var s := Durable(log[..i + 1]);
      Unfinished(s, p) && Outside(s.completedSteps, p) == Outside(Durable(log[..j]).completedSteps, p)
    decreases i
  {
    hide AllSound, Boundary, History;
    assert log[..i + 1][..i] == log[..i];
    if i == j {
      InsideOnce(env, top, log, i, k, p);
    } else {
      InsideKept(env, top, log, j, i - 1, k, p);
      if log[i].Saved? {
        HistoryIsSound(env, top, log);
        assert Remembers(Durable(log[..i]), log[i].state) by { RemembersAt(env, top, log, i); }
        InsideOnce(env, top, log, i, k, p);
      }
    }
  }

  lemma RemembersAt(env: Env, top: seq<Step>, log: Log, i: nat)
    requires AllSound(env, top, log) && i < |log| && log[i].Saved?
    ensures Remembers(Durable(log[..i]), log[i].state) && Sound(env, top, log[i].state)
  {
    assert Follows(env, top, log[..i], log[i]);
  }

  /**
   * Bounded history: whenever a compact repeat starts another iteration the journal is what it was
   * before the repeat was entered, and when it finishes that and its own entry - however many
   * iterations and crashes lie between; no nested repeat position remains.
   */
  lemma CompactBounded(env: Env, top: seq<Step>, log: Log, j: nat, k: nat, p: Path)
    requires History(env, top, log) && Enters(log, j, p) && j <= k && Boundary(top, log, k, p)
    ensures var s, before := log[k].state, Durable(log[..j]);
      && NothingBelow(s, p)
      && s.completedSteps == before.completedSteps
           + if s.repeatStates[p].completed then [CompletedStep(p, false)] else []
  {
    hide LogGood, History, AllSound, JournalOK, NothingBelow, Outside;
    HistoryIsGood(env, top, log);
    HistoryIsSound(env, top, log);
    var s, before := log[k].state, Durable(log[..j]);
    if k > j {
      InsideKept(env, top, log, j, k - 1, k, p);
      assert log[..k - 1 + 1] == log[..k];
    }
    BoundaryFacts(env, top, log, k, p);
    EntryFacts(env, top, log, j, p);
    JournalAt(top, s, p);
  }

  lemma EntryFacts(env: Env, top: seq<Step>, log: Log, j: nat, p: Path)
    requires AllSound(env, top, log) && Enters(log, j, p) && RepeatPath(top, p)
    ensures var before := Durable(log[..j]); Outside(before.completedSteps, p) == before.completedSteps
  {
    hide Sound, Remembers, RepeatPath;
    var past := log[..j];
    assert AllSound(env, top, past) by {
      forall i | 0 <= i < |past| ensures Follows(env, top, past[..i], past[i]) {
        assert past[i] == log[i] && past[..i] == log[..i];
      }
    }
    DurableSound(env, top, past);
    BeforeEntry(env, top, Durable(past), p);
  }

  lemma NotListed(s: RunState, p: Path)
    requires !IsCompleted(s, p)
    ensures forall i :: 0 <= i < |s.completedSteps| ==> s.completedSteps[i].path != p
  {
  }

  /** At a boundary the journal is what lies outside the repeat, and its own entry if it finished. */
  lemma JournalAt(top: seq<Step>, s: RunState, p: Path)
    requires JournalOK(top, s.completedSteps) && NothingBelow(s, p) && p in s.repeatStates
    requires if s.repeatStates[p].completed then
               s.completedSteps != [] && s.completedSteps[|s.completedSteps| - 1] == CompletedStep(p, false)
             else !IsCompleted(s, p)
    ensures s.completedSteps == Outside(s.completedSteps, p)
              + if s.repeatStates[p].completed then [CompletedStep(p, false)] else []
  {
    hide EntryOK, IsCompleted;
    var cs := s.completedSteps;
    if s.repeatStates[p].completed {
      var rest := cs[..|cs| - 1];
      assert cs == rest + [CompletedStep(p, false)];
      forall i | 0 <= i < |rest| ensures !IsPrefix(p, rest[i].path) {
        assert rest[i] == cs[i] && cs[i].path != cs[|cs| - 1].path;
      }
      OutsideAll(rest, p);
    } else {
      NotListed(s, p);
      forall i | 0 <= i < |cs| ensures !IsPrefix(p, cs[i].path) {
        assert cs[i].path != p;
      }
      OutsideAll(cs, p);
    }
  }

  lemma BoundaryFacts(env: Env, top: seq<Step>, log: Log, k: nat, p: Path)
    requires LogGood(top, log) && AllSound(env, top, log) && Boundary(top, log, k, p)
    requires !RepeatAt(Durable(log[..k]), p).completed
    ensures RepeatPath(top, p) && k > 0 && log[k].Saved? && p in log[k].state.repeatStates
    ensures JournalOK(top, log[k].state.completedSteps) && NothingBelow(log[k].state, p)
    ensures var s, d := log[k].state, Durable(log[..k]);
      && Outside(s.completedSteps, p) == Outside(d.completedSteps, p)
      && if s.repeatStates[p].completed then
           s.completedSteps != [] && s.completedSteps[|s.completedSteps| - 1] == CompletedStep(p, false)
         else !IsCompleted(s, p)
  {
    hide LogGood, JournalOK, AllSound, Outside, Sound, Remembers, CompletesRepeat, NotDoneStep;
    BoundaryAsked(top, log, k, p);
    GoodStep(top, log, k, p);
    RemembersAt(env, top, log, k);
    SoundOnPath(env, top, log[k].state);
    assert Encloses(log[k].state, p) by {
      assert Unfinished(log[k].state, p) ==> p <= log[k].state.currentPath;
    }
  }

  lemma {:induction false} EntryExists(log: Log, k: nat, p: Path)
    requires k < |log| && p in Durable(log[..k + 1]).repeatStates
    ensures exists j :: 0 <= j <= k && Enters(log, j, p)
    decreases k
  {
    assert log[..k + 1][..k] == log[..k];
    if !Enters(log, k, p) {
      assert k > 0;
      EntryExists(log, k - 1, p);
    }
  }
}
