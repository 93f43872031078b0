/** Every leaf operation of the executor keeps the log good and the position in step with it. */
module Steps {
  import opened Options
  import opened Definition
  import opened State
  import opened Executor
  import opened Journal
  import opened Frames

  // ---------- memory against the last durable state ----------

  predicate LastSaved(log: Log) {
    log != [] && log[|log| - 1].Saved?
  }

  predicate RepeatKept(was: RepeatState, now: RepeatState) {
    && now.iteration == was.iteration
    && (was.startedAt.Some? && !now.completed ==> now.startedAt == was.startedAt)
    && (now.completed ==> was.completed)
  }

  ghost predicate RepeatsMatch(d: RunState, s: RunState) {
    forall p :: p in s.repeatStates ==> RepeatKept(RepeatAt(d, p), s.repeatStates[p])
  }

  /** In memory only the path and the records of entered repeats may be ahead of the store. */
  ghost predicate Linked(m: Machine) {
    var d := Durable(m.log);
    && m.s == d.(currentPath := m.s.currentPath, repeatStates := m.s.repeatStates)
    && m.data == m.s.data
    && m.s.status == Running
    && RepeatsMatch(d, m.s)
    && forall p :: p in d.repeatStates ==> p in m.s.repeatStates
  }

  /** The configuration in which a step may be executed: everything before it is durable. */
  ghost predicate Ready(top: seq<Step>, m: Machine) {
    LogGood(top, m.log) && Linked(m) && LastSaved(m.log)
  }

  ghost predicate Framed(path: Path, m: Machine, m': Machine) {
    m.log <= m'.log && FramedBy(path, Ever(m.log), m.s, Ever(m'.log), m'.s)
  }

  /** The configuration in which this step may be executed. */
  ghost predicate Due(top: seq<Step>, step: Step, path: Path, m: Machine) {
    && Ready(top, m)
    && ValidStep(step) && FindStep(top, path) == Some(step)
    && path <= m.s.currentPath
    && StepPos(Ever(m.log), step, path, m.s)
    && (|m.s.currentPath| == |path| ==> Virgin(Ever(m.log), step, path, m.s))
    && StepPlug(top, Ever(m.log), m.s, step, path)
  }

  /** A step failed and nothing was saved about it yet. */
  ghost predicate FreshFailure(top: seq<Step>, step: Step, path: Path, m: Machine, m': Machine, cause: Cause) {
    var d := Durable(m'.log);
    && m'.s.status == Running && d.status == Running
    && m'.s.revision == d.revision
    && path <= m'.s.currentPath
    && StepPos(Ever(m'.log), step, path, m'.s)
    && Framed(path, m, m')
    && RepeatsMatch(d, m'.s)
    && JournalOK(top, m'.s.completedSteps)
    && Marks(m'.s) <= Ever(m'.log)
    && (cause == Uncompensated ==> m'.s.completedSteps == d.completedSteps)
  }

  /** What executing one step guarantees, for each way it can end. */
  ghost predicate StepPost(env: Env, top: seq<Step>, step: Step, path: Path, m: Machine, r: Result) {
    && LogGood(top, r.m.log) && m.log <= r.m.log
    && match r.err
       case NoError =>
         if r.m.s.status == Running then
           Ready(top, r.m) && Framed(path, m, r.m) && path <= r.m.s.currentPath
         else r.m.s == Durable(r.m.log) && r.m.s.status == Failed
       case SnapshotFailed => true
       case Cancelled => env.cancelled(r.m.log)
       case Continue => r.m.s == Durable(r.m.log)
       case CompensationFailed => r.m.s == Durable(r.m.log) && r.m.s.status == Compensating
       case StepFailed(failed, cause) =>
         if failed == path then FreshFailure(top, step, path, m, r.m, cause)
         else Handled(r.m, failed, |path|)
       case _ => false
  }

  /** An inner scope dealt with the failure: it is saved, and the run is over or the path deeper. */
  ghost predicate Handled(m: Machine, failed: Path, depth: nat) {
    m.s == Durable(m.log) && (m.s.status == Failed || m.s.status == Running) && |failed| > depth
  }

  // ---------- snapshots ----------

  ghost predicate Persisted(top: seq<Step>, m: Machine, s: RunState, r: Result) {
    && LogGood(top, r.m.log) && m.log <= r.m.log
    && (r.err == NoError || r.err == SnapshotFailed)
    && (r.err == NoError ==>
          && r.m == Machine(s, m.data, m.log + [Saved(s)])
          && Durable(r.m.log) == s && LastSaved(r.m.log)
          && Ever(r.m.log) == Ever(m.log) + Marks(s))
  }

  function Candidate(m: Machine): RunState {
    m.s.(data := m.data, revision := m.s.revision + 1)
  }

  lemma SaveGood(env: Env, top: seq<Step>, m: Machine)
    requires LogGood(top, m.log) && Allowed(top, m.log, Saved(Candidate(m)))
    ensures Persisted(top, m, Candidate(m), SnapshotData(env, m))
  {
    hide Allowed, LogGood, Ever, Durable, Recorded, Marks;
    var s := Candidate(m);
    if env.save(m.log, s) {
      Append(m.log, Saved(s));
      AppendGood(top, m.log, Saved(s));
    } else {
      RefusedGood(top, m.log, s);
    }
  }

  lemma RefusedGood(top: seq<Step>, log: Log, s: RunState)
    requires LogGood(top, log)
    ensures LogGood(top, log + [Refused(s)])
  {
    hide LogGood;
    AppendGood(top, log, Refused(s));
  }

  /** Conditions under which a running state may be saved. */
  lemma ForwardAllowed(top: seq<Step>, log: Log, s: RunState)
    requires LogGood(top, log)
    requires var d := Durable(log);
      && d.status != Compensating && !d.IsTerminal() && s.revision == d.revision + 1
      && (s.status == Running || s.status == Polling)
      && JournalOK(top, s.completedSteps)
      && SameOutside(d.completedSteps, s)
      && (forall p :: p in s.repeatStates ==> RepeatStep(top, d, s, log, p))
    requires TopPos(Ever(log) + Marks(s), top, s)
    ensures Allowed(top, log, Saved(s))
  {
    DurableOK(top, log);
    Append(log, Saved(s));
  }

  /** The same for a state reached by work below one step, whose position plugs into the tree. */
  lemma PluggedAllowed(top: seq<Step>, step: Step, path: Path, base: RunState, log: Log, s: RunState)
    requires LogGood(top, log)
    requires var d := Durable(log);
      && d.status == Running && s.revision == d.revision + 1
      && (s.status == Running || s.status == Polling)
      && JournalOK(top, s.completedSteps)
      && SameOutside(d.completedSteps, s)
      && (forall p :: p in s.repeatStates ==> RepeatStep(top, d, s, log, p))
    requires StepPlug(top, Ever(log), base, step, path)
    requires FramedBy(path, Ever(log), base, Ever(log) + Marks(s), s)
    requires path <= s.currentPath && StepPos(Ever(log) + Marks(s), step, path, s)
    ensures Allowed(top, log, Saved(s))
  {
    ForwardAllowed(top, log, s);
  }

  // ---------- calls ----------

  /** Calls of one step were appended; nothing became durable. */
  ghost predicate Quiet(top: seq<Step>, path: Path, m: Machine, m': Machine) {
    && LogGood(top, m'.log) && m.log <= m'.log
    && Durable(m'.log) == Durable(m.log) && Ever(m'.log) == Ever(m.log)
    && Ahead(m'.log, path)
    && m'.s == m.s
  }

  lemma InvokeGood(env: Env, top: seq<Step>, m: Machine, call: Call)
    requires LogGood(top, m.log) && CallOK(top, m.log, call) && !call.Compensate?
    ensures Quiet(top, call.path, m, Invoke(env, m, call).m)
    ensures Invoke(env, m, call).m.log == m.log + [Called(call, Invoke(env, m, call).reply)]
  {
    var e := Called(call, Invoke(env, m, call).reply);
    Append(m.log, e);
    AppendGood(top, m.log, e);
    assert (m.log + [e])[..|m.log|] == m.log;
  }

  lemma SleepGood(top: seq<Step>, path: Path, m: Machine, m': Machine, delay: int)
    requires Quiet(top, path, m, m')
    ensures Quiet(top, path, m, m'.(log := m'.log + [Slept(delay)]))
  {
    var e := Slept(delay);
    Append(m'.log, e);
    AppendGood(top, m'.log, e);
    assert (m'.log + [e])[..|m'.log|] == m'.log;
  }

  /** A step whose calls changed nothing durable may call again. */
  lemma QuietCall(top: seq<Step>, m: Machine, m': Machine, call: Call)
    requires Quiet(top, call.path, m, m') && CallOK(top, m.log, call) && !call.Compensate?
    ensures CallOK(top, m'.log, call)
  {
  }

  lemma QuietTransitive(top: seq<Step>, path: Path, m0: Machine, m1: Machine, m2: Machine)
    requires Quiet(top, path, m0, m1) && Quiet(top, path, m1, m2)
    ensures Quiet(top, path, m0, m2)
  {
  }

  lemma {:induction false} AttemptGood(env: Env, top: seq<Step>, m: Machine, path: Path,
                                       left: nat, delay: int, backoff: bool)
    requires left >= 1
    requires LogGood(top, m.log) && CallOK(top, m.log, Do(path))
    ensures Quiet(top, path, m, Attempt(env, m, path, left, delay, backoff).m)
    decreases left
  {
    hide LogGood, Quiet;
    var a := Invoke(env, m, Do(path));
    InvokeGood(env, top, m, Do(path));
    if !(a.reply.Ok? || a.reply.failure == RetryAfter || left == 1) {
      var slept := a.m.(log := a.m.log + [Slept(delay)]);
      SleepGood(top, path, m, a.m, delay);
      if !env.cancelled(slept.log) {
        var next := NextDelay(backoff, delay);
        QuietCall(top, m, slept, Do(path));
        AttemptGood(env, top, slept, path, left - 1, next, backoff);
        QuietTransitive(top, path, m, slept, Attempt(env, slept, path, left - 1, next, backoff).m);
      }
    }
  }

  lemma DueCall(top: seq<Step>, step: Step, path: Path, m: Machine)
    requires Due(top, step, path, m) && |m.s.currentPath| == |path|
    ensures Ahead(m.log, path)
    ensures Durable(m.log).status == Running && path !in Ever(m.log)
    ensures m.s.currentPath == path
  {
    assert IsPrefix(path, path);
  }

  // ---------- marks ----------

  lemma MarksMatch(top: seq<Step>, log: Log, s: RunState)
    requires LogGood(top, log)
    requires RepeatsMatch(Durable(log), s)
    requires forall e :: e in s.completedSteps ==> e in Durable(log).completedSteps
    ensures Marks(s) <= Ever(log)
  {
    DurableOK(top, log);
    var d := Durable(log);
    forall q | q in Marks(s) ensures q in Marks(d) {
      if IsCompleted(s, q) {
        var i :| 0 <= i < |s.completedSteps| && s.completedSteps[i].path == q;
        assert s.completedSteps[i] in d.completedSteps;
      } else {
        assert RepeatKept(RepeatAt(d, q[..|q| - 1]), s.repeatStates[q[..|q| - 1]]);
      }
    }
  }

  lemma LinkedMarks(top: seq<Step>, m: Machine)
    requires Ready(top, m)
    ensures Marks(m.s) <= Ever(m.log)
    ensures JournalOK(top, m.s.completedSteps)
  {
    MarksMatch(top, m.log, m.s);
    DurableOK(top, m.log);
  }

  lemma CompleteMarks(s: RunState, path: Path, has: bool)
    ensures Marks(Complete(s, path, has)) == Marks(s) + iset{path}
  {
    var s' := Complete(s, path, has);
    forall q ensures Marked(s', q) <==> Marked(s, q) || q == path {
      if IsCompleted(s, q) {
        var i :| 0 <= i < |s.completedSteps| && s.completedSteps[i].path == q;
        assert s'.completedSteps[i].path == q;
      }
      assert s'.completedSteps[|s.completedSteps|].path == path;
    }
  }

  lemma OutsideAppend(cs: seq<CompletedStep>, e: CompletedStep, p: Path)
    requires p <= e.path
    ensures Outside(cs + [e], p) == Outside(cs, p)
  {
    assert (cs + [e])[..|cs|] == cs;
  }

  lemma CompleteJournal(top: seq<Step>, s: RunState, ever: iset<Path>, path: Path, has: bool)
    requires JournalOK(top, s.completedSteps) && Marks(s) <= ever && path !in ever
    requires EntryOK(top, CompletedStep(path, has))
    ensures JournalOK(top, Complete(s, path, has).completedSteps)
  {
    forall i | 0 <= i < |s.completedSteps| ensures s.completedSteps[i].path != path {
      assert Marked(s, s.completedSteps[i].path);
    }
  }
}
