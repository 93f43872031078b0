/** The end of an iteration: done, limit reached, next iteration, or time out. */
module Iterations {
  import opened Options
  import opened Decimal
  import opened Definition
  import opened State
  import opened Executor
  import opened Journal
  import opened Frames
  import opened Steps
  import opened Leaves
  import opened Repeats

  /** Marks once the repeat's own record is replaced in a reduced state. */
  lemma ReducedMarks(s0: RunState, s: RunState, path: Path, now: RepeatState, ever: iset<Path>)
    requires Marks(s0) <= ever
    requires forall e :: e in s.completedSteps ==> e in s0.completedSteps
    requires forall p :: p in s.repeatStates ==> p in s0.repeatStates && s.repeatStates[p] == s0.repeatStates[p]
    requires path in s.repeatStates
    requires var n := s.repeatStates[path].iteration; now.iteration == n || now.iteration == n + 1
    ensures var n := s.repeatStates[path].iteration;
      Marks(s.(repeatStates := s.repeatStates[path := now]))
        <= ever + if now.iteration == n then iset{} else iset{path + [Itoa(n)]}
  {
    var s' := s.(repeatStates := s.repeatStates[path := now]);
    var n := s.repeatStates[path].iteration;
    forall q | q in Marks(s') ensures q in ever || (now.iteration == n + 1 && q == path + [Itoa(n)]) {
      if IsCompleted(s', q) {
        var i :| 0 <= i < |s'.completedSteps| && s'.completedSteps[i].path == q;
        assert s'.completedSteps[i] in s0.completedSteps;
        assert Marked(s0, q);
      } else {
        var p := q[..|q| - 1];
        assert q == p + [q[|q| - 1]];
        var k: nat :| k < s'.repeatStates[p].iteration && q[|q| - 1] == Itoa(k);
        assert p != path || k < n ==> Marked(s0, q);
      }
    }
  }

  lemma RetainedMarks(top: seq<Step>, step: Step, path: Path, m: Machine, rs: RepeatState, now: RepeatState,
                      s': RunState)
    requires Underway(top, step, path, m, rs)
    requires now.iteration == rs.iteration || now.iteration == rs.iteration + 1
    requires var kept := Retained(step, m.s, path, rs.iteration);
      s'.completedSteps == kept.completedSteps && s'.repeatStates == kept.repeatStates[path := now]
    ensures Marks(s') <= Ever(m.log) + if now.iteration == rs.iteration then iset{} else iset{path + [Itoa(rs.iteration)]}
  {
    LinkedMarks(top, m);
    RetainedFacts(top, step, path, m, rs);
    var kept := Retained(step, m.s, path, rs.iteration);
    ReducedMarks(m.s, kept, path, now, Ever(m.log));
    SameMarks(kept.(repeatStates := kept.repeatStates[path := now]), s');
  }

  lemma RetainedFrame(top: seq<Step>, step: Step, path: Path, m: Machine, rs: RepeatState,
                      s': RunState, ever': iset<Path>, has: seq<CompletedStep>)
    requires Underway(top, step, path, m, rs)
    requires var s := Retained(step, m.s, path, rs.iteration);
      && s'.completedSteps == s.completedSteps + has
      && (forall e :: e in has ==> e.path == path)
      && s'.repeatStates.Keys == s.repeatStates.Keys
      && (forall p :: p in s.repeatStates && p != path ==> s'.repeatStates[p] == s.repeatStates[p])
    requires Ever(m.log) <= ever' <= Ever(m.log) + iset{path, path + [Itoa(rs.iteration)]}
    ensures FramedBy(path, Ever(m.log), m.s, ever', s')
  {
    RetainedFacts(top, step, path, m, rs);
    assert IsPrefix(path, path) && IsPrefix(path, path + [Itoa(rs.iteration)]);
  }

  // ---------- done ----------

  lemma DoneMarks(top: seq<Step>, step: Step, path: Path, m: Machine, rs: RepeatState, s: RunState)
    requires Underway(top, step, path, m, rs)
    requires s == DoneState(step, path, m.s, rs).(data := s.data, revision := s.revision)
    ensures JournalOK(top, s.completedSteps)
    ensures Marks(s) <= Ever(m.log) + iset{path}
    ensures FramedBy(path, Ever(m.log), m.s, Ever(m.log) + Marks(s), s)
  {
    hide LogGood, StepPlug;
    var kept := Retained(step, m.s, path, rs.iteration);
    var done := rs.(awaitingCondition := false, completed := true, startedAt := None);
    var recorded := kept.(repeatStates := kept.repeatStates[path := done]);
    RetainedFacts(top, step, path, m, rs);
    RetainedMarks(top, step, path, m, rs, done, recorded);
    CompleteMarks(recorded, path, false);
    CompleteJournal(top, recorded, Ever(m.log), path, false);
    SameMarks(Complete(recorded, path, false), s);
    RetainedFrame(top, step, path, m, rs, s, Ever(m.log) + Marks(s), [CompletedStep(path, false)]);
  }

  lemma DonePos(top: seq<Step>, step: Step, path: Path, m: Machine, rs: RepeatState, s: RunState, ever': iset<Path>)
    requires Underway(top, step, path, m, rs)
    requires s == DoneState(step, path, m.s, rs).(data := s.data, revision := s.revision)
    ensures StepPos(ever', step, path, s)
    ensures NothingBelow(s, path) || !step.kind.compact
    ensures SameOutside(m.s.completedSteps, s)
  {
    var kept := Retained(step, m.s, path, rs.iteration);
    RetainedFacts(top, step, path, m, rs);
    assert s.completedSteps[|kept.completedSteps|].path == path;
    forall p | Encloses(s, p)
      ensures Outside(s.completedSteps, p) == Outside(m.s.completedSteps, p)
    {
      OutsideAppend(kept.completedSteps, CompletedStep(path, false), p);
    }
  }

  lemma DoneAllowed(top: seq<Step>, step: Step, path: Path, base: Machine, m: Machine, rs: RepeatState,
                    m2: Machine, reply: Reply)
    requires Asking(top, step, path, base, m, rs)
    requires m2.log == m.log + [Called(Until(path, rs.iteration), reply)]
    requires CalledOnly(top, m, m2) && m2.s == DoneState(step, path, m.s, rs)
    ensures Allowed(top, m2.log, Saved(Candidate(m2)))
    ensures FramedBy(path, Ever(m.log), m.s, Ever(m.log) + Marks(Candidate(m2)), Candidate(m2))
  {
    var s, ever := Candidate(m2), Ever(m.log);
    DoneMarks(top, step, path, m, rs, s);
    DonePos(top, step, path, m, rs, s, ever + Marks(s));
    assert s.completedSteps[|s.completedSteps| - 1] == CompletedStep(path, false);
    DoneRecords(top, step, path, m, rs, s, m2.log);
    PluggedAllowed(top, step, path, m.s, m2.log, s);
  }

  lemma DoneRecords(top: seq<Step>, step: Step, path: Path, m: Machine, rs: RepeatState, s: RunState, log: Log)
    requires Underway(top, step, path, m, rs)
    requires var kept := Retained(step, m.s, path, rs.iteration);
      s.repeatStates == kept.repeatStates[path := rs.(awaitingCondition := false, completed := true, startedAt := None)]
    requires NothingBelow(s, path) || !step.kind.compact
    requires s.currentPath == path && s.completedSteps != [] && s.completedSteps[|s.completedSteps| - 1] == CompletedStep(path, false)
    requires log != [] && log[|log| - 1].Called? && log[|log| - 1].call == Until(path, rs.iteration)
    ensures forall p :: p in s.repeatStates ==> RepeatStep(top, Durable(m.log), s, log, p)
  {
    hide LogGood, StepPlug;
    RetainedFacts(top, step, path, m, rs);
    var d := Durable(m.log);
    assert RepeatKept(RepeatAt(d, path), rs);
    forall p | p in s.repeatStates ensures RepeatStep(top, d, s, log, p) {
      if p != path {
        assert RepeatKept(RepeatAt(d, p), m.s.repeatStates[p]);
      }
    }
  }

  lemma DoneGood(env: Env, top: seq<Step>, step: Step, path: Path, base: Machine, m: Machine, rs: RepeatState,
                 m2: Machine, reply: Reply)
    requires Asking(top, step, path, base, m, rs)
    requires m2.log == m.log + [Called(Until(path, rs.iteration), reply)]
    requires CalledOnly(top, m, m2) && m2.s == DoneState(step, path, m.s, rs)
    ensures StepPost(env, top, step, path, base, SnapshotData(env, m2))
  {
    hide LogGood, Allowed, StepPos, FramedBy, StepPlug;
    DoneAllowed(top, step, path, base, m, rs, m2, reply);
    SaveGood(env, top, m2);
    var s := Candidate(m2);
    LogsGrow(base.log, m.log, m2.log);
    FrameTransitive(path, Ever(base.log), base.s, Ever(m.log), m.s, Ever(m.log) + Marks(s), s);
    SavedPost(env, top, step, path, base, m2);
  }

  // ---------- next iteration ----------

  /** Between two iterations of a compact repeat the journal below the repeat is empty. */
  lemma NextPos(top: seq<Step>, step: Step, path: Path, m: Machine, rs: RepeatState, s: RunState, ever': iset<Path>)
    requires Underway(top, step, path, m, rs)
    requires step.kind.maxIterations > 0 ==> rs.iteration + 1 < step.kind.maxIterations
    requires var n := NextState(step, path, m.s, rs);
      s.currentPath == n.currentPath && s.completedSteps == n.completedSteps && s.repeatStates == n.repeatStates
    requires Ever(m.log) <= ever' <= Ever(m.log) + iset{path + [Itoa(rs.iteration)]}
    ensures StepPos(ever', step, path, s)
  {
    RetainedFacts(top, step, path, m, rs);
    var n := rs.iteration;
    forall k: nat | n < k ensures Untouched(ever', s, path + [Itoa(k)]) {
      forall p | IsPrefix(path + [Itoa(k)], p) ensures p !in ever' && p !in s.repeatStates {
        Component(path, Itoa(k), p);
        ItoaInjective(n, k);
        assert Untouched(Ever(m.log), m.s, path + [Itoa(k)]);
        assert p != path + [Itoa(n)];
      }
    }
    var scope := path + [Itoa(n + 1)];
    assert IsPrefix(scope, scope) && Untouched(ever', s, scope);
    assert InProgress(ever', step, path, s, s.repeatStates[path]);
  }

  lemma NextRecords(top: seq<Step>, step: Step, path: Path, m: Machine, rs: RepeatState, s: RunState,
                    log: Log, reply: Reply)
    requires Underway(top, step, path, m, rs)
    requires s.repeatStates == NextState(step, path, m.s, rs).repeatStates
    requires s.completedSteps == NextState(step, path, m.s, rs).completedSteps
    requires log == m.log + [Called(Until(path, rs.iteration), reply)] && reply.Ok? && !reply.done
    ensures forall p :: p in s.repeatStates ==> RepeatStep(top, Durable(m.log), s, log, p)
  {
    RetainedFacts(top, step, path, m, rs);
    LinkedMarks(top, m);
    var d := Durable(m.log);
    assert RepeatKept(RepeatAt(d, path), rs);
    NextNothing(top, step, path, m, rs, s);
    forall p | p in s.repeatStates ensures RepeatStep(top, d, s, log, p) {
      if p != path {
        assert RepeatKept(RepeatAt(d, p), m.s.repeatStates[p]);
      }
    }
  }

  /** At the boundary of two iterations of a compact repeat the journal has nothing of it. */
  lemma NextNothing(top: seq<Step>, step: Step, path: Path, m: Machine, rs: RepeatState, s: RunState)
    requires Underway(top, step, path, m, rs)
    requires s.repeatStates == NextState(step, path, m.s, rs).repeatStates
    requires s.completedSteps == NextState(step, path, m.s, rs).completedSteps
    ensures !IsCompleted(s, path)
    ensures step.kind.compact ==> NothingBelow(s, path)
  {
    hide LogGood, StepPlug;
    RetainedFacts(top, step, path, m, rs);
    LinkedMarks(top, m);
    forall i | 0 <= i < |s.completedSteps| ensures s.completedSteps[i].path != path {
      assert s.completedSteps[i] in m.s.completedSteps;
      assert Marked(m.s, s.completedSteps[i].path);
    }
  }

  lemma NextFields(step: Step, path: Path, s0: RunState, rs: RepeatState, s: RunState)
    requires step.kind.Repeat?
    requires s == NextState(step, path, s0, rs).(data := s.data, revision := s.revision)
    ensures var kept := Retained(step, s0, path, rs.iteration);
      s.completedSteps == kept.completedSteps
      && s.repeatStates == kept.repeatStates[path := rs.(iteration := rs.iteration + 1, awaitingCondition := false)]
  {
  }

  lemma NextFrame(top: seq<Step>, step: Step, path: Path, m: Machine, rs: RepeatState, s: RunState, ever': iset<Path>)
    requires Underway(top, step, path, m, rs)
    requires s == NextState(step, path, m.s, rs).(data := s.data, revision := s.revision)
    requires Ever(m.log) <= ever' <= Ever(m.log) + iset{path + [Itoa(rs.iteration)]}
    ensures FramedBy(path, Ever(m.log), m.s, ever', s)
    ensures JournalOK(top, s.completedSteps)
  {
    RetainedFacts(top, step, path, m, rs);
    var kept := Retained(step, m.s, path, rs.iteration);
    assert s.completedSteps == kept.completedSteps + [];
    assert s.repeatStates.Keys == kept.repeatStates.Keys;
    RetainedFrame(top, step, path, m, rs, s, ever', []);
  }

  lemma NextOutside(top: seq<Step>, step: Step, path: Path, m: Machine, rs: RepeatState, s: RunState)
    requires Underway(top, step, path, m, rs)
    requires s == NextState(step, path, m.s, rs).(data := s.data, revision := s.revision)
    ensures SameOutside(m.s.completedSteps, s)
  {
    hide LogGood, StepPlug, Retained;
    RetainedFacts(top, step, path, m, rs);
    NextFields(step, path, m.s, rs, s);
    var next := path + [Itoa(rs.iteration + 1)];
    assert Untouched(Ever(m.log), m.s, next) && IsPrefix(next, next);
    forall p | Encloses(s, p) ensures Outside(s.completedSteps, p) == Outside(m.s.completedSteps, p) {
      assert p != next;
      assert p <= path;
    }
  }

  lemma NextAllowed(top: seq<Step>, step: Step, path: Path, base: Machine, m: Machine, rs: RepeatState,
                    m2: Machine, reply: Reply)
    requires Asking(top, step, path, base, m, rs)
    requires step.kind.maxIterations > 0 ==> rs.iteration + 1 < step.kind.maxIterations
    requires CalledOnly(top, m, m2) && m2.s == NextState(step, path, m.s, rs)
    requires m2.log == m.log + [Called(Until(path, rs.iteration), reply)] && reply.Ok? && !reply.done
    ensures Allowed(top, m2.log, Saved(Candidate(m2)))
  {
    var s, ever := Candidate(m2), Ever(m.log);
    NextFields(step, path, m.s, rs, s);
    RetainedMarks(top, step, path, m, rs, rs.(iteration := rs.iteration + 1, awaitingCondition := false), s);
    NextFrame(top, step, path, m, rs, s, ever + Marks(s));
    NextOutside(top, step, path, m, rs, s);
    NextPos(top, step, path, m, rs, s, ever + Marks(s));
    NextRecords(top, step, path, m, rs, s, m2.log, reply);
    PluggedAllowed(top, step, path, m.s, m2.log, s);
  }

  lemma NextGood(env: Env, top: seq<Step>, step: Step, path: Path, base: Machine, m: Machine, rs: RepeatState,
                 m2: Machine, reply: Reply)
    requires Asking(top, step, path, base, m, rs)
    requires step.kind.maxIterations > 0 ==> rs.iteration + 1 < step.kind.maxIterations
    requires CalledOnly(top, m, m2) && m2.s == NextState(step, path, m.s, rs)
    requires m2.log == m.log + [Called(Until(path, rs.iteration), reply)] && reply.Ok? && !reply.done
    ensures StepPost(env, top, step, path, base, PersistDeferred(env, m2, false))
  {
    NextAllowed(top, step, path, base, m, rs, m2, reply);
    SaveGood(env, top, m2);
    LogsGrow(m.log, m2.log, SnapshotData(env, m2).m.log);
    LogsGrow(base.log, m.log, SnapshotData(env, m2).m.log);
  }

  // ---------- limit ----------

  lemma LimitGood(top: seq<Step>, step: Step, path: Path, base: Machine, m: Machine, rs: RepeatState, m2: Machine)
    requires Asking(top, step, path, base, m, rs)
    requires CalledOnly(top, m, m2) && m2.s == Retained(step, m.s, path, rs.iteration)
    ensures FreshFailure(top, step, path, base, m2, Plain)
  {
    hide LogGood, StepPlug;
    RetainedFacts(top, step, path, m, rs);
    LimitPos(top, step, path, base, m, rs, m2.s);
    RetainedFrame(top, step, path, m, rs, m2.s, Ever(m.log), []);
    FrameTransitive(path, Ever(base.log), base.s, Ever(m.log), m.s, Ever(m2.log), m2.s);
    assert RepeatsMatch(Durable(m2.log), m2.s) by {
      forall p | p in m2.s.repeatStates
        ensures RepeatKept(RepeatAt(Durable(m.log), p), m2.s.repeatStates[p])
      {
        assert p in m.s.repeatStates;
      }
    }
    MarksMatch(top, m2.log, m2.s);
  }

  lemma LimitPos(top: seq<Step>, step: Step, path: Path, base: Machine, m: Machine, rs: RepeatState, s: RunState)
    requires Asking(top, step, path, base, m, rs)
    requires s == Retained(step, m.s, path, rs.iteration)
    ensures StepPos(Ever(m.log), step, path, s)
  {
    RetainedFacts(top, step, path, m, rs);
    LinkedMarks(top, m);
    var ever := Ever(m.log);
    if |s.currentPath| <= |path| {
      assert IsPrefix(path, path);
      forall i | 0 <= i < |s.completedSteps| ensures s.completedSteps[i].path != path {
        assert s.completedSteps[i] in m.s.completedSteps;
        assert Marked(m.s, s.completedSteps[i].path);
      }
      assert Virgin(ever, step, path, s);
    } else {
      forall k: nat | rs.iteration < k ensures Untouched(ever, s, path + [Itoa(k)]) {
        assert Untouched(ever, m.s, path + [Itoa(k)]);
      }
      assert step.kind.compact ==> OnlyIteration(s, path, rs.iteration);
      assert InProgress(ever, step, path, s, rs);
    }
  }

  /** The time limit of a repeat, checked before Until. */
  lemma TimeoutGood(env: Env, top: seq<Step>, step: Step, path: Path, base: Machine, m: Machine, rs: RepeatState)
    requires Asking(top, step, path, base, m, rs)
    ensures StepPost(env, top, step, path, base, RepeatTimeoutFailure(m, step, path))
  {
    AskedStays(top, step, path, base, m, m, rs, TimedOut(RepeatTimeout(step.name, step.kind.maxDuration)));
  }

  /** Until answered: the four continuations of an iteration. */
  lemma AnsweredGood(env: Env, top: seq<Step>, step: Step, path: Path, base: Machine, m: Machine, rs: RepeatState)
    requires Asking(top, step, path, base, m, rs)
    requires !TimedOutAt(step.kind.maxDuration, rs, env.now(m.log))
    requires Invoke(env, m, Until(path, rs.iteration)).reply.Ok?
    ensures StepPost(env, top, step, path, base, FinishIteration(env, step, path, m, rs))
  {
    AskGood(env, top, step, path, base, m, rs);
    var a := Invoke(env, m, Until(path, rs.iteration));
    if a.reply.done {
      DoneGood(env, top, step, path, base, m, rs, a.m.(s := DoneState(step, path, m.s, rs)), a.reply);
    } else if LastIteration(step, rs) {
      LimitGood(top, step, path, base, m, rs, a.m.(s := Retained(step, m.s, path, rs.iteration)));
    } else {
      NextGood(env, top, step, path, base, m, rs, a.m.(s := NextState(step, path, m.s, rs)), a.reply);
    }
  }

  lemma FinishGood(env: Env, top: seq<Step>, step: Step, path: Path, base: Machine, m: Machine, rs: RepeatState)
    requires Asking(top, step, path, base, m, rs)
    ensures StepPost(env, top, step, path, base, FinishIteration(env, step, path, m, rs))
  {
    if TimedOutAt(step.kind.maxDuration, rs, env.now(m.log)) {
      TimeoutGood(env, top, step, path, base, m, rs);
    } else {
      var a := Invoke(env, m, Until(path, rs.iteration));
      if a.reply.Fail? {
        AskGood(env, top, step, path, base, m, rs);
        UntilFailedGood(env, top, step, path, base, m, rs, a.m, a.reply.failure);
      } else {
        AnsweredGood(env, top, step, path, base, m, rs);
      }
    }
  }
}
