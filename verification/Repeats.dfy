/** Repeats: starting the clock, entering an iteration, and the four ways an iteration ends. */
module Repeats {
  import opened Options
  import opened Decimal
  import opened Definition
  import opened State
  import opened Executor
  import opened Journal
  import opened Frames
  import opened Steps
  import opened Leaves

  // ---------- positions depend only on what lies below them ----------

  ghost predicate SameBelow(scope: Path, s: RunState, s': RunState) {
    && s'.currentPath == s.currentPath && s'.completedSteps == s.completedSteps
    && forall p :: IsPrefix(scope, p) ==>
         && (p in s'.repeatStates <==> p in s.repeatStates)
         && (p in s.repeatStates ==> s'.repeatStates[p] == s.repeatStates[p])
  }

  lemma SameDeeper(outer: Path, inner: Path, s: RunState, s': RunState)
    requires outer <= inner && SameBelow(outer, s, s')
    ensures SameBelow(inner, s, s')
  {
    forall q | IsPrefix(inner, q) ensures IsPrefix(outer, q) {
      PrefixTransitive(outer, inner, q);
    }
  }

  lemma UntouchedLocal(ever: iset<Path>, scope: Path, s: RunState, s': RunState)
    requires SameBelow(scope, s, s') && Untouched(ever, s, scope)
    ensures Untouched(ever, s', scope)
  {
  }

  lemma {:induction false} ScopePosLocal(ever: iset<Path>, steps: seq<Step>, scope: Path, s: RunState, s': RunState)
    requires SameBelow(scope, s, s') && ScopePos(ever, steps, scope, s)
    ensures ScopePos(ever, steps, scope, s')
    decreases steps, 1
  {
    var i := Find(steps, s.currentPath[|scope|]).value;
    forall j | i + 1 <= j < |steps| ensures Untouched(ever, s', scope + [steps[j].name]) {
      SameDeeper(scope, scope + [steps[j].name], s, s');
    }
    SameDeeper(scope, scope + [steps[i].name], s, s');
    StepPosLocal(ever, steps[i], scope + [steps[i].name], s, s');
  }

  lemma {:induction false} StepPosLocal(ever: iset<Path>, step: Step, path: Path, s: RunState, s': RunState)
    requires SameBelow(path, s, s') && StepPos(ever, step, path, s)
    ensures StepPos(ever, step, path, s')
    decreases step, 0
  {
    if |s.currentPath| > |path| {
      if step.kind.Branch? {
        var k := FindKey(step.kind.paths, s.currentPath[|path|]).value;
        var scope := path + [step.kind.paths[k].key];
        SameDeeper(path, scope, s, s');
        ChildPosLocal(ever, step.kind.paths[k].steps, scope, s, s');
      } else {
        assert IsPrefix(path, path);
        var rs := s.repeatStates[path];
        InProgressLocal(ever, step, path, s, s', rs);
        if !rs.awaitingCondition {
          var scope := path + [Itoa(rs.iteration)];
          SameDeeper(path, scope, s, s');
          ChildPosLocal(ever, step.kind.steps, scope, s, s');
        }
      }
    }
  }

  lemma InProgressLocal(ever: iset<Path>, step: Step, path: Path, s: RunState, s': RunState, rs: RepeatState)
    requires SameBelow(path, s, s') && step.kind.Repeat? && |s.currentPath| > |path|
    requires InProgress(ever, step, path, s, rs)
    ensures InProgress(ever, step, path, s', rs)
  {
    forall k: nat | rs.iteration < k ensures Untouched(ever, s', path + [Itoa(k)]) {
      SameDeeper(path, path + [Itoa(k)], s, s');
      assert Untouched(ever, s, path + [Itoa(k)]);
    }
    forall p | p in s'.repeatStates && path < p ensures IsPrefix(path, p) {}
  }

  lemma {:induction false} ChildPosLocal(ever: iset<Path>, steps: seq<Step>, scope: Path, s: RunState, s': RunState)
    requires SameBelow(scope, s, s') && ChildPos(ever, steps, scope, s)
    ensures ChildPos(ever, steps, scope, s')
    decreases steps, 2
  {
    if |s.currentPath| <= |scope| {
      UntouchedLocal(ever, scope, s, s');
    } else {
      ScopePosLocal(ever, steps, scope, s, s');
    }
  }

  // ---------- changing the record of one repeat ----------

  lemma RecordFrame(path: Path, ever: iset<Path>, s: RunState, rs: RepeatState)
    ensures FramedBy(path, ever, s, ever, s.(repeatStates := s.repeatStates[path := rs]))
  {
    assert IsPrefix(path, path);
  }

  lemma SameBelowRecord(path: Path, n: nat, s: RunState, rs: RepeatState)
    ensures SameBelow(path + [Itoa(n)], s, s.(repeatStates := s.repeatStates[path := rs]))
  {
    assert !IsPrefix(path + [Itoa(n)], path);
  }

  /** The record in force when this step runs, and that it is its own current iteration. */
  lemma CurrentRecord(top: seq<Step>, step: Step, path: Path, m: Machine)
    requires Due(top, step, path, m) && step.kind.Repeat?
    ensures CurrentIteration(m.s, path) == Some(RepeatAt(m.s, path).iteration)
    ensures !RepeatAt(m.s, path).completed
    ensures path !in Ever(m.log)
    ensures |m.s.currentPath| == |path| ==>
              JustEntered(step, RepeatAt(m.s, path))
    ensures |m.s.currentPath| > |path| ==> path in m.s.repeatStates
  {
    assert IsPrefix(path, path);
    if |m.s.currentPath| > |path| {
      AtoiItoa(m.s.repeatStates[path].iteration);
    }
  }

  /** A new record for the same iteration leaves the position of the repeat good. */
  lemma RecordPos(top: seq<Step>, step: Step, path: Path, m: Machine, rs: RepeatState)
    requires Due(top, step, path, m) && step.kind.Repeat?
    requires rs.iteration == RepeatAt(m.s, path).iteration && !rs.completed
    requires rs.awaitingCondition == RepeatAt(m.s, path).awaitingCondition
    ensures var s := WithRepeat(m, path, rs).s;
      StepPos(Ever(m.log), step, path, s)
      && (|s.currentPath| == |path| ==> Virgin(Ever(m.log), step, path, s))
  {
    CurrentRecord(top, step, path, m);
    LinkedMarks(top, m);
    var s := WithRepeat(m, path, rs).s;
    assert IsCompleted(s, path) ==> Marked(m.s, path);
    if |s.currentPath| > |path| {
      var prior := m.s.repeatStates[path];
      forall k: nat | rs.iteration < k ensures Untouched(Ever(m.log), s, path + [Itoa(k)]) {
        SameBelowRecord(path, k, m.s, rs);
        UntouchedLocal(Ever(m.log), path + [Itoa(k)], m.s, s);
      }
      if !prior.awaitingCondition {
        SameBelowRecord(path, rs.iteration, m.s, rs);
        ChildPosLocal(Ever(m.log), step.kind.steps, path + [Itoa(rs.iteration)], m.s, s);
      }
    } else {
      assert Virgin(Ever(m.log), step, path, s);
    }
  }

  // ---------- starting the clock ----------

  lemma RecordMarks(s: RunState, path: Path, rs: RepeatState)
    requires rs.iteration == RepeatAt(s, path).iteration
    ensures Marks(s.(repeatStates := s.repeatStates[path := rs])) == Marks(s)
  {
    var s' := s.(repeatStates := s.repeatStates[path := rs]);
    forall q ensures Marked(s', q) <==> Marked(s, q) {
      assert IsCompleted(s', q) <==> IsCompleted(s, q);
    }
  }

  lemma SameMarks(s: RunState, s': RunState)
    requires s'.completedSteps == s.completedSteps && s'.repeatStates == s.repeatStates
    ensures Marks(s') == Marks(s)
  {
    forall q ensures Marked(s', q) <==> Marked(s, q) {}
  }

  ghost predicate Started(top: seq<Step>, step: Step, path: Path, m: Machine, r: Result) {
    && LogGood(top, r.m.log) && m.log <= r.m.log
    && (r.err == NoError || r.err == SnapshotFailed)
    && (r.err == NoError ==> Due(top, step, path, r.m) && Framed(path, m, r.m))
  }

  lemma StartAllowed(top: seq<Step>, step: Step, path: Path, m: Machine, rs: RepeatState)
    requires Due(top, step, path, m) && step.kind.Repeat?
    requires RepeatAt(m.s, path).startedAt.None?
    requires rs == RepeatAt(m.s, path).(startedAt := rs.startedAt)
    ensures Allowed(top, m.log, Saved(Candidate(WithRepeat(m, path, rs))))
    ensures Marks(Candidate(WithRepeat(m, path, rs))) <= Ever(m.log)
    ensures RepeatKept(RepeatAt(Durable(m.log), path), rs)
  {
    CurrentRecord(top, step, path, m);
    RecordPos(top, step, path, m, rs);
    LinkedMarks(top, m);
    var w := WithRepeat(m, path, rs);
    var s := Candidate(w);
    RecordMarks(m.s, path, rs);
    SameMarks(w.s, s);
    RecordFrame(path, Ever(m.log), m.s, rs);
    assert FramedBy(path, Ever(m.log), m.s, Ever(m.log), s);
    StepPosLocal(Ever(m.log), step, path, w.s, s);
    assert Ever(m.log) + Marks(s) == Ever(m.log);
    DurableUnstarted(top, step, path, m);
    ForwardAllowed(top, m.log, s);
  }

  lemma DurableUnstarted(top: seq<Step>, step: Step, path: Path, m: Machine)
    requires Due(top, step, path, m) && step.kind.Repeat?
    requires RepeatAt(m.s, path).startedAt.None?
    ensures var was := RepeatAt(Durable(m.log), path);
      was.startedAt.None? && was.iteration == RepeatAt(m.s, path).iteration
  {
    CurrentRecord(top, step, path, m);
    if path !in m.s.repeatStates {
      assert path !in Durable(m.log).repeatStates;
    }
  }

  lemma EnsureStartedGood(env: Env, top: seq<Step>, step: Step, path: Path, m: Machine)
    requires Due(top, step, path, m) && step.kind.Repeat?
    ensures Started(top, step, path, m, EnsureStarted(env, step.kind.maxDuration, path, m))
  {
    if step.kind.maxDuration > 0 && RepeatAt(m.s, path).startedAt.None? {
      var rs := RepeatAt(m.s, path).(startedAt := Some(env.now(m.log)));
      StartAllowed(top, step, path, m, rs);
      var w := WithRepeat(m, path, rs);
      assert Candidate(w) == w.s.(revision := w.s.revision + 1);
      SaveGood(env, top, w);
      if EnsureStarted(env, step.kind.maxDuration, path, m).err == NoError {
        StartedDue(env, top, step, path, m, rs);
      }
    }
  }

  lemma StartedDue(env: Env, top: seq<Step>, step: Step, path: Path, m: Machine, rs: RepeatState)
    requires Due(top, step, path, m) && step.kind.Repeat?
    requires rs == RepeatAt(m.s, path).(startedAt := rs.startedAt)
    requires var w := WithRepeat(m, path, rs); var r := SnapshotData(env, w);
      r.err == NoError && Persisted(top, w, Candidate(w), r) && Marks(Candidate(w)) <= Ever(m.log)
    ensures var r := SnapshotData(env, WithRepeat(m, path, rs));
      Due(top, step, path, r.m) && Framed(path, m, r.m)
  {
    CurrentRecord(top, step, path, m);
    RecordPos(top, step, path, m, rs);
    var w := WithRepeat(m, path, rs);
    var r := SnapshotData(env, w);
    var ever := Ever(m.log);
    RecordFrame(path, ever, m.s, rs);
    assert Ever(r.m.log) == ever;
    assert FramedBy(path, ever, m.s, ever, r.m.s);
    StepPlugKept(top, step, path, ever, m.s, ever, r.m.s);
    StepPosLocal(ever, step, path, w.s, r.m.s);
  }

  // ---------- entering an iteration ----------

  /** The iteration is on record, and its own position is the repeat's. */
  ghost predicate Underway(top: seq<Step>, step: Step, path: Path, m: Machine, rs: RepeatState) {
    && Ready(top, m) && ValidStep(step) && FindStep(top, path) == Some(step)
    && Iterating(Ever(m.log), step, path, m.s, rs.iteration) && m.s.repeatStates[path] == rs
    && StepPlug(top, Ever(m.log), m.s, step, path)
    && path <= m.s.currentPath
  }

  lemma VirginIterating(top: seq<Step>, step: Step, path: Path, m: Machine, s: RunState)
    requires Due(top, step, path, m) && step.kind.Repeat? && |m.s.currentPath| == |path|
    requires s == m.s.(repeatStates := s.repeatStates) && Virgin(Ever(m.log), step, path, s)
    requires path in s.repeatStates
    ensures Iterating(Ever(m.log), step, path, s, 0)
    ensures Untouched(Ever(m.log), s, path + [Itoa(0)])
  {
    LinkedMarks(top, m);
    var ever := Ever(m.log);
    assert IsPrefix(path, path);
    forall k: nat ensures Untouched(ever, s, path + [Itoa(k)]) {
      forall p | IsPrefix(path + [Itoa(k)], p) ensures p !in ever && p !in s.repeatStates {
        PrefixTransitive(path, path + [Itoa(k)], p);
      }
    }
    assert IsPrefix(path + [Itoa(0)], path + [Itoa(0)]);
    forall i | 0 <= i < |s.completedSteps| ensures !IsPrefix(path, s.completedSteps[i].path) {
      assert Marked(m.s, s.completedSteps[i].path);
    }
  }

  lemma EnteredUnderway(top: seq<Step>, step: Step, path: Path, m: Machine, rs: RepeatState)
    requires Due(top, step, path, m) && step.kind.Repeat?
    requires rs == RepeatAt(m.s, path)
    ensures var e := WithRepeat(m, path, rs);
      && Underway(top, step, path, e, rs) && Framed(path, m, e)
      && StepPos(Ever(m.log), step, path, e.s)
      && (|e.s.currentPath| == |path| ==>
            JustEntered(step, rs) && Untouched(Ever(m.log), e.s, path + [Itoa(rs.iteration)])
            && Virgin(Ever(m.log), step, path, e.s))
  {
    CurrentRecord(top, step, path, m);
    RecordPos(top, step, path, m, rs);
    var e := WithRepeat(m, path, rs);
    RecordFrame(path, Ever(m.log), m.s, rs);
    StepPlugKept(top, step, path, Ever(m.log), m.s, Ever(m.log), e.s);
    if |m.s.currentPath| == |path| {
      VirginIterating(top, step, path, m, e.s);
    }
    EnteredLinked(top, step, path, m, rs);
  }

  lemma EnteredLinked(top: seq<Step>, step: Step, path: Path, m: Machine, rs: RepeatState)
    requires Due(top, step, path, m) && step.kind.Repeat?
    requires rs == RepeatAt(m.s, path)
    ensures Ready(top, WithRepeat(m, path, rs))
  {
    CurrentRecord(top, step, path, m);
    var d := Durable(m.log);
    if path !in m.s.repeatStates {
      assert path !in d.repeatStates;
    }
    assert RepeatKept(RepeatAt(d, path), rs);
  }

  // ---------- finishing an iteration ----------

  /** The children are done: Until is next. base is the configuration the step started from. */
  ghost predicate Asking(top: seq<Step>, step: Step, path: Path, base: Machine, m: Machine, rs: RepeatState) {
    && Underway(top, step, path, m, rs) && Framed(path, base, m)
    && rs.awaitingCondition
    && StepPos(Ever(m.log), step, path, m.s)
    && (|m.s.currentPath| == |path| ==> Virgin(Ever(m.log), step, path, m.s))
  }

  lemma AskGood(env: Env, top: seq<Step>, step: Step, path: Path, base: Machine, m: Machine, rs: RepeatState)
    requires Asking(top, step, path, base, m, rs)
    ensures Quiet(top, path, m, Invoke(env, m, Until(path, rs.iteration)).m)
    ensures var a := Invoke(env, m, Until(path, rs.iteration));
      a.m.log == m.log + [Called(Until(path, rs.iteration), a.reply)]
  {
    var d := Durable(m.log);
    assert RepeatKept(RepeatAt(d, path), m.s.repeatStates[path]);
    InvokeGood(env, top, m, Until(path, rs.iteration));
  }

  /** Nothing more is done about this iteration: its state may be saved, or the step may fail. */
  lemma AskedStays(top: seq<Step>, step: Step, path: Path, base: Machine, m: Machine, m2: Machine,
                   rs: RepeatState, cause: Cause)
    requires Asking(top, step, path, base, m, rs)
    requires CalledOnly(top, m, m2) && m2.s == m.s
    ensures FreshFailure(top, step, path, base, m2, cause)
    ensures Allowed(top, m2.log, Saved(Candidate(m2)))
  {
    LinkedMarks(top, m);
    var s, ever := Candidate(m2), Ever(m.log);
    SameMarks(m.s, s);
    assert ever + Marks(s) == ever;
    assert FramedBy(path, ever, m.s, ever, s);
    StepPosLocal(ever, step, path, m.s, s);
    ForwardAllowed(top, m2.log, s);
  }

  lemma UntilFailedGood(env: Env, top: seq<Step>, step: Step, path: Path, base: Machine, m: Machine,
                        rs: RepeatState, m2: Machine, failure: Failure)
    requires Asking(top, step, path, base, m, rs)
    requires CalledOnly(top, m, m2) && m2.s == m.s
    ensures StepPost(env, top, step, path, base, CallbackFailed(env, m2, path, failure, false))
  {
    AskedStays(top, step, path, base, m, m2, rs, CauseOf(failure));
    SaveGood(env, top, m2);
  }

  // ---------- compaction ----------

  lemma {:induction false} OutsideKeeps(cs: seq<CompletedStep>, p: Path)
    ensures forall e :: e in Outside(cs, p) <==> e in cs && !IsPrefix(p, e.path)
  {
    if cs != [] {
      OutsideKeeps(cs[..|cs| - 1], p);
      assert cs == cs[..|cs| - 1] + [cs[|cs| - 1]];
    }
  }

  lemma {:induction false} OutsideJournal(top: seq<Step>, cs: seq<CompletedStep>, p: Path)
    requires JournalOK(top, cs)
    ensures JournalOK(top, Outside(cs, p))
  {
    if cs != [] {
      var rest, last := cs[..|cs| - 1], cs[|cs| - 1];
      OutsideJournal(top, rest, p);
      OutsideKeeps(rest, p);
      forall i | 0 <= i < |Outside(rest, p)| ensures Outside(rest, p)[i].path != last.path {
        assert Outside(rest, p)[i] in rest;
      }
    }
  }

  /** Dropping everything below inner first changes nothing about what lies outside outer. */
  lemma {:induction false} OutsideTwice(cs: seq<CompletedStep>, inner: Path, outer: Path)
    requires outer <= inner
    ensures Outside(Outside(cs, inner), outer) == Outside(cs, outer)
  {
    if cs != [] {
      var rest, last := cs[..|cs| - 1], cs[|cs| - 1];
      OutsideTwice(rest, inner, outer);
      PrefixTransitive(outer, inner, last.path);
      if !IsPrefix(inner, last.path) {
        assert (Outside(rest, inner) + [last])[..|Outside(rest, inner)|] == Outside(rest, inner);
      }
    }
  }

  lemma RetainedFacts(top: seq<Step>, step: Step, path: Path, m: Machine, rs: RepeatState)
    requires Underway(top, step, path, m, rs)
    ensures var s := Retained(step, m.s, path, rs.iteration);
      && s == m.s.(completedSteps := s.completedSteps, repeatStates := s.repeatStates)
      && JournalOK(top, s.completedSteps)
      && (forall e :: e in s.completedSteps ==> e in m.s.completedSteps)
      && (forall p :: p in s.repeatStates ==> p in m.s.repeatStates && s.repeatStates[p] == m.s.repeatStates[p])
      && path in s.repeatStates
      && (forall p :: p in m.s.repeatStates && !IsPrefix(path, p) ==> p in s.repeatStates)
      && (forall p :: p <= path ==> Outside(s.completedSteps, p) == Outside(m.s.completedSteps, p))
      && (step.kind.compact ==> NothingBelow(s, path))
  {
    LinkedMarks(top, m);
    var scope := path + [Itoa(rs.iteration)];
    if step.kind.compact {
      OutsideJournal(top, m.s.completedSteps, scope);
      OutsideKeeps(m.s.completedSteps, scope);
      forall p | p <= path ensures Outside(Outside(m.s.completedSteps, scope), p) == Outside(m.s.completedSteps, p) {
        OutsideTwice(m.s.completedSteps, scope, p);
      }
      forall p | p in m.s.repeatStates && !IsPrefix(path, p) ensures !IsPrefix(scope, p) {
        PrefixTransitive(path, scope, p);
      }
      assert !IsPrefix(scope, path);
      RetainedNothing(step, path, m, rs);
    }
  }

  lemma RetainedNothing(step: Step, path: Path, m: Machine, rs: RepeatState)
    requires step.kind.Repeat? && OnlyIteration(m.s, path, rs.iteration)
    ensures NothingBelow(CompactState(m.s, path, rs.iteration), path)
  {
    var scope := path + [Itoa(rs.iteration)];
    var s := CompactState(m.s, path, rs.iteration);
    OutsideKeeps(m.s.completedSteps, scope);
    forall i | 0 <= i < |s.completedSteps| ensures !(path < s.completedSteps[i].path) {
      var e := s.completedSteps[i];
      assert e in s.completedSteps;
      PrefixExtend(path, Itoa(rs.iteration), e.path);
    }
    forall p | p in s.repeatStates ensures !(path < p) {
      PrefixExtend(path, Itoa(rs.iteration), p);
    }
  }
}
