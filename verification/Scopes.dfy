/** The induction over the step tree: executing any scope or step keeps the log good. */
module Scopes {
  import opened Options
  import opened Decimal
  import opened Definition
  import opened State
  import opened Executor
  import opened Journal
  import opened Frames
  import opened Steps
  import opened Leaves
  import opened Repeats
  import opened Iterations
  import opened Rollback

  // ---------- locating steps ----------

  /** Full paths below scope lead to the same steps as paths within it. */
  ghost predicate Located(top: seq<Step>, scope: Path, steps: seq<Step>) {
    forall q :: q != [] ==> FindStep(top, scope + q) == FindStep(steps, q)
  }

  ghost predicate StepLocated(top: seq<Step>, step: Step, path: Path) {
    forall q :: FindStep(top, path + q) == FindStep([step], [step.name] + q)
  }

  lemma LocateStep(top: seq<Step>, scope: Path, steps: seq<Step>, i: nat)
    requires Located(top, scope, steps) && DistinctNames(steps) && i < |steps|
    ensures StepLocated(top, steps[i], scope + [steps[i].name])
    ensures FindStep(top, scope + [steps[i].name]) == Some(steps[i])
  {
    var step := steps[i];
    FindSelf(steps, i);
    forall q ensures FindStep(top, scope + [step.name] + q) == FindStep([step], [step.name] + q) {
      assert scope + [step.name] + q == scope + ([step.name] + q);
      var below := [step.name] + q;
      assert FindStep(steps, below) == FindStep([step], below);
    }
    assert scope + [step.name] + [] == scope + [step.name];
    assert FindStep([step], [step.name] + []) == Some(step);
  }

  lemma LocateBranch(top: seq<Step>, step: Step, path: Path, k: nat)
    requires StepLocated(top, step, path) && step.kind.Branch? && ValidStep(step) && k < |step.kind.paths|
    ensures Located(top, path + [step.kind.paths[k].key], step.kind.paths[k].steps)
  {
    var key := step.kind.paths[k].key;
    assert FindKey(step.kind.paths, key) == Some(k);
    forall q | q != [] ensures FindStep(top, path + [key] + q) == FindStep(step.kind.paths[k].steps, q) {
      assert path + [key] + q == path + ([key] + q);
      var below := [step.name] + ([key] + q);
      assert below[2..] == q;
    }
  }

  lemma LocateRepeat(top: seq<Step>, step: Step, path: Path, n: nat)
    requires StepLocated(top, step, path) && step.kind.Repeat?
    ensures Located(top, path + [Itoa(n)], step.kind.steps)
  {
    AtoiItoa(n);
    forall q | q != [] ensures FindStep(top, path + [Itoa(n)] + q) == FindStep(step.kind.steps, q) {
      assert path + [Itoa(n)] + q == path + ([Itoa(n)] + q);
      var below := [step.name] + ([Itoa(n)] + q);
      assert below[2..] == q;
    }
  }

  // ---------- contracts of a scope ----------

  ghost predicate ScopeReady(top: seq<Step>, steps: seq<Step>, i: nat, scope: Path, m: Machine, first: bool) {
    && Ready(top, m)
    && ValidSteps(steps) && Located(top, scope, steps)
    && ScopePlug(top, Ever(m.log), m.s, steps, scope)
    && i <= |steps|
    && if first && scope < m.s.currentPath then
         ScopePos(Ever(m.log), steps, scope, m.s) && Find(steps, m.s.currentPath[|scope|]) == Some(i)
       else Later(Ever(m.log), steps, i, scope, m.s)
  }

  ghost predicate ScopeFrame(scope: Path, m: Machine, m': Machine) {
    m.log <= m'.log && FramedScope(scope, Ever(m.log), m.s, Ever(m'.log), m'.s)
  }

  ghost predicate ScopePost(env: Env, top: seq<Step>, scope: Path, m: Machine, r: Result, empty: bool) {
    && LogGood(top, r.m.log) && m.log <= r.m.log
    && match r.err
       case NoError =>
         if r.m.s.status == Running then
           Ready(top, r.m) && ScopeFrame(scope, m, r.m)
           && (scope < r.m.s.currentPath || (empty && r.m == m))
         else r.m.s == Durable(r.m.log) && r.m.s.status == Failed
       case SnapshotFailed => true
       case Cancelled => env.cancelled(r.m.log)
       case Continue => r.m.s == Durable(r.m.log)
       case CompensationFailed => r.m.s == Durable(r.m.log) && r.m.s.status == Compensating
       case StepFailed(failed, _) => Handled(r.m, failed, |scope|)
       case _ => false
  }

  // ---------- errors ----------

  /** Saving a failure that must not be compensated. */
  lemma UncompensatedGood(env: Env, top: seq<Step>, step: Step, path: Path, m: Machine, m2: Machine)
    requires StepPlug(top, Ever(m.log), m.s, step, path)
    requires LogGood(top, m2.log)
    requires FreshFailure(top, step, path, m, m2, Uncompensated)
    ensures var r := SnapshotData(env, m2.(s := m2.s.(failedStepPath := path)));
      && LogGood(top, r.m.log) && m2.log <= r.m.log
      && (r.err == NoError || r.err == SnapshotFailed)
      && (r.err == NoError ==> r.m.s == Durable(r.m.log) && r.m.s.status == Running)
  {
    var noted := m2.(s := m2.s.(failedStepPath := path));
    var s, ever := Candidate(noted), Ever(m2.log);
    SameMarks(m2.s, s);
    assert ever + Marks(s) == ever;
    StepPlugKept(top, step, path, Ever(m.log), m.s, ever, m2.s);
    assert FramedBy(path, ever, m2.s, ever, s);
    StepPosLocal(ever, step, path, m2.s, s);
    PluggedAllowed(top, step, path, m2.s, m2.log, s);
    SaveGood(env, top, noted);
  }

  lemma HandleFresh(env: Env, top: seq<Step>, step: Step, scope: Path, m: Machine, m2: Machine, path: Path, cause: Cause)
    requires path == scope + [step.name]
    requires StepPlug(top, Ever(m.log), m.s, step, path)
    requires LogGood(top, m2.log) && m.log <= m2.log
    requires FreshFailure(top, step, path, m, m2, cause)
    ensures ScopePost(env, top, scope, m, HandleError(env, top, m2, StepFailed(path, cause), path), false)
  {
    if !env.cancelled(m2.log) {
      if cause == Uncompensated {
        UncompensatedGood(env, top, step, path, m, m2);
      } else {
        EnterGood(env, top, m2, path, cause, StepFailed(path, cause));
      }
    }
  }

  /** Whatever a failing step left behind, its scope leaves the log good. */
  lemma HandleGood(env: Env, top: seq<Step>, step: Step, scope: Path, m: Machine, r: Result)
    requires var path := scope + [step.name];
      && StepPlug(top, Ever(m.log), m.s, step, path)
      && StepPost(env, top, step, path, m, r) && r.err != NoError
    ensures ScopePost(env, top, scope, m, HandleError(env, top, r.m, r.err, scope + [step.name]), false)
  {
    var path := scope + [step.name];
    if r.err.StepFailed? && r.err.path == path {
      HandleFresh(env, top, step, scope, m, r.m, path, r.err.cause);
    }
  }

  // ---------- the first step of a scope ----------

  /** The step at i may be executed. */
  lemma EnterStep(top: seq<Step>, steps: seq<Step>, i: nat, scope: Path, m: Machine, resume: Path, first: bool)
    requires ScopeReady(top, steps, i, scope, m, first) && i < |steps|
    requires first ==> resume == m.s.currentPath
    requires var path := scope + [steps[i].name];
      !(first && path == resume && IsCompleted(m.s, path))
    ensures var path := scope + [steps[i].name]; var e := Enter(m, path, resume, first);
      && Due(top, steps[i], path, e)
      && Later(Ever(e.log), steps, i + 1, scope, e.s)
  {
    var path := scope + [steps[i].name];
    var e := Enter(m, path, resume, first);
    var ever := Ever(m.log);
    LocateStep(top, scope, steps, i);
    LinkedMarks(top, m);
    EnterPos(top, steps, i, scope, m, resume, first);
    StepOfScope(top, ever, m.s, steps, i, scope);
    assert FramedBy(path, ever, m.s, ever, e.s);
    StepPlugKept(top, steps[i], path, ever, m.s, ever, e.s);
  }

  lemma EnterPos(top: seq<Step>, steps: seq<Step>, i: nat, scope: Path, m: Machine, resume: Path, first: bool)
    requires ScopeReady(top, steps, i, scope, m, first) && i < |steps|
    requires first ==> resume == m.s.currentPath
    requires var path := scope + [steps[i].name];
      !(first && path == resume && IsCompleted(m.s, path))
    ensures var path := scope + [steps[i].name]; var e := Enter(m, path, resume, first);
      && path <= e.s.currentPath
      && StepPos(Ever(m.log), steps[i], path, e.s)
      && (|e.s.currentPath| == |path| ==> Virgin(Ever(m.log), steps[i], path, e.s))
      && Later(Ever(m.log), steps, i + 1, scope, m.s)
  {
    hide LogGood;
    var path := scope + [steps[i].name];
    var e := Enter(m, path, resume, first);
    var ever := Ever(m.log);
    if first && scope < m.s.currentPath {
      assert resume[..|scope| + 1] == path;
      assert e.s.currentPath == resume;
      StepPosLocal(ever, steps[i], path, m.s, e.s);
    } else {
      PrefixTransitive(scope, path, resume);
      LinkedMarks(top, m);
      assert Untouched(ever, m.s, path) && IsPrefix(path, path);
      assert IsCompleted(e.s, path) ==> Marked(m.s, path);
      assert Virgin(ever, steps[i], path, e.s);
    }
  }

  /** After the step at i, the scope goes on with the step after it. */
  lemma NextStep(top: seq<Step>, steps: seq<Step>, i: nat, scope: Path, m: Machine, e: Machine, m': Machine)
    requires ValidSteps(steps) && Located(top, scope, steps) && i < |steps|
    requires ScopePlug(top, Ever(m.log), m.s, steps, scope)
    requires e == m.(s := m.s.(currentPath := e.s.currentPath))
    requires Later(Ever(e.log), steps, i + 1, scope, e.s)
    requires Ready(top, m') && Framed(scope + [steps[i].name], e, m')
    ensures ScopeReady(top, steps, i + 1, scope, m', false)
    ensures ScopeFrame(scope, m, m')
  {
    var path := scope + [steps[i].name];
    LaterKept(steps, i, scope, Ever(e.log), e.s, Ever(m'.log), m'.s);
    FrameWeaken(scope, path, Ever(e.log), e.s, Ever(m'.log), m'.s);
    assert !IsPrefix(path, scope);
    assert FramedScope(scope, Ever(m.log), m.s, Ever(m'.log), m'.s);
    ScopePlugKept(top, steps, scope, Ever(m.log), m.s, Ever(m'.log), m'.s);
  }

  // ---------- the ways a scope ends without executing a further step ----------

  lemma EmptyGood(env: Env, top: seq<Step>, steps: seq<Step>, i: nat, scope: Path, m: Machine, first: bool)
    requires ScopeReady(top, steps, i, scope, m, first) && i >= |steps|
    ensures ScopePost(env, top, scope, m, Result(m, NoError), true)
  {
    assert FramedScope(scope, Ever(m.log), m.s, Ever(m.log), m.s);
  }

  lemma CancelGood(env: Env, top: seq<Step>, steps: seq<Step>, i: nat, scope: Path, m: Machine, first: bool, path: Path)
    requires ScopeReady(top, steps, i, scope, m, first) && env.cancelled(m.log)
    ensures ScopePost(env, top, scope, m,
                      Result(m.(s := m.s.(data := m.data, currentPath := path)), Cancelled), i >= |steps|)
  {
  }

  /** The run ended in a scope below, which had failed and been rolled back. */
  lemma OverGood(env: Env, top: seq<Step>, step: Step, scope: Path, m: Machine, r: Result)
    requires StepPost(env, top, step, scope + [step.name], m, r)
    requires r.err == NoError && r.m.s.status != Running
    ensures ScopePost(env, top, scope, m, r, false)
  {
    hide LogGood, Ready, Marks, Handled, Durable, JournalOK;
  }

  /** Where the step was entered does not matter to what its scope guarantees. */
  lemma Rebase(env: Env, top: seq<Step>, scope: Path, m: Machine, e: Machine, r: Result)
    requires e == m.(s := m.s.(currentPath := e.s.currentPath))
    requires ScopePost(env, top, scope, e, r, false)
    ensures ScopePost(env, top, scope, m, r, false)
  {
  }

  lemma ReadyStep(top: seq<Step>, steps: seq<Step>, i: nat, scope: Path, m: Machine, first: bool)
    requires ScopeReady(top, steps, i, scope, m, first) && i < |steps|
    ensures StepLocated(top, steps[i], scope + [steps[i].name])
  {
    LocateStep(top, scope, steps, i);
  }

  lemma DueParts(top: seq<Step>, step: Step, path: Path, m: Machine)
    requires Due(top, step, path, m)
    ensures StepPlug(top, Ever(m.log), m.s, step, path)
  {
  }

  lemma JoinScopes(env: Env, top: seq<Step>, scope: Path, m: Machine, mid: Machine, r: Result, empty: bool)
    requires ScopeFrame(scope, m, mid) && scope < mid.s.currentPath
    requires ScopePost(env, top, scope, mid, r, empty)
    ensures ScopePost(env, top, scope, m, r, false)
  {
    if r.err == NoError && r.m.s.status == Running {
      FrameTransitive(scope, Ever(m.log), m.s, Ever(mid.log), mid.s, Ever(r.m.log), r.m.s);
    }
  }

  // ---------- scopes inside steps ----------

  lemma ChildReady(top: seq<Step>, steps: seq<Step>, scope: Path, m: Machine)
    requires Ready(top, m) && ValidSteps(steps) && Located(top, scope, steps)
    requires ScopePlug(top, Ever(m.log), m.s, steps, scope)
    requires ChildPos(Ever(m.log), steps, scope, m.s)
    ensures var i := if |m.s.currentPath| > |scope| then StartIndex(steps, m.s.currentPath[|scope|]) else 0;
      ScopeReady(top, steps, i, scope, m, true)
  {
    if |m.s.currentPath| <= |scope| {
      forall j | 0 <= j < |steps| ensures Untouched(Ever(m.log), m.s, scope + [steps[j].name]) {
        UntouchedBelow(Ever(m.log), m.s, scope, scope + [steps[j].name]);
      }
    }
  }

  /** What a scope guarantees is what its step guarantees, when the scope is all the step does. */
  lemma ScopeIsStep(env: Env, top: seq<Step>, step: Step, path: Path, part: string, base: Machine, m: Machine,
                    r: Result, empty: bool)
    requires Framed(path, base, m) && path <= m.s.currentPath
    requires ScopePost(env, top, path + [part], m, r, empty)
    ensures StepPost(env, top, step, path, base, r)
  {
    var scope := path + [part];
    if r.err == NoError && r.m.s.status == Running {
      FrameWeaken(path, scope, Ever(m.log), m.s, Ever(r.m.log), r.m.s);
      FrameTransitive(path, Ever(base.log), base.s, Ever(m.log), m.s, Ever(r.m.log), r.m.s);
      PrefixTransitive(path, scope, r.m.s.currentPath);
    }
  }

  lemma BranchResumes(top: seq<Step>, step: Step, path: Path, m: Machine)
    requires Due(top, step, path, m) && StepLocated(top, step, path)
    requires step.kind.Branch? && |m.s.currentPath| > |path|
    ensures var f := FindKey(step.kind.paths, m.s.currentPath[|path|]);
      && f.Some?
      && var steps := step.kind.paths[f.value].steps;
      ScopeReady(top, steps, ChildIndex(steps, m.s, path), path + [step.kind.paths[f.value].key], m, true)
  {
    var k := FindKey(step.kind.paths, m.s.currentPath[|path|]).value;
    LocateBranch(top, step, path, k);
    BranchScope(top, Ever(m.log), m.s, step, path, k);
    ChildReady(top, step.kind.paths[k].steps, path + [step.kind.paths[k].key], m);
  }

  lemma BranchEnters(top: seq<Step>, step: Step, path: Path, k: nat, m: Machine, m': Machine)
    requires StepLocated(top, step, path) && ValidStep(step)
    requires step.kind.Branch? && k < |step.kind.paths| && Chosen(top, step, path, k, m, m')
    ensures ScopeReady(top, step.kind.paths[k].steps, 0, path + [step.kind.paths[k].key], m', true)
  {
    LocateBranch(top, step, path, k);
    ChildReady(top, step.kind.paths[k].steps, path + [step.kind.paths[k].key], m');
  }

  /** A repeat past its limit fails before anything else happens. */
  lemma DueFails(top: seq<Step>, step: Step, path: Path, base: Machine, m: Machine, cause: Cause)
    requires Due(top, step, path, m) && Framed(path, base, m)
    ensures FreshFailure(top, step, path, base, m, cause)
  {
    LinkedMarks(top, m);
  }

  lemma IterationReady(top: seq<Step>, step: Step, path: Path, m: Machine, rs: RepeatState)
    requires Due(top, step, path, m) && StepLocated(top, step, path) && step.kind.Repeat?
    requires rs == RepeatAt(m.s, path) && !rs.awaitingCondition
    ensures var e := WithRepeat(m, path, rs);
      ScopeReady(top, step.kind.steps, ChildIndex(step.kind.steps, m.s, path), path + [Itoa(rs.iteration)], e, true)
  {
    var e := WithRepeat(m, path, rs);
    EnteredUnderway(top, step, path, m, rs);
    LocateRepeat(top, step, path, rs.iteration);
    RepeatScope(top, Ever(m.log), e.s, step, path, rs.iteration);
    ChildReady(top, step.kind.steps, path + [Itoa(rs.iteration)], e);
  }

  lemma EnteredAsking(top: seq<Step>, step: Step, path: Path, base: Machine, m: Machine, rs: RepeatState)
    requires Due(top, step, path, m) && step.kind.Repeat? && Framed(path, base, m)
    requires rs == RepeatAt(m.s, path) && rs.awaitingCondition
    ensures Asking(top, step, path, base, WithRepeat(m, path, rs), rs)
  {
    EnteredUnderway(top, step, path, m, rs);
    var e := WithRepeat(m, path, rs);
    FrameTransitive(path, Ever(base.log), base.s, Ever(m.log), m.s, Ever(e.log), e.s);
  }

  lemma ChildrenFrame(top: seq<Step>, step: Step, path: Path, base: Machine, m: Machine, rs: RepeatState,
                      c: Result, due: RepeatState)
    requires Due(top, step, path, m) && step.kind.Repeat? && Framed(path, base, m)
    requires rs == RepeatAt(m.s, path) && due == rs.(awaitingCondition := true)
    requires Ready(top, c.m)
    requires ScopeFrame(path + [Itoa(rs.iteration)], WithRepeat(m, path, rs), c.m)
    ensures var w := WithRepeat(c.m, path, due);
      && Framed(path, base, w)
      && StepPlug(top, Ever(w.log), w.s, step, path)
  {
    var e := WithRepeat(m, path, rs);
    var w := WithRepeat(c.m, path, due);
    RecordFrame(path, Ever(m.log), m.s, rs);
    FrameWeaken(path, path + [Itoa(rs.iteration)], Ever(e.log), e.s, Ever(c.m.log), c.m.s);
    RecordFrame(path, Ever(c.m.log), c.m.s, due);
    FrameTransitive(path, Ever(m.log), m.s, Ever(e.log), e.s, Ever(c.m.log), c.m.s);
    FrameTransitive(path, Ever(m.log), m.s, Ever(c.m.log), c.m.s, Ever(w.log), w.s);
    FrameTransitive(path, Ever(base.log), base.s, Ever(m.log), m.s, Ever(w.log), w.s);
    StepPlugKept(top, step, path, Ever(m.log), m.s, Ever(w.log), w.s);
  }

  /** The position of a repeat whose iteration awaits its condition. */
  lemma AwaitingPos(env: Env, top: seq<Step>, step: Step, path: Path, m: Machine, rs: RepeatState, c: Result, empty: bool)
    requires Due(top, step, path, m) && step.kind.Repeat?
    requires rs == RepeatAt(m.s, path) && !rs.awaitingCondition
    requires ScopePost(env, top, path + [Itoa(rs.iteration)], WithRepeat(m, path, rs), c, empty)
    requires c.err == NoError && c.m.s.status == Running
    requires empty ==> |m.s.currentPath| > |path| || step.kind.steps == []
    requires Iterating(Ever(c.m.log), step, path, c.m.s, rs.iteration)
    ensures var w := WithRepeat(c.m, path, rs.(awaitingCondition := true));
      && StepPos(Ever(w.log), step, path, w.s)
      && path <= w.s.currentPath
      && Iterating(Ever(w.log), step, path, w.s, rs.iteration)
      && (|w.s.currentPath| == |path| ==> Virgin(Ever(w.log), step, path, w.s))
  {
    var due := rs.(awaitingCondition := true);
    var w := WithRepeat(c.m, path, due);
    var scope := path + [Itoa(rs.iteration)];
    PrefixTransitive(path, scope, c.m.s.currentPath);
    WithRecordIterating(step, path, Ever(c.m.log), c.m.s, due);
    EnteredUnderway(top, step, path, m, rs);
    if scope < c.m.s.currentPath {
      Component(path, Itoa(rs.iteration), c.m.s.currentPath);
    } else if |w.s.currentPath| == |path| {
      assert Virgin(Ever(w.log), step, path, w.s);
      LinkedMarks(top, m);
      assert IsPrefix(path, path);
      assert IsCompleted(w.s, path) ==> Marked(m.s, path);
    }
  }

  lemma WithRecordIterating(step: Step, path: Path, ever: iset<Path>, s: RunState, rs: RepeatState)
    requires Iterating(ever, step, path, s, rs.iteration) && !rs.completed
    ensures Iterating(ever, step, path, s.(repeatStates := s.repeatStates[path := rs]), rs.iteration)
  {
    var s' := s.(repeatStates := s.repeatStates[path := rs]);
    forall k: nat | rs.iteration < k ensures Untouched(ever, s', path + [Itoa(k)]) {
      assert Untouched(ever, s, path + [Itoa(k)]);
      assert !IsPrefix(path + [Itoa(k)], path);
    }
  }

  /** The children finished: the iteration now awaits its condition. */
  lemma ChildrenDone(env: Env, top: seq<Step>, step: Step, path: Path, base: Machine, m: Machine, rs: RepeatState,
                     c: Result, empty: bool)
    requires Due(top, step, path, m) && step.kind.Repeat? && Framed(path, base, m)
    requires rs == RepeatAt(m.s, path) && !rs.awaitingCondition
    requires ScopePost(env, top, path + [Itoa(rs.iteration)], WithRepeat(m, path, rs), c, empty)
    requires c.err == NoError && c.m.s.status == Running
    requires empty ==> |m.s.currentPath| > |path| || step.kind.steps == []
    ensures var due := rs.(awaitingCondition := true);
      Asking(top, step, path, base, WithRepeat(c.m, path, due), due)
  {
    hide StepPos, LogGood, FramedBy;
    var e := WithRepeat(m, path, rs);
    var scope := path + [Itoa(rs.iteration)];
    var due := rs.(awaitingCondition := true);
    EnteredUnderway(top, step, path, m, rs);
    IteratingKept(step, path, rs.iteration, Ever(e.log), e.s, Ever(c.m.log), c.m.s);
    ChildrenFrame(top, step, path, base, m, rs, c, due);
    AwaitingPos(env, top, step, path, m, rs, c, empty);
  }

  // ---------- the induction ----------

  lemma {:induction false} ScopeGood(env: Env, top: seq<Step>, steps: seq<Step>, i: nat, scope: Path, m: Machine,
                                     resume: Path, first: bool)
    requires ScopeReady(top, steps, i, scope, m, first)
    requires first ==> resume == m.s.currentPath
    ensures ScopePost(env, top, scope, m, ExecSteps(env, top, steps, i, scope, m, resume, first), i >= |steps|)
    decreases steps, 1, |steps| - i, 1
  {
    hide ScopeReady, ScopePost, StepPost, Due, StepPlug, StepLocated, Later;
    if i >= |steps| {
      EmptyGood(env, top, steps, i, scope, m, first);
    } else {
      var path := scope + [steps[i].name];
      if first && path == resume && IsCompleted(m.s, path) {
        SkipGood(env, top, steps, i, scope, m, resume);
      } else if env.cancelled(m.log) {
        CancelGood(env, top, steps, i, scope, m, first, path);
      } else {
        EnterStep(top, steps, i, scope, m, resume, first);
        var e := Enter(m, path, resume, first);
        ReadyStep(top, steps, i, scope, m, first);
        StepGood(env, top, steps[i], path, e);
        var r := ExecStep(env, top, steps[i], path, e);
        if r.err != NoError {
          DueParts(top, steps[i], path, e);
          HandleGood(env, top, steps[i], scope, e, r);
          Rebase(env, top, scope, m, e, HandleError(env, top, r.m, r.err, path));
        } else if r.m.s.status == Running {
          AdvanceGood(env, top, steps, i, scope, m, first, e, r, resume);
        } else {
          OverGood(env, top, steps[i], scope, e, r);
          Rebase(env, top, scope, m, e, r);
        }
      }
    }
  }

  lemma {:induction false} SkipGood(env: Env, top: seq<Step>, steps: seq<Step>, i: nat, scope: Path, m: Machine,
                                    resume: Path)
    requires ScopeReady(top, steps, i, scope, m, true) && i < |steps|
    requires resume == m.s.currentPath == scope + [steps[i].name]
    ensures ScopePost(env, top, scope, m, ExecSteps(env, top, steps, i + 1, scope, m, resume, false), false)
    decreases steps, 1, |steps| - i, 0
  {
    ScopeGood(env, top, steps, i + 1, scope, m, resume, false);
    assert FramedScope(scope, Ever(m.log), m.s, Ever(m.log), m.s);
    JoinScopes(env, top, scope, m, m,
               ExecSteps(env, top, steps, i + 1, scope, m, resume, false), i + 1 >= |steps|);
  }

  lemma {:induction false} AdvanceGood(env: Env, top: seq<Step>, steps: seq<Step>, i: nat, scope: Path, m: Machine,
                                       first: bool, e: Machine, r: Result, resume: Path)
    requires ScopeReady(top, steps, i, scope, m, first) && i < |steps|
    requires e == m.(s := m.s.(currentPath := e.s.currentPath))
    requires Later(Ever(e.log), steps, i + 1, scope, e.s)
    requires StepPost(env, top, steps[i], scope + [steps[i].name], e, r)
    requires r.err == NoError && r.m.s.status == Running
    ensures ScopePost(env, top, scope, m, ExecSteps(env, top, steps, i + 1, scope, r.m, resume, false), false)
    decreases steps, 1, |steps| - i, 0
  {
    NextStep(top, steps, i, scope, m, e, r.m);
    ScopeGood(env, top, steps, i + 1, scope, r.m, resume, false);
    PrefixTransitive(scope, scope + [steps[i].name], r.m.s.currentPath);
    JoinScopes(env, top, scope, m, r.m,
               ExecSteps(env, top, steps, i + 1, scope, r.m, resume, false), i + 1 >= |steps|);
  }

  lemma {:induction false} StepGood(env: Env, top: seq<Step>, step: Step, path: Path, m: Machine)
    requires Due(top, step, path, m) && StepLocated(top, step, path)
    ensures StepPost(env, top, step, path, m, ExecStep(env, top, step, path, m))
    decreases step, 0, 1
  {
    match step.kind
    case Action(_, _) => ActionGood(env, top, step, path, m);
    case Poll(_) => PollGood(env, top, step, path, m);
    case Branch(_) => BranchGood(env, top, step, path, m);
    case Repeat(_, _, _, _) => RepeatGood(env, top, step, path, m);
  }

  lemma {:induction false} BranchGood(env: Env, top: seq<Step>, step: Step, path: Path, m: Machine)
    requires Due(top, step, path, m) && StepLocated(top, step, path) && step.kind.Branch?
    ensures StepPost(env, top, step, path, m, ExecStep(env, top, step, path, m))
    decreases step, 0, 0
  {
    if |m.s.currentPath| > |path| {
      BranchResumes(top, step, path, m);
      var k := FindKey(step.kind.paths, m.s.currentPath[|path|]).value;
      var steps := step.kind.paths[k].steps;
      var scope := path + [step.kind.paths[k].key];
      var i := ChildIndex(steps, m.s, path);
      ScopeGood(env, top, steps, i, scope, m, m.s.currentPath, true);
      ScopeIsStep(env, top, step, path, step.kind.paths[k].key, m, m,
                  ExecScope(env, top, steps, i, scope, m), i >= |steps|);
    } else {
      DecideGood(env, top, step, path, m);
      var d := DecideBranch(env, step.kind.paths, path, m);
      if d.Entered? {
        BranchEnters(top, step, path, d.index, m, d.m);
        var steps := step.kind.paths[d.index].steps;
        var scope := path + [step.kind.paths[d.index].key];
        ScopeGood(env, top, steps, 0, scope, d.m, d.m.s.currentPath, true);
        ScopeIsStep(env, top, step, path, step.kind.paths[d.index].key, m, d.m,
                    ExecScope(env, top, steps, 0, scope, d.m), 0 >= |steps|);
      }
    }
  }

  lemma {:induction false} RepeatGood(env: Env, top: seq<Step>, step: Step, path: Path, m: Machine)
    requires Due(top, step, path, m) && StepLocated(top, step, path) && step.kind.Repeat?
    ensures StepPost(env, top, step, path, m, ExecStep(env, top, step, path, m))
    decreases step, 0, 0
  {
    EnsureStartedGood(env, top, step, path, m);
    var r := EnsureStarted(env, step.kind.maxDuration, path, m);
    if r.err == NoError {
      var rs := RepeatAt(r.m.s, path);
      CurrentRecord(top, step, path, r.m);
      if TimedOutAt(step.kind.maxDuration, rs, env.now(r.m.log)) {
        DueFails(top, step, path, m, r.m, TimedOut(RepeatTimeout(step.name, step.kind.maxDuration)));
      } else if rs.awaitingCondition {
        EnteredAsking(top, step, path, m, r.m, rs);
        FinishGood(env, top, step, path, m, WithRepeat(r.m, path, rs), rs);
      } else {
        IterationGood(env, top, step, path, m, r.m, rs);
      }
    }
  }

  lemma {:induction false} IterationGood(env: Env, top: seq<Step>, step: Step, path: Path, base: Machine,
                                         m: Machine, rs: RepeatState)
    requires Due(top, step, path, m) && StepLocated(top, step, path) && step.kind.Repeat?
    requires Framed(path, base, m)
    requires rs == RepeatAt(m.s, path) && !rs.awaitingCondition
    ensures StepPost(env, top, step, path, base, RunIteration(env, top, step, path, m, rs))
    decreases step, 0, 0, 0
  {
    IterationReady(top, step, path, m, rs);
    var e := WithRepeat(m, path, rs);
    var scope := path + [Itoa(rs.iteration)];
    var i := ChildIndex(step.kind.steps, m.s, path);
    ScopeGood(env, top, step.kind.steps, i, scope, e, e.s.currentPath, true);
    var c := ExecScope(env, top, step.kind.steps, i, scope, e);
    if c.err == NoError && c.m.s.status == Running {
      ChildrenDone(env, top, step, path, base, m, rs, c, i >= |step.kind.steps|);
      var due := rs.(awaitingCondition := true);
      FinishGood(env, top, step, path, base, WithRepeat(c.m, path, due), due);
    } else {
      EnteredUnderway(top, step, path, m, rs);
      FrameTransitive(path, Ever(base.log), base.s, Ever(m.log), m.s, Ever(e.log), e.s);
      ScopeIsStep(env, top, step, path, Itoa(rs.iteration), base, e, c, i >= |step.kind.steps|);
    }
  }
}
