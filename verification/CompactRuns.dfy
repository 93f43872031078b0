/**
 * Compact history refines Full history: for every history of a pipeline there is one of the same
 * pipeline with Full history everywhere, with the same calls and answers at the same places and
 * the same rollback in every saved state - and the other way round.
 */
module CompactRuns {
  import opened Options
  import opened Decimal
  import opened Definition
  import opened State
  import opened Executor
  import opened Journal
  import opened Scopes
  import opened Runs
  import FailStop
  import CutRollback
  import opened Footprint
  import opened Places
  import opened FullHistory
  import opened Abridged

  // ---------- rollback ----------

  predicate Compensated(s: RunState, i: int) {
    0 <= i < |s.completedSteps| && s.completedSteps[i].hasCompensator
  }

  /** Both machines are about to compensate, from i and i', the same entries. */
  ghost predicate Undoing(top: seq<Step>, m: Machine, m': Machine, i: int, i': int) {
    && Linked(top, m, m') && m.s.status == Compensating
    && m.s.compensationIndex == i && m'.s.compensationIndex == i'
  }

  lemma UndoTop(cs: seq<CompletedStep>, i: int)
    requires 0 <= i < |cs|
    ensures Undo(cs[..i + 1]) == (if cs[i].hasCompensator then [cs[i].path] else []) + Undo(cs[..i])
  {
    assert cs[..i + 1][..i] == cs[..i];
  }

  lemma UndoTail(a: seq<Path>, b: seq<Path>, p: Path, q: Path)
    requires [p] + a == [q] + b
    ensures p == q && a == b
  {
    assert ([p] + a)[0] == ([q] + b)[0];
    assert ([p] + a)[1..] == a && ([q] + b)[1..] == b;
  }

  /** An entry without compensator is passed over; the other side does not move. */
  lemma PassLeft(top: seq<Step>, m: Machine, m': Machine, i: int, i': int)
    requires Undoing(top, m, m', i, i') && i >= 0 && !Compensated(m.s, i)
    ensures Undoing(top, m.(s := m.s.(compensationIndex := i - 1)), m', i - 1, i')
  {
    hide LogsAlike;
    UndoTop(m.s.completedSteps, i);
    assert [] + Undo(m.s.completedSteps[..i]) == Undo(m.s.completedSteps[..i]);
  }

  lemma PassRight(top: seq<Step>, m: Machine, m': Machine, i: int, i': int)
    requires Undoing(top, m, m', i, i') && i' >= 0 && !Compensated(m'.s, i')
    ensures Undoing(top, m, m'.(s := m'.s.(compensationIndex := i' - 1)), i, i' - 1)
  {
    hide LogsAlike;
    UndoTop(m'.s.completedSteps, i');
    assert [] + Undo(m'.s.completedSteps[..i']) == Undo(m'.s.completedSteps[..i']);
  }

  /** Two entries to compensate name the same step, and leave the same rest. */
  lemma PassBoth(top: seq<Step>, m: Machine, m': Machine, i: int, i': int)
    requires Undoing(top, m, m', i, i') && Compensated(m.s, i) && Compensated(m'.s, i')
    ensures m.s.completedSteps[i].path == m'.s.completedSteps[i'].path
    ensures Undoing(top, m.(s := m.s.(compensationIndex := i - 1)), m'.(s := m'.s.(compensationIndex := i' - 1)), i - 1, i' - 1)
  {
    hide LogsAlike;
    UndoTop(m.s.completedSteps, i);
    UndoTop(m'.s.completedSteps, i');
    UndoTail(Undo(m.s.completedSteps[..i]), Undo(m'.s.completedSteps[..i']), m.s.completedSteps[i].path, m'.s.completedSteps[i'].path);
  }

  /** When one side has nothing left to compensate, neither has the other. */
  lemma UndoEnds(top: seq<Step>, m: Machine, m': Machine, i: int, i': int)
    requires Undoing(top, m, m', i, i')
    ensures i < 0 && i' >= 0 ==> !Compensated(m'.s, i')
    ensures i' < 0 && i >= 0 ==> !Compensated(m.s, i)
  {
    if i >= 0 { UndoTop(m.s.completedSteps, i); }
    if i' >= 0 { UndoTop(m'.s.completedSteps, i'); }
  }

  lemma UndoingRange(top: seq<Step>, m: Machine, m': Machine, i: int, i': int)
    requires Undoing(top, m, m', i, i')
    ensures -1 <= i < |m.s.completedSteps| && -1 <= i' < |m'.s.completedSteps|
  {
  }

  lemma StopAlike(env: Env, top: seq<Step>, m: Machine, m': Machine, i: int, i': int, failure: Failure)
    requires Blind(env) && Undoing(top, m, m', i, i')
    ensures Alike(top, StopCompensation(env, m, failure), StopCompensation(env, m', failure))
  {
    hide Linked, SnapshotData, PersistDeferred;
    SameTime(env, top, m, m');
    SaveDataAlike(env, top, m, m', false);
  }

  lemma UndoneAlike(env: Env, top: seq<Step>, m: Machine, m': Machine, i: int, i': int)
    requires Blind(env) && Undoing(top, m, m', i, i') && i < 0 && i' < 0
    ensures Alike(top, CompensateFrom(env, Full(top), m, i), CompensateFrom(env, top, m', i'))
  {
    hide LogsAlike, SnapshotData, Agree;
    var t, t' := m.(s := m.s.(status := Failed, compensationIndex := -1)), m'.(s := m'.s.(status := Failed, compensationIndex := -1));
    assert Linked(top, t, t');
    SaveDataAlike(env, top, t, t', false);
  }

  lemma {:induction false} CompensateAlike(env: Env, top: seq<Step>, m: Machine, m': Machine, i: int, i': int)
    requires Blind(env) && Undoing(top, m, m', i, i')
    requires i < |m.s.completedSteps| && i' < |m'.s.completedSteps|
    ensures Alike(top, CompensateFrom(env, Full(top), m, i), CompensateFrom(env, top, m', i'))
    decreases i + 1 + i' + 1
  {
    hide Linked, Blind, Alike;
    UndoingRange(top, m, m', i, i');
    UndoEnds(top, m, m', i, i');
    if i >= 0 && !Compensated(m.s, i) {
      PassLeft(top, m, m', i, i');
      CompensateAlike(env, top, m.(s := m.s.(compensationIndex := i - 1)), m', i - 1, i');
    } else if i' >= 0 && !Compensated(m'.s, i') {
      PassRight(top, m, m', i, i');
      CompensateAlike(env, top, m, m'.(s := m'.s.(compensationIndex := i' - 1)), i, i' - 1);
    } else if i < 0 {
      UndoneAlike(env, top, m, m', i, i');
    } else {
      EntryAlike(env, top, m, m', i, i');
    }
  }

  lemma CancelledAlike(top: seq<Step>, m: Machine, m': Machine)
    requires Linked(top, m, m')
    ensures Alike(top, Result(m, Cancelled), Result(m', Cancelled))
  {
  }

  lemma {:induction false} EntryAlike(env: Env, top: seq<Step>, m: Machine, m': Machine, i: int, i': int)
    requires Blind(env) && Undoing(top, m, m', i, i')
    requires Compensated(m.s, i) && Compensated(m'.s, i')
    ensures Alike(top, CompensateFrom(env, Full(top), m, i), CompensateFrom(env, top, m', i'))
    decreases i + 1 + i' + 1, 1
  {
    hide Linked, Blind, Alike, StopCompensation, FindStep, SnapshotData;
    PassBoth(top, m, m', i, i');
    SameTime(env, top, m, m');
    CancelledAlike(top, m, m');
    var path := m.s.completedSteps[i].path;
    FullFinds(top, path);
    var n, n' := m.(s := m.s.(compensationIndex := i - 1)), m'.(s := m'.s.(compensationIndex := i' - 1));
    if !env.cancelled(m.log) {
      if !IsCompensable(top, path) {
        CompensateAlike(env, top, n, n', i - 1, i' - 1);
      } else {
        CallAlike(env, top, m, m', i, i');
      }
    }
  }

  lemma {:induction false} CallAlike(env: Env, top: seq<Step>, m: Machine, m': Machine, i: int, i': int)
    requires Blind(env) && Undoing(top, m, m', i, i') && !env.cancelled(m.log) && !env.cancelled(m'.log)
    requires Compensated(m.s, i) && Compensated(m'.s, i') && IsCompensable(top, m.s.completedSteps[i].path)
    ensures Alike(top, CompensateFrom(env, Full(top), m, i), CompensateFrom(env, top, m', i'))
    decreases i + 1 + i' + 1, 0
  {
    hide Linked, Blind, Alike, StopCompensation, FindStep, SnapshotData;
    PassBoth(top, m, m', i, i');
    var path := m.s.completedSteps[i].path;
    FullFinds(top, path);
    InvokeAlike(env, top, m, m', Compensate(path));
    var a, a' := Invoke(env, m, Compensate(path)), Invoke(env, m', Compensate(path));
    if a.reply.Fail? {
      StopAlike(env, top, a.m.(s := a.m.s.(compensationIndex := i)), a'.m.(s := a'.m.s.(compensationIndex := i')), i, i', a.reply.failure);
    } else {
      var t, t' := a.m.(s := a.m.s.(compensationIndex := i - 1)), a'.m.(s := a'.m.s.(compensationIndex := i' - 1));
      PassBoth(top, a.m, a'.m, i, i');
      SaveDataAlike(env, top, t, t', false);
      var r, r' := SnapshotData(env, t), SnapshotData(env, t');
      AlikeLinked(top, r, r');
      if r.err == NoError {
        CompensateAlike(env, top, r.m, r'.m, i - 1, i' - 1);
      }
    }
  }

  lemma AlikeLinked(top: seq<Step>, r: Result, r': Result)
    requires Alike(top, r, r')
    ensures Linked(top, r.m, r'.m) && r'.err == r.err
  {
  }

  lemma EnterAlike(env: Env, top: seq<Step>, m: Machine, m': Machine, path: Path, cause: Cause, err: Error)
    requires Blind(env) && Linked(top, m, m')
    requires err.StepFailed? ==> !err.cause.Uncompensated?
    ensures Alike(top, EnterCompensation(env, Full(top), m, path, cause, err), EnterCompensation(env, top, m', path, cause, err))
  {
    hide Blind, CompensateFrom, SnapshotData, Agree;
    StartUndo(top, m, m', path, cause);
    var t, t' := m.(s := StartCompensation(m.s, path, cause)), m'.(s := StartCompensation(m'.s, path, cause));
    SaveDataAlike(env, top, t, t', false);
    var r, r' := SnapshotData(env, t), SnapshotData(env, t');
    if r.err == NoError {
      CompensateAlike(env, top, r.m, r'.m, r.m.s.compensationIndex, r'.m.s.compensationIndex);
    }
  }

  lemma StartUndo(top: seq<Step>, m: Machine, m': Machine, path: Path, cause: Cause)
    requires Linked(top, m, m')
    ensures Linked(top, m.(s := StartCompensation(m.s, path, cause)), m'.(s := StartCompensation(m'.s, path, cause)))
  {
    assert m.s.completedSteps[..|m.s.completedSteps|] == m.s.completedSteps;
    assert m'.s.completedSteps[..|m'.s.completedSteps|] == m'.s.completedSteps;
  }

  /** What a scope does with a failure; both sides fail alike. */
  lemma HandleAlike(env: Env, top: seq<Step>, r: Result, r': Result, path: Path)
    requires Blind(env) && Alike(top, r, r') && r.err != NoError
    ensures Alike(top, HandleError(env, Full(top), r.m, r.err, path), HandleError(env, top, r'.m, r'.err, path))
  {
    hide Blind, EnterCompensation, SnapshotData, Linked, Agree;
    LinkedSame(top, r.m, r'.m);
    SameTime(env, top, r.m, r'.m);
    var c, c' := r.m.s.(data := r.m.data, currentPath := path), r'.m.s.(data := r'.m.data, currentPath := path);
    LinkedFields(top, r.m, r'.m, c, c');
    if r.err.StepFailed? && r.err.cause.Uncompensated? {
      var f, f' := r.m.s.(failedStepPath := path), r'.m.s.(failedStepPath := path);
      LinkedFields(top, r.m, r'.m, f, f');
      AgreeFields(r.m.s, r'.m.s, f, f');
      if GoingOn(r.m.s) {
        SaveDataAlike(env, top, r.m.(s := f), r'.m.(s := f'), false);
      }
    } else {
      EnterAlike(env, top, r.m, r'.m, path, if r.err.StepFailed? then r.err.cause else Plain, r.err);
    }
  }

  // ---------- scopes ----------

  /** No scope is itself recorded as a repeat, so its steps are as unfinished as the scope. */
  lemma OverStep(top: seq<Step>, s: RunState, s': RunState, scope: Path, name: string)
    requires Sound(top, s, s') && !Over(s, scope) && |scope| % 2 == 0
    ensures !Over(s, scope + [name])
  {
    FoundOdd(top, scope);
    var q := scope + [name];
    assert scope !in s.repeatStates && q[..|scope|] == scope;
    forall j | 0 <= j < |q| && q[..j] in s.repeatStates ensures !Past(s.repeatStates[q[..j]], q[j]) {
      assert q[..j] == scope[..j] && q[j] == scope[j];
    }
  }

  /** Below a branch, or in the current iteration of a repeat, nothing is finished either. */
  lemma OverScope(s: RunState, path: Path, component: string)
    requires !Over(s, path)
    requires path in s.repeatStates ==> !Past(s.repeatStates[path], component)
    ensures !Over(s, path + [component])
  {
    var q := path + [component];
    forall j | 0 <= j < |q| && q[..j] in s.repeatStates ensures !Past(s.repeatStates[q[..j]], q[j]) {
      if j < |path| {
        assert q[..j] == path[..j] && q[j] == path[j];
      } else {
        assert q[..j] == path;
      }
    }
  }

  lemma CurrentNotPast(rs: RepeatState)
    requires !rs.completed
    ensures !Past(rs, Itoa(rs.iteration))
  {
    forall n: nat | Nth(Itoa(rs.iteration), n) ensures n == rs.iteration {
      ItoaInjective(n, rs.iteration);
    }
  }

  /** Work below a path does not finish anything the path lies in. */
  lemma OverKept(s: RunState, t: RunState, scope: Path)
    requires !Over(s, scope)
    requires forall j :: 0 <= j < |scope| ==> Kept(scope[..j], s, t)
    ensures !Over(t, scope)
  {
    forall j | 0 <= j < |scope| && scope[..j] in t.repeatStates
      ensures !Past(t.repeatStates[scope[..j]], scope[j])
    {
      assert Kept(scope[..j], s, t);
    }
  }

  ghost predicate ScopePoised(top: seq<Step>, steps: seq<Step>, i: nat, parent: Path, m: Machine, m': Machine,
                              resume: Path, first: bool) {
    && Poised(top, parent, m, m') && m.data == m.s.data && |parent| % 2 == 0
    && ValidSteps(steps) && Located(top, parent, steps)
    && Entry(Full(steps), i, parent, m.s, resume, first)
  }

  ghost predicate StepPoised(top: seq<Step>, step: Step, path: Path, m: Machine, m': Machine) {
    && Poised(top, path, m, m') && m.data == m.s.data && path != [] && |path| % 2 == 1
    && ValidStep(step) && StepLocated(top, step, path) && FindStep(top, path) == Some(step)
    && PlacedStep(FullStep(step), path, m.s) && path <= m.s.currentPath
  }

  /** The next step of both scopes, entered. */
  lemma EnterPoised(top: seq<Step>, steps: seq<Step>, i: nat, parent: Path, m: Machine, m': Machine,
                    resume: Path, first: bool)
    requires i < |steps| && ScopePoised(top, steps, i, parent, m, m', resume, first)
    ensures var path := parent + [steps[i].name];
      && IsCompleted(m'.s, path) == IsCompleted(m.s, path)
      && ScopePoised(top, steps, i + 1, parent, m, m', resume, false)
      && (!(first && path == resume && IsCompleted(m.s, path)) ==>
            StepPoised(top, steps[i], path, Enter(m, path, resume, first), Enter(m', path, resume, first)))
  {
    hide ValidSteps, Located, StepLocated, ValidStep, PlacedStep, Linked, Agree, Over, Entry;
    var path := parent + [steps[i].name];
    assert Sound(top, m.s, m'.s) by { LinkedSound(top, m, m'); }
    OverStep(top, m.s, m'.s, parent, steps[i].name);
    AgreeAt(m.s, m'.s, path);
    LinkedSame(top, m, m');
    assert LaterFresh(Full(steps), i + 1, parent, m.s) && Entry(Full(steps), i + 1, parent, m.s, resume, false) by {
      LaterEntry(Full(steps), i, parent, m.s, resume, first);
    }
    if !(first && path == resume && IsCompleted(m.s, path)) {
      var e, e' := Enter(m, path, resume, first), Enter(m', path, resume, first);
      EntryStep(Full(steps), i, parent, m, resume, first);
      PoisedStep(top, parent, path, m, m');
      MoveAlike(top, path, m, m', e.s, e'.s);
      ValidParts(steps, i);
      LocateStep(top, parent, steps, i);
    }
  }

  lemma PoisedStep(top: seq<Step>, parent: Path, path: Path, m: Machine, m': Machine)
    requires Poised(top, parent, m, m') && !Over(m.s, path)
    ensures Poised(top, path, m, m')
  {
  }

  lemma ValidParts(steps: seq<Step>, i: nat)
    requires ValidSteps(steps) && i < |steps|
    ensures DistinctNames(steps) && ValidStep(steps[i]) && DistinctNames(Full(steps))
  {
  }

  lemma LinkedSound(top: seq<Step>, m: Machine, m': Machine)
    requires Linked(top, m, m')
    ensures Sound(top, m.s, m'.s)
  {
  }

  lemma AgreeAt(s: RunState, s': RunState, q: Path)
    requires Agree(s, s') && !Over(s, q)
    ensures Kept(q, s, s') && IsCompleted(s', q) == IsCompleted(s, q)
  {
  }

  /** After a step succeeded in both scopes, both stand before the next one. */
  lemma NextPoised(env: Env, top: seq<Step>, steps: seq<Step>, i: nat, parent: Path, m: Machine, m': Machine,
                   resume: Path, first: bool)
    requires i < |steps| && ScopePoised(top, steps, i, parent, m, m', resume, first)
    requires var path := parent + [steps[i].name];
      var r := ExecStep(env, Full(top), FullStep(steps[i]), path, Enter(m, path, resume, first));
      var r' := ExecStep(env, top, steps[i], path, Enter(m', path, resume, first));
      && path <= Enter(m, path, resume, first).s.currentPath
      && Alike(top, r, r') && r.err == NoError && r.m.s.status == Running
    ensures var path := parent + [steps[i].name];
      var r := ExecStep(env, Full(top), FullStep(steps[i]), path, Enter(m, path, resume, first));
      var r' := ExecStep(env, top, steps[i], path, Enter(m', path, resume, first));
      ScopePoised(top, steps, i + 1, parent, r.m, r'.m, resume, false)
  {
    hide ValidSteps, Located, Linked, Agree, Over, ExecStep, LaterFresh, Entry;
    var path := parent + [steps[i].name];
    var e := Enter(m, path, resume, first);
    var r := ExecStep(env, Full(top), FullStep(steps[i]), path, e);
    ValidParts(steps, i);
    LaterEntry(Full(steps), i, parent, m.s, resume, first);
    EntryNext(env, Full(top), Full(steps), i, parent, m, resume, first);
    StepEnds(env, Full(top), FullStep(steps[i]), path, e);
    assert !Over(e.s, parent) by { OverFields(m.s, e.s); }
    forall j | 0 <= j < |parent| ensures Kept(parent[..j], e.s, r.m.s) {
      StepLeaves(env, Full(top), FullStep(steps[i]), path, e, parent[..j]);
    }
    OverKept(e.s, r.m.s, parent);
  }

  lemma {:induction false} StepsAlike(env: Env, top: seq<Step>, steps: seq<Step>, i: nat, parent: Path,
                                      m: Machine, m': Machine, resume: Path, first: bool)
    requires Blind(env) && ScopePoised(top, steps, i, parent, m, m', resume, first)
    ensures Alike(top, ExecSteps(env, Full(top), Full(steps), i, parent, m, resume, first),
                  ExecSteps(env, top, steps, i, parent, m', resume, first))
    decreases steps, 1, |steps| - i
  {
    hide Blind, ValidSteps, Located, Linked, Agree, Over, Entry, StepPoised, HandleError, PlacedStep;
    if i < |steps| {
      var path := parent + [steps[i].name];
      EnterPoised(top, steps, i, parent, m, m', resume, first);
      SameTime(env, top, m, m');
      LinkedSame(top, m, m');
      if first && path == resume && IsCompleted(m.s, path) {
        StepsAlike(env, top, steps, i + 1, parent, m, m', resume, false);
      } else if env.cancelled(m.log) {
        LinkedFields(top, m, m', m.s.(data := m.data, currentPath := path), m'.s.(data := m.data, currentPath := path));
      } else {
        var e, e' := Enter(m, path, resume, first), Enter(m', path, resume, first);
        StepAlike(env, top, steps[i], path, e, e');
        var r, r' := ExecStep(env, Full(top), FullStep(steps[i]), path, e), ExecStep(env, top, steps[i], path, e');
        if r.err != NoError {
          HandleAlike(env, top, r, r', path);
        } else {
          LinkedSame(top, r.m, r'.m);
          if r.m.s.status == Running {
            assert path <= e.s.currentPath by { EntersBelow(top, steps[i], path, e, e'); }
            NextPoised(env, top, steps, i, parent, m, m', resume, first);
            StepsAlike(env, top, steps, i + 1, parent, r.m, r'.m, resume, false);
          }
        }
      }
    }
  }

  lemma EntersBelow(top: seq<Step>, step: Step, path: Path, m: Machine, m': Machine)
    requires StepPoised(top, step, path, m, m')
    ensures path <= m.s.currentPath
  {
  }

  lemma {:induction false} StepAlike(env: Env, top: seq<Step>, step: Step, path: Path, m: Machine, m': Machine)
    requires Blind(env) && StepPoised(top, step, path, m, m')
    ensures Alike(top, ExecStep(env, Full(top), FullStep(step), path, m), ExecStep(env, top, step, path, m'))
    decreases step, 1
  {
    hide Blind, Linked, Agree, Over, StepLocated, PlacedStep, ValidStep, ExecAction, ExecPoll;
    match step.kind
    case Action(compensated, retry) => ActionAlike(env, top, compensated, retry, path, m, m');
    case Poll(maxDuration) => PollAlike(env, top, maxDuration, path, m, m');
    case Branch(paths) =>
      PoisedRepeat(top, path, m, m');
      if |m.s.currentPath| > |path| {
        InBranchAlike(env, top, step, path, m, m');
      } else {
        DecidedAlike(env, top, step, path, m, m');
      }
    case Repeat(_, _, _, _) => RepeatAlike(env, top, step, path, m, m');
  }

  /** The scope of a branch path, entered by both. */
  lemma BranchPoised(top: seq<Step>, step: Step, path: Path, k: nat, i: nat, m: Machine, m': Machine)
    requires step.kind.Branch? && k < |step.kind.paths| && |path| % 2 == 1
    requires Poised(top, path, m, m') && m.data == m.s.data
    requires ValidStep(step) && StepLocated(top, step, path) && FindStep(top, path) == Some(step)
    requires Entry(Full(step.kind.paths[k].steps), i, path + [step.kind.paths[k].key], m.s, m.s.currentPath, true)
    ensures ScopePoised(top, step.kind.paths[k].steps, i, path + [step.kind.paths[k].key], m, m', m.s.currentPath, true)
  {
    hide LogsAlike, Agree, Over, Entry, ValidSteps, StepLocated, Located, Weak;
    LocateBranch(top, step, path, k);
    OverScope(m.s, path, step.kind.paths[k].key);
  }

  lemma {:induction false} InBranchAlike(env: Env, top: seq<Step>, step: Step, path: Path, m: Machine, m': Machine)
    requires Blind(env) && StepPoised(top, step, path, m, m') && step.kind.Branch? && path < m.s.currentPath
    ensures Alike(top, ExecStep(env, Full(top), FullStep(step), path, m), ExecStep(env, top, step, path, m'))
    decreases step, 0
  {
    hide Blind, Linked, Agree, Over, StepLocated, ValidStep, ScopePoised, Entry, Alike, PlacedScope;
    PoisedRepeat(top, path, m, m');
    var cp := m.s.currentPath;
    FullKey(step.kind.paths, cp[|path|]);
    var k := FindKey(step.kind.paths, cp[|path|]).value;
    var steps, scope := step.kind.paths[k].steps, path + [step.kind.paths[k].key];
    assert cp[..|path| + 1] == scope;
    PlacedEntry(Full(steps), scope, m.s);
    FullChild(steps, m.s, path);
    BranchPoised(top, step, path, k, ChildIndex(steps, m.s, path), m, m');
    StepsAlike(env, top, steps, ChildIndex(steps, m.s, path), scope, m, m', cp, true);
  }

  lemma FullChild(steps: seq<Step>, s: RunState, path: Path)
    ensures ChildIndex(Full(steps), s, path) == ChildIndex(steps, s, path)
  {
    if |s.currentPath| > |path| + 1 {
      FullFind(steps, s.currentPath[|path| + 1]);
    }
  }

  lemma {:induction false} DecidedAlike(env: Env, top: seq<Step>, step: Step, path: Path, m: Machine, m': Machine)
    requires Blind(env) && StepPoised(top, step, path, m, m') && step.kind.Branch? && path == m.s.currentPath
    ensures Alike(top, ExecStep(env, Full(top), FullStep(step), path, m), ExecStep(env, top, step, path, m'))
    decreases step, 0
  {
    hide Blind, Linked, Agree, Over, StepLocated, ValidStep, ScopePoised, Entry, Alike, PlacedStep, DecideBranch;
    PoisedRepeat(top, path, m, m');
    var paths := step.kind.paths;
    DecideAlike(env, top, paths, path, m, m');
    var d, d' := DecideBranch(env, FullPaths(paths), path, m), DecideBranch(env, paths, path, m');
    if d.Entered? {
      var steps, scope := paths[d.index].steps, path + [paths[d.index].key];
      FreshAt(FullStep(step), path, m.s);
      DecidedEntry(Full(steps), path, scope, m, d.m);
      PoisedRepeat(top, path, d.m, d'.m);
      BranchPoised(top, step, path, d.index, 0, d.m, d'.m);
      StepsAlike(env, top, steps, 0, scope, d.m, d'.m, scope, true);
    }
  }

  // ---------- repeats ----------

  /** Starting the clock of a repeat moves nothing. */
  lemma StartPlaces(env: Env, maxDuration: int, path: Path, m: Machine)
    requires m.data == m.s.data
    ensures var r := EnsureStarted(env, maxDuration, path, m);
      && SamePlaces(m.s, r.m.s) && r.m.s.currentPath == m.s.currentPath
      && r.m.s.completedSteps == m.s.completedSteps && r.m.data == r.m.s.data
  {
  }

  lemma {:induction false} RepeatAlike(env: Env, top: seq<Step>, step: Step, path: Path, m: Machine, m': Machine)
    requires Blind(env) && StepPoised(top, step, path, m, m') && step.kind.Repeat?
    ensures Alike(top, ExecStep(env, Full(top), FullStep(step), path, m), ExecStep(env, top, step, path, m'))
    decreases step, 0, 2
  {
    hide Blind, Linked, Agree, Over, StepLocated, ValidStep, PlacedStep, EnsureStarted, FinishIteration, RunIteration, Standing;
    var maxDuration := step.kind.maxDuration;
    PlacedIteration(FullStep(step), path, m.s);
    StartAlike(env, top, maxDuration, path, m, m');
    StartPlaces(env, maxDuration, path, m);
    var r, r' := EnsureStarted(env, maxDuration, path, m), EnsureStarted(env, maxDuration, path, m');
    if r.err == NoError {
      PlacedStarted(FullStep(step), path, m.s, r.m.s);
      PlacedIteration(FullStep(step), path, r.m.s);
      PoisedRepeat(top, path, r.m, r'.m);
      SameTime(env, top, r.m, r'.m);
      EnteredAlike(env, top, step, path, r.m, r'.m);
    }
  }

  /** What a repeat does once its clock is started. */
  function Entered(env: Env, top: seq<Step>, step: Step, path: Path, m: Machine): Result
    requires step.kind.Repeat?
  {
    if TimedOutAt(step.kind.maxDuration, RepeatAt(m.s, path), env.now(m.log)) then RepeatTimeoutFailure(m, step, path)
    else match CurrentIteration(m.s, path)
      case None => Result(m, StepFailed(path, Plain))
      case Some(n) =>
        var rs := RepeatAt(m.s, path).(iteration := n, completed := false);
        if rs.awaitingCondition then FinishIteration(env, step, path, WithRepeat(m, path, rs), rs)
        else RunIteration(env, top, step, path, m, rs)
  }

  lemma {:induction false} EnteredAlike(env: Env, top: seq<Step>, step: Step, path: Path, m: Machine, m': Machine)
    requires Blind(env) && StepPoised(top, step, path, m, m') && step.kind.Repeat?
    ensures Alike(top, Entered(env, Full(top), FullStep(step), path, m), Entered(env, top, step, path, m'))
    decreases step, 0, 1
  {
    hide Blind, Linked, Agree, Over, StepLocated, ValidStep, PlacedStep, FinishIteration, RunIteration, Standing;
    PlacedIteration(FullStep(step), path, m.s);
    PoisedRepeat(top, path, m, m');
    SameTime(env, top, m, m');
    var rs := RepeatAt(m.s, path);
    if !TimedOutAt(step.kind.maxDuration, rs, env.now(m.log)) {
      RecordAlike(top, path, m, m', rs);
      if rs.awaitingCondition {
        FinishAlike(env, top, step, path, WithRepeat(m, path, rs), WithRepeat(m', path, rs), rs);
      } else {
        IterationAlike(env, top, step, path, m, m', rs);
      }
    }
  }

  /** The children of the current iteration, entered by both. */
  lemma IterationPoised(top: seq<Step>, step: Step, path: Path, m: Machine, m': Machine, rs: RepeatState)
    requires StepPoised(top, step, path, m, m') && step.kind.Repeat?
    requires rs == RepeatAt(m.s, path) && !rs.awaitingCondition
    ensures var e, e' := WithRepeat(m, path, rs), WithRepeat(m', path, rs);
      ScopePoised(top, step.kind.steps, ChildIndex(step.kind.steps, m.s, path), path + [Itoa(rs.iteration)], e, e',
                  e.s.currentPath, true)
  {
    hide Linked, Agree, Over, StepLocated, Located, ValidSteps, PlacedScope, Entry;
    PlacedIteration(FullStep(step), path, m.s);
    RecordAlike(top, path, m, m', rs);
    IterationEntry(FullStep(step), path, m, rs);
    FullChild(step.kind.steps, m.s, path);
    LocateRepeat(top, step, path, rs.iteration);
    CurrentNotPast(rs);
    OverScope(WithRepeat(m, path, rs).s, path, Itoa(rs.iteration));
  }

  lemma {:induction false} IterationAlike(env: Env, top: seq<Step>, step: Step, path: Path, m: Machine, m': Machine,
                                          rs: RepeatState)
    requires Blind(env) && StepPoised(top, step, path, m, m') && step.kind.Repeat?
    requires rs == RepeatAt(m.s, path) && !rs.awaitingCondition && !rs.completed
    ensures Alike(top, RunIteration(env, Full(top), FullStep(step), path, m, rs),
                  RunIteration(env, top, step, path, m', rs))
    decreases step, 0, 0
  {
    hide Blind, Linked, Agree, Over, StepLocated, ValidStep, PlacedStep, FinishIteration, ScopePoised;
    var steps, scope := step.kind.steps, path + [Itoa(rs.iteration)];
    PoisedRepeat(top, path, m, m');
    IterationPoised(top, step, path, m, m', rs);
    FullChild(steps, m.s, path);
    RecordAlike(top, path, m, m', rs);
    var e, e' := WithRepeat(m, path, rs), WithRepeat(m', path, rs);
    var i := ChildIndex(steps, m.s, path);
    StepsAlike(env, top, steps, i, scope, e, e', e.s.currentPath, true);
    var c, c' := ExecScope(env, Full(top), Full(steps), i, scope, e), ExecScope(env, top, steps, i, scope, e');
    LinkedSame(top, c.m, c'.m);
    if c.err == NoError && c.m.s.status == Running {
      ChildrenDone(env, top, step, path, m, m', rs);
      var due := rs.(awaitingCondition := true);
      RecordAlike(top, path, c.m, c'.m, due);
      FinishAlike(env, top, step, path, WithRepeat(c.m, path, due), WithRepeat(c'.m, path, due), due);
    }
  }

  /** The children leave the record of their repeat, and everything around it, alone. */
  lemma ChildrenDone(env: Env, top: seq<Step>, step: Step, path: Path, m: Machine, m': Machine, rs: RepeatState)
    requires StepPoised(top, step, path, m, m') && step.kind.Repeat? && rs == RepeatAt(m.s, path)
    requires var steps, scope := step.kind.steps, path + [Itoa(rs.iteration)];
      var i := ChildIndex(steps, m.s, path);
      var e, e' := WithRepeat(m, path, rs), WithRepeat(m', path, rs);
      var c, c' := ExecScope(env, Full(top), Full(steps), i, scope, e), ExecScope(env, top, steps, i, scope, e');
      && Poised(top, path, e, e')
      && Alike(top, c, c') && c.err == NoError && c.m.s.status == Running
    ensures var steps, scope := step.kind.steps, path + [Itoa(rs.iteration)];
      var i := ChildIndex(steps, m.s, path);
      var e, e' := WithRepeat(m, path, rs), WithRepeat(m', path, rs);
      var c, c' := ExecScope(env, Full(top), Full(steps), i, scope, e), ExecScope(env, top, steps, i, scope, e');
      Poised(top, path, c.m, c'.m) && RepeatAt(c.m.s, path) == rs
  {
    hide Linked, Agree, Over, StepLocated, ValidStep, PlacedStep, ExecSteps;
    var steps, scope := step.kind.steps, path + [Itoa(rs.iteration)];
    var i := ChildIndex(steps, m.s, path);
    var e := WithRepeat(m, path, rs);
    var c := ExecScope(env, Full(top), Full(steps), i, scope, e);
    ScopeLeaves(env, Full(top), Full(steps), i, scope, e, e.s.currentPath, true, path);
    forall j | 0 <= j < |path| ensures Kept(path[..j], e.s, c.m.s) {
      ScopeLeaves(env, Full(top), Full(steps), i, scope, e, e.s.currentPath, true, path[..j]);
    }
    OverKept(e.s, c.m.s, path);
  }

  lemma ScopeLeaves(env: Env, top: seq<Step>, steps: seq<Step>, i: nat, scope: Path, m: Machine, resume: Path,
                    first: bool, q: Path)
    requires m.data == m.s.data && !IsPrefix(scope, q)
    ensures Kept(q, m.s, ExecSteps(env, top, steps, i, scope, m, resume, first).m.s)
  {
    BaseReached(q, scope, m);
    StepsReached(Base(q, scope, m.s, m.log), env, top, steps, i, scope, m, resume, first);
  }

  // ---------- runs ----------

  lemma {:induction false} DurableAlike(top: seq<Step>, log: Log, log': Log)
    requires LogsAlike(top, log, log')
    ensures StateAlike(top, Durable(log), Durable(log'))
  {
    hide Weak, Sound, Agree;
    if log == [] {
      InitialAlike(top);
    } else {
      assert EventAlike(top, log[|log| - 1], log'[|log| - 1]);
      PrefixAlike(top, log, log', |log| - 1);
      DurableAlike(top, log[..|log| - 1], log'[..|log| - 1]);
    }
  }

  lemma InitialAlike(top: seq<Step>)
    ensures StateAlike(top, INITIAL, INITIAL)
  {
    forall q ensures Kept(q, INITIAL, INITIAL) {}
  }

  lemma PrefixAlike(top: seq<Step>, log: Log, log': Log, n: nat)
    requires LogsAlike(top, log, log') && n <= |log|
    ensures LogsAlike(top, log[..n], log'[..n])
  {
    forall k | 0 <= k < n ensures EventAlike(top, log[..n][k], log'[..n][k]) {
      assert EventAlike(top, log[k], log'[k]);
    }
  }

  lemma BackwardAlike(env: Env, top: seq<Step>, m: Machine, m': Machine)
    requires Blind(env) && Linked(top, m, m') && m.s.status == Compensating
    ensures m.s.compensationIndex < |m.s.completedSteps| && m'.s.compensationIndex < |m'.s.completedSteps|
    ensures Alike(top, ResumeCompensation(env, Full(top), m), ResumeCompensation(env, top, m'))
  {
    hide Blind, CompensateFrom, SnapshotData, LogsAlike, Agree;
    SaveDataAlike(env, top, m, m', false);
    var r, r' := SnapshotData(env, m), SnapshotData(env, m');
    if r.err == NoError {
      CompensateAlike(env, top, r.m, r'.m, r.m.s.compensationIndex, r'.m.s.compensationIndex);
    }
  }

  /** The first snapshot of a forward run from the last durable state. */
  function Opening(env: Env, log: Log): Result {
    SnapshotData(env, Machine(Durable(log).(status := Running), Durable(log).data, log))
  }

  /** The top scope, entered by both after the first snapshot. */
  lemma StartPoised(env: Env, top: seq<Step>, log: Log, log': Log)
    requires Blind(env) && Valid(top) && LogGood(Full(top), log) && LogsAlike(top, log, log')
    requires !Durable(log).IsTerminal() && Durable(log).status != Compensating
    ensures Alike(top, Opening(env, log), Opening(env, log'))
    ensures var r, r' := Opening(env, log), Opening(env, log');
      && (r.err == NoError || r.err == SnapshotFailed)
      && (r.err == NoError ==> ScopePoised(top, top, StartOf(top, r.m.s), [], r.m, r'.m, r.m.s.currentPath, true))
  {
    hide Blind, SnapshotData, LogsAlike, LogGood, Allowed, Sound, Entry, TopPos;
    var d, d' := Durable(log), Durable(log');
    DurableAlike(top, log, log');
    var m, m' := Machine(d.(status := Running), d.data, log), Machine(d'.(status := Running), d'.data, log');
    AgreeFields(d, d', m.s, m'.s);
    assert Linked(top, Machine(d, d.data, log), Machine(d', d'.data, log'));
    LinkedFields(top, Machine(d, d.data, log), Machine(d', d'.data, log'), m.s, m'.s);
    SaveDataAlike(env, top, m, m', false);
    var r := SnapshotData(env, m);
    if r.err == NoError {
      SnapshotBumps(env, m);
      StartAllowed(Full(top), log);
      TopEntry(Ever(log), Full(top), r.m.s);
      FullStart(top, r.m.s);
      TopLocated(top);
      assert !Over(r.m.s, []);
    }
  }

  lemma SnapshotBumps(env: Env, m: Machine)
    ensures var r := SnapshotData(env, m);
      r.err == NoError ==> r.m.s == m.s.(data := m.data, revision := m.s.revision + 1)
  {
  }

  lemma FullStart(top: seq<Step>, s: RunState)
    ensures StartOf(Full(top), s) == StartOf(top, s)
  {
    if s.currentPath != [] {
      FullFind(top, s.currentPath[0]);
    }
  }

  lemma ForwardAlike(env: Env, top: seq<Step>, log: Log, log': Log)
    requires Blind(env) && Valid(top) && LogGood(Full(top), log) && LogsAlike(top, log, log')
    requires !Durable(log).IsTerminal() && Durable(log).status != Compensating && !env.cancelled(log)
    requires Loadable(Durable(log)) && Loadable(Durable(log'))
    ensures Alike(top, Run(env, Full(top), Durable(log), log), Run(env, top, Durable(log'), log'))
  {
    hide Blind, SnapshotData, LogsAlike, LogGood, Linked, Agree, Valid, Run, Going, ScopePoised;
    FullValid(top);
    StartPoised(env, top, log, log');
    var d, d' := Durable(log), Durable(log');
    var t, t' := Machine(d, d.data, log), Machine(d', d'.data, log');
    LinkedDurable(top, log, log');
    SameTime(env, top, t, t');
    LinkedSame(top, t, t');
    RunGoing(env, Full(top), d, log);
    RunGoing(env, top, d', log');
    var r := SnapshotData(env, Machine(d.(status := Running), d.data, log));
    var r' := SnapshotData(env, Machine(d'.(status := Running), d'.data, log'));
    if r.err == NoError {
      GoingAlike(env, top, r.m, r'.m);
    }
  }

  lemma GoingAlike(env: Env, top: seq<Step>, m: Machine, m': Machine)
    requires Blind(env) && ScopePoised(top, top, StartOf(top, m.s), [], m, m', m.s.currentPath, true)
    ensures Alike(top, Going(env, Full(top), m), Going(env, top, m'))
  {
    hide Blind, SnapshotData, Linked, Agree, ExecSteps, Entry;
    FullStart(top, m.s);
    LinkedSame(top, m, m');
    var i, cp := StartOf(top, m.s), m.s.currentPath;
    StepsAlike(env, top, top, i, [], m, m', cp, true);
    var e, e' := ExecScope(env, Full(top), Full(top), i, [], m), ExecScope(env, top, top, i, [], m');
    LinkedSame(top, e.m, e'.m);
    if e.err == NoError && e.m.s.status == Running {
      CompletedAlike(env, top, e.m, e'.m);
    }
  }

  lemma CompletedAlike(env: Env, top: seq<Step>, m: Machine, m': Machine)
    requires Blind(env) && Linked(top, m, m') && m.s.status == Running
    ensures Alike(top, SnapshotData(env, m.(s := m.s.(status := Completed))), SnapshotData(env, m'.(s := m'.s.(status := Completed))))
  {
    hide Blind, SnapshotData, Linked;
    LinkedSame(top, m, m');
    LinkedFields(top, m, m', m.s.(status := Completed), m'.s.(status := Completed));
    SaveDataAlike(env, top, m.(s := m.s.(status := Completed)), m'.(s := m'.s.(status := Completed)), false);
  }

  lemma FullValid(top: seq<Step>)
    requires Valid(top)
    ensures Valid(Full(top))
  {
    FullValidSteps(top);
  }

  lemma LinkedDurable(top: seq<Step>, log: Log, log': Log)
    requires LogsAlike(top, log, log')
    ensures Linked(top, Machine(Durable(log), Durable(log).data, log), Machine(Durable(log'), Durable(log').data, log'))
  {
    DurableAlike(top, log, log');
  }

  lemma RunAlike(env: Env, top: seq<Step>, log: Log, log': Log)
    requires Blind(env) && Valid(top) && LogGood(Full(top), log) && LogsAlike(top, log, log')
    ensures Loadable(Durable(log)) && Loadable(Durable(log'))
    ensures Alike(top, Run(env, Full(top), Durable(log), log), Run(env, top, Durable(log'), log'))
  {
    hide Blind, LogsAlike, LogGood, Agree, Valid, ResumeCompensation, ExecSteps, Sound;
    FullValid(top);
    LinkedDurable(top, log, log');
    var d, d' := Durable(log), Durable(log');
    var m, m' := Machine(d, d.data, log), Machine(d', d'.data, log');
    SameTime(env, top, m, m');
    if !d.IsTerminal() && !env.cancelled(log) {
      if d.status == Compensating {
        BackwardAlike(env, top, m, m');
      } else {
        ForwardAlike(env, top, log, log');
      }
    }
  }

  /**
   * Whatever a pipeline does, the same pipeline with Full history does: event by event the same
   * calls with the same answers, and saved states with the same status, path, data, revision and
   * rollback - over any crashes, refusals, cancellations and restarts.
   */
  lemma {:induction false} CompactRefinesFull(env: Env, top: seq<Step>, log': Log, n: nat)
    requires Valid(top) && Blind(env) && Reachable(env, top, log', n)
    ensures exists log :: Reachable(env, Full(top), log, n) && LogsAlike(top, log, log')
    decreases n
  {
    hide Blind, Valid, LogsAlike, Run;
    if n == 0 {
      assert LogsAlike(top, [], []) by { NothingAlike(top); }
      assert Reachable(env, Full(top), [], 0);
    } else {
      var before' :| Reachable(env, top, before', n - 1) && RunsTo(env, top, before', log');
      CompactRefinesFull(env, top, before', n - 1);
      var before :| Reachable(env, Full(top), before, n - 1) && LogsAlike(top, before, before');
      FullValid(top);
      HistoryGood(env, Full(top), before, n - 1);
      RunAlike(env, top, before, before');
      var log := CutAlike(env, top, before, before', log');
    }
  }

  /** And the other way round: compaction takes nothing away. */
  lemma {:induction false} FullRefinesCompact(env: Env, top: seq<Step>, log: Log, n: nat)
    requires Valid(top) && Blind(env) && Reachable(env, Full(top), log, n)
    ensures exists log' :: Reachable(env, top, log', n) && LogsAlike(top, log, log')
    decreases n
  {
    hide Blind, Valid, LogsAlike, Run;
    if n == 0 {
      assert LogsAlike(top, [], []) by { NothingAlike(top); }
      assert Reachable(env, top, [], 0);
    } else {
      var before :| Reachable(env, Full(top), before, n - 1) && RunsTo(env, Full(top), before, log);
      FullRefinesCompact(env, top, before, n - 1);
      var before' :| Reachable(env, top, before', n - 1) && LogsAlike(top, before, before');
      FullValid(top);
      HistoryGood(env, Full(top), before, n - 1);
      RunAlike(env, top, before, before');
      var log' := CutFull(env, top, before, before', log);
    }
  }

  lemma NothingAlike(top: seq<Step>)
    ensures LogsAlike(top, [], [])
  {
  }

  /** The crash that cut one run cuts the other at the same event. */
  lemma CutAlike(env: Env, top: seq<Step>, before: Log, before': Log, log': Log) returns (log: Log)
    requires LogsAlike(top, before, before') && RunsTo(env, top, before', log')
    requires Loadable(Durable(before))
    requires LogsAlike(top, Run(env, Full(top), Durable(before), before).m.log, Run(env, top, Durable(before'), before').m.log)
    ensures RunsTo(env, Full(top), before, log) && LogsAlike(top, log, log')
  {
    hide Run;
    var whole, whole' := Run(env, Full(top), Durable(before), before).m.log, Run(env, top, Durable(before'), before').m.log;
    log := whole[..|log'|];
    PrefixAlike(top, whole, whole', |log'|);
    FailStop.RunStops(env, Full(top), Durable(before), before);
    CutRollback.StopsGrow(before, Run(env, Full(top), Durable(before), before));
    assert before == whole[..|before|] == log[..|before|];
    assert whole'[..|log'|] == log';
  }

  lemma CutFull(env: Env, top: seq<Step>, before: Log, before': Log, log: Log) returns (log': Log)
    requires LogsAlike(top, before, before') && RunsTo(env, Full(top), before, log)
    requires Loadable(Durable(before'))
    requires LogsAlike(top, Run(env, Full(top), Durable(before), before).m.log, Run(env, top, Durable(before'), before').m.log)
    ensures RunsTo(env, top, before', log') && LogsAlike(top, log, log')
  {
    hide Run;
    var whole, whole' := Run(env, Full(top), Durable(before), before).m.log, Run(env, top, Durable(before'), before').m.log;
    log' := whole'[..|log|];
    PrefixAlike(top, whole, whole', |log|);
    FailStop.RunStops(env, top, Durable(before'), before');
    CutRollback.StopsGrow(before', Run(env, top, Durable(before'), before'));
    assert before' == whole'[..|before'|] == log'[..|before'|];
    assert whole[..|log|] == log;
  }
}
