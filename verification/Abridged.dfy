/**
 * A pipeline with compact repeats next to the same pipeline with full history, under one
 * environment that cannot look into snapshots. Primed values belong to the compact one.
 */
module Abridged {
  import opened Options
  import opened Decimal
  import opened Definition
  import opened State
  import opened Executor
  import opened Journal
  import opened Frames
  import opened Footprint
  import opened FullHistory
  import opened Scopes

  // ---------- states ----------

  ghost predicate Nth(component: string, n: nat) {
    component == Itoa(n)
  }

  /** The component names an iteration that the repeat has finished. */
  ghost predicate Past(rs: RepeatState, component: string) {
    exists n: nat :: Nth(component, n) && (n < rs.iteration || (n == rs.iteration && rs.completed))
  }

  /** The path lies inside a finished iteration. */
  ghost predicate Over(s: RunState, q: Path) {
    exists j :: 0 <= j < |q| && q[..j] in s.repeatStates && Past(s.repeatStates[q[..j]], q[j])
  }

  /** The two states record the same everywhere but inside finished iterations. */
  ghost predicate Agree(s: RunState, s': RunState) {
    forall q :: Over(s, q) || Kept(q, s, s')
  }

  /** Both have the same left to compensate. */
  predicate SamePending(s: RunState, s': RunState) {
    && -1 <= s.compensationIndex < |s.completedSteps| && -1 <= s'.compensationIndex < |s'.completedSteps|
    && Undo(s'.completedSteps[..s'.compensationIndex + 1]) == Undo(s.completedSteps[..s.compensationIndex + 1])
  }

  /** Equal but for what is completed and finished; the rollback, done and to do, is the same. */
  ghost predicate Weak(s: RunState, s': RunState) {
    && s' == s.(completedSteps := s'.completedSteps, repeatStates := s'.repeatStates,
                compensationIndex := s'.compensationIndex)
    && Undo(s'.completedSteps) == Undo(s.completedSteps)
    && (s.status == Compensating ==> SamePending(s, s'))
  }

  predicate IsRepeat(top: seq<Step>, path: Path) {
    FindStep(top, path).Some? && FindStep(top, path).value.kind.Repeat?
  }

  predicate IsCompensable(top: seq<Step>, path: Path) {
    FindStep(top, path).Some? && Compensable(FindStep(top, path).value)
  }

  /** Repeat positions belong to repeats, and only compensated actions are marked for rollback. */
  ghost predicate Sound(top: seq<Step>, s: RunState, s': RunState) {
    && (forall p :: p in s.repeatStates ==> IsRepeat(top, p))
    && (forall e :: e in s'.completedSteps && e.hasCompensator ==> IsCompensable(top, e.path))
  }

  predicate GoingOn(s: RunState) {
    s.status == New || s.status == Running || s.status == Polling
  }

  ghost predicate StateAlike(top: seq<Step>, s: RunState, s': RunState) {
    Weak(s, s') && Sound(top, s, s') && (GoingOn(s) ==> Agree(s, s'))
  }

  // ---------- logs ----------

  ghost predicate EventAlike(top: seq<Step>, e: Event, e': Event) {
    match e
    case Called(_, _) => e' == e
    case Slept(_) => e' == e
    case Saved(s) => e'.Saved? && StateAlike(top, s, e'.state)
    case Refused(_) => e'.Refused?
  }

  ghost predicate LogsAlike(top: seq<Step>, log: Log, log': Log) {
    |log'| == |log| && forall k :: 0 <= k < |log| ==> EventAlike(top, log[k], log'[k])
  }

  function BlurEvent(e: Event): Event {
    match e
    case Saved(_) => Saved(INITIAL)
    case Refused(_) => Refused(INITIAL)
    case _ => e
  }

  /** A log without the contents of its snapshots. */
  function Blur(log: Log): Log {
    seq(|log|, k requires 0 <= k < |log| => BlurEvent(log[k]))
  }

  /** Nothing outside depends on what the snapshots contain. */
  ghost predicate Blind(env: Env) {
    && (forall a, b, call, data :: Blur(a) == Blur(b) ==> env.call(a, call, data) == env.call(b, call, data))
    && (forall a, b, s, t :: Blur(a) == Blur(b) ==> env.save(a, s) == env.save(b, t))
    && (forall a, b :: Blur(a) == Blur(b) ==> env.cancelled(a) == env.cancelled(b))
    && (forall a, b :: Blur(a) == Blur(b) ==> env.now(a) == env.now(b))
  }

  lemma AlikeBlur(top: seq<Step>, log: Log, log': Log)
    requires LogsAlike(top, log, log')
    ensures Blur(log') == Blur(log)
  {
    forall k | 0 <= k < |log| ensures Blur(log')[k] == Blur(log)[k] {
      assert EventAlike(top, log[k], log'[k]);
    }
  }

  lemma AppendAlike(top: seq<Step>, log: Log, log': Log, e: Event, e': Event)
    requires LogsAlike(top, log, log') && EventAlike(top, e, e')
    ensures LogsAlike(top, log + [e], log' + [e'])
  {
  }

  // ---------- machines ----------

  ghost predicate Linked(top: seq<Step>, m: Machine, m': Machine) {
    Weak(m.s, m'.s) && m'.data == m.data && LogsAlike(top, m.log, m'.log) && Sound(top, m.s, m'.s)
  }

  /** Unless it failed for good, a result leaves both states in agreement. */
  predicate Sturdy(r: Result) {
    (r.err == NoError && r.m.s.status == Running) || (r.err.StepFailed? && r.err.cause.Uncompensated?)
  }

  ghost predicate Alike(top: seq<Step>, r: Result, r': Result) {
    Linked(top, r.m, r'.m) && r'.err == r.err && (Sturdy(r) ==> Agree(r.m.s, r'.m.s))
  }

  /** Both machines stand at path, which is inside no finished iteration. */
  ghost predicate Poised(top: seq<Step>, path: Path, m: Machine, m': Machine) {
    Linked(top, m, m') && Agree(m.s, m'.s) && !Over(m.s, path) && m.s.status == Running
  }

  /** Fields that neither agreement nor rollback depends on. */
  predicate SameJournal(s: RunState, t: RunState) {
    t.completedSteps == s.completedSteps && t.repeatStates == s.repeatStates
    && t.compensationIndex == s.compensationIndex
  }

  lemma AgreeFields(s: RunState, s': RunState, t: RunState, t': RunState)
    requires Agree(s, s')
    requires t.completedSteps == s.completedSteps && t.repeatStates == s.repeatStates
    requires t'.completedSteps == s'.completedSteps && t'.repeatStates == s'.repeatStates
    ensures Agree(t, t')
    ensures forall q :: Over(t, q) == Over(s, q)
  {
    forall q ensures Over(t, q) == Over(s, q) {}
    forall q ensures Over(t, q) || Kept(q, t, t') {
      assert Over(s, q) || Kept(q, s, s');
    }
  }

  lemma LinkedFields(top: seq<Step>, m: Machine, m': Machine, t: RunState, t': RunState)
    requires Linked(top, m, m') && SameJournal(m.s, t) && SameJournal(m'.s, t')
    requires t' == t.(completedSteps := t'.completedSteps, repeatStates := t'.repeatStates,
                      compensationIndex := t'.compensationIndex)
    requires t.status == Compensating ==> m.s.status == Compensating
    ensures Linked(top, m.(s := t), m'.(s := t'))
  {
  }

  lemma SameAnswer(env: Env, top: seq<Step>, log: Log, log': Log, s: RunState, s': RunState)
    requires Blind(env) && LogsAlike(top, log, log')
    ensures env.save(log, s) == env.save(log', s')
  {
    AlikeBlur(top, log, log');
  }

  lemma SaveAlike(env: Env, top: seq<Step>, m: Machine, m': Machine)
    requires Blind(env) && Linked(top, m, m') && (GoingOn(m.s) ==> Agree(m.s, m'.s))
    ensures var r, r' := Snapshot(env, m), Snapshot(env, m');
      && Alike(top, r, r') && (r.err == NoError || r.err == SnapshotFailed)
      && (r.err == NoError ==> r.m.s == m.s.(revision := r.m.s.revision) && r'.m.s == m'.s.(revision := r.m.s.revision))
      && r.m.data == m.data && (GoingOn(m.s) ==> Agree(r.m.s, r'.m.s))
  {
    hide Sound, SamePending, Weak, LogsAlike, Agree, Blind;
    var c, c' := m.s.(revision := m.s.revision + 1), m'.s.(revision := m'.s.revision + 1);
    SameFields(m.s, m'.s);
    SameAnswer(env, top, m.log, m'.log, c, c');
    LinkedFields(top, m, m', c, c');
    if GoingOn(m.s) {
      AgreeFields(m.s, m'.s, c, c');
    }
    AppendAlike(top, m.log, m'.log, Saved(c), Saved(c'));
    AppendAlike(top, m.log, m'.log, Refused(c), Refused(c'));
  }

  lemma SaveDataAlike(env: Env, top: seq<Step>, m: Machine, m': Machine, polling: bool)
    requires Blind(env) && Linked(top, m, m') && (GoingOn(m.s) ==> Agree(m.s, m'.s))
    requires polling ==> GoingOn(m.s)
    ensures var r, r' := SnapshotData(env, m), SnapshotData(env, m');
      && Alike(top, r, r') && (r.err == NoError || r.err == SnapshotFailed)
      && (r.err == NoError ==> r.m.s == m.s.(data := m.data, revision := r.m.s.revision))
      && (r.err == NoError ==> r'.m.s == m'.s.(data := m.data, revision := r.m.s.revision))
      && r.m.data == m.data && (GoingOn(m.s) ==> Agree(r.m.s, r'.m.s))
    ensures Alike(top, PersistDeferred(env, m, polling), PersistDeferred(env, m', polling))
  {
    hide Sound, SamePending, Weak, LogsAlike, Agree, Snapshot;
    assert m'.data == m.data;
    var d, d' := m.s.(data := m.data), m'.s.(data := m'.data);
    var t := if polling then d.(status := Polling) else d;
    var t' := if polling then d'.(status := Polling) else d';
    SameFields(m.s, m'.s);
    LinkedFields(top, m, m', d, d');
    LinkedFields(top, m, m', t, t');
    if GoingOn(m.s) {
      AgreeFields(m.s, m'.s, d, d');
      AgreeFields(m.s, m'.s, t, t');
    }
    SaveAlike(env, top, m.(s := d), m'.(s := d'));
    SaveAlike(env, top, m.(s := t), m'.(s := t'));
  }

  lemma SameFields(s: RunState, s': RunState)
    requires Weak(s, s')
    ensures s' == s.(completedSteps := s'.completedSteps, repeatStates := s'.repeatStates,
                     compensationIndex := s'.compensationIndex)
  {
  }

  lemma InvokeAlike(env: Env, top: seq<Step>, m: Machine, m': Machine, call: Call)
    requires Blind(env) && Linked(top, m, m')
    ensures var a, a' := Invoke(env, m, call), Invoke(env, m', call);
      a'.reply == a.reply && Linked(top, a.m, a'.m) && a.m.s == m.s && a'.m.s == m'.s
  {
    hide Sound, SamePending, Weak;
    AlikeBlur(top, m.log, m'.log);
    assert env.call(m.log, call, m.data) == env.call(m'.log, call, m'.data);
    var e := Called(call, env.call(m.log, call, m.data).reply);
    AppendAlike(top, m.log, m'.log, e, e);
  }

  lemma SameTime(env: Env, top: seq<Step>, m: Machine, m': Machine)
    requires Blind(env) && Linked(top, m, m')
    ensures env.now(m'.log) == env.now(m.log) && env.cancelled(m'.log) == env.cancelled(m.log)
  {
    AlikeBlur(top, m.log, m'.log);
  }

  lemma FailAlike(env: Env, top: seq<Step>, m: Machine, m': Machine, path: Path, failure: Failure, polling: bool)
    requires Blind(env) && Linked(top, m, m') && GoingOn(m.s) && Agree(m.s, m'.s)
    ensures Alike(top, CallbackFailed(env, m, path, failure, polling), CallbackFailed(env, m', path, failure, polling))
  {
    hide Linked, Agree, PersistDeferred;
    SaveDataAlike(env, top, m, m', polling);
  }

  lemma {:induction false} AttemptAlike(env: Env, top: seq<Step>, m: Machine, m': Machine, path: Path, left: nat,
                                        delay: int, backoff: bool)
    requires Blind(env) && Linked(top, m, m') && left >= 1
    ensures var a, a' := Attempt(env, m, path, left, delay, backoff), Attempt(env, m', path, left, delay, backoff);
      a'.reply == a.reply && Linked(top, a.m, a'.m) && a.m.s == m.s && a'.m.s == m'.s
    decreases left
  {
    hide Sound, SamePending, Weak, Blind;
    InvokeAlike(env, top, m, m', Do(path));
    var a, a' := Invoke(env, m, Do(path)), Invoke(env, m', Do(path));
    if !(a.reply.Ok? || a.reply.failure == RetryAfter || left == 1) {
      var t, t' := a.m.(log := a.m.log + [Slept(delay)]), a'.m.(log := a'.m.log + [Slept(delay)]);
      AppendAlike(top, a.m.log, a'.m.log, Slept(delay), Slept(delay));
      SameTime(env, top, t, t');
      if !env.cancelled(t.log) {
        AttemptAlike(env, top, t, t', path, left - 1, NextDelay(backoff, delay), backoff);
      }
    }
  }

  // ---------- leaf steps ----------

  lemma UndoAppend(cs: seq<CompletedStep>, e: CompletedStep)
    ensures Undo(cs + [e]) == (if e.hasCompensator then [e.path] else []) + Undo(cs)
  {
    assert (cs + [e])[..|cs|] == cs;
  }

  lemma CompletedAfter(s: RunState, path: Path, has: bool, q: Path)
    ensures IsCompleted(Complete(s, path, has), q) <==> IsCompleted(s, q) || q == path
  {
    var t := Complete(s, path, has);
    if IsCompleted(s, q) {
      var i :| 0 <= i < |s.completedSteps| && s.completedSteps[i].path == q;
      assert t.completedSteps[i].path == q;
    }
    assert t.completedSteps[|s.completedSteps|].path == path;
  }

  lemma CompleteAgree(s: RunState, s': RunState, path: Path, has: bool)
    requires Agree(s, s')
    ensures Agree(Complete(s, path, has), Complete(s', path, has))
  {
    var t, t' := Complete(s, path, has), Complete(s', path, has);
    forall q ensures Over(t, q) || Kept(q, t, t') {
      CompletedAfter(s, path, has, q);
      CompletedAfter(s', path, has, q);
      assert Over(s, q) || Kept(q, s, s');
      assert Over(t, q) == Over(s, q);
    }
  }

  lemma CompleteAlike(top: seq<Step>, m: Machine, m': Machine, path: Path, has: bool)
    requires Linked(top, m, m') && m.s.status != Compensating && (has ==> IsCompensable(top, path))
    ensures Linked(top, m.(s := Complete(m.s, path, has)), m'.(s := Complete(m'.s, path, has)))
    ensures Agree(m.s, m'.s) ==> Agree(Complete(m.s, path, has), Complete(m'.s, path, has))
  {
    hide LogsAlike, Agree;
    UndoAppend(m.s.completedSteps, CompletedStep(path, has));
    UndoAppend(m'.s.completedSteps, CompletedStep(path, has));
    if Agree(m.s, m'.s) {
      CompleteAgree(m.s, m'.s, path, has);
    }
  }

  lemma ActionAlike(env: Env, top: seq<Step>, compensated: bool, retry: Option<Retry>, path: Path, m: Machine, m': Machine)
    requires Blind(env) && Poised(top, path, m, m') && (compensated ==> IsCompensable(top, path))
    ensures Alike(top, ExecAction(env, compensated, retry, path, m), ExecAction(env, compensated, retry, path, m'))
  {
    hide Linked, Agree, Blind, SnapshotData;
    var n, delay, backoff := MaxAttempts(retry), InitialDelay(retry), Backoff(retry);
    AttemptAlike(env, top, m, m', path, n, delay, backoff);
    var a, a' := Attempt(env, m, path, n, delay, backoff), Attempt(env, m', path, n, delay, backoff);
    if a.reply.Fail? {
      FailAlike(env, top, a.m, a'.m, path, a.reply.failure, false);
    } else {
      CompleteAlike(top, a.m, a'.m, path, compensated);
      SaveDataAlike(env, top, a.m.(s := Complete(a.m.s, path, compensated)), a'.m.(s := Complete(a'.m.s, path, compensated)), false);
    }
  }

  /** The two machines after the same change of fields outside the journal. */
  lemma MoveAlike(top: seq<Step>, path: Path, m: Machine, m': Machine, t: RunState, t': RunState)
    requires Poised(top, path, m, m') && SameJournal(m.s, t) && SameJournal(m'.s, t') && t.status == Running
    requires t' == t.(completedSteps := t'.completedSteps, repeatStates := t'.repeatStates,
                      compensationIndex := t'.compensationIndex)
    ensures Poised(top, path, m.(s := t), m'.(s := t'))
  {
    hide Linked, Agree, Over;
    LinkedFields(top, m, m', t, t');
    AgreeFields(m.s, m'.s, t, t');
  }

  lemma LinkedSame(top: seq<Step>, m: Machine, m': Machine)
    requires Linked(top, m, m')
    ensures m'.data == m.data
    ensures m'.s == m.s.(completedSteps := m'.s.completedSteps, repeatStates := m'.s.repeatStates,
                         compensationIndex := m'.s.compensationIndex)
  {
  }

  lemma PollAlike(env: Env, top: seq<Step>, maxDuration: int, path: Path, m: Machine, m': Machine)
    requires Blind(env) && Poised(top, path, m, m')
    ensures Alike(top, ExecPoll(env, maxDuration, path, m), ExecPoll(env, maxDuration, path, m'))
  {
    hide Linked, Agree, Over, Blind, SnapshotData, PersistDeferred;
    LinkedSame(top, m, m');
    SameTime(env, top, m, m');
    var started := if m.s.pollStartedAt.None? then env.now(m.log) else m.s.pollStartedAt.value;
    var q, q' := m.(s := m.s.(pollStartedAt := Some(started))), m'.(s := m'.s.(pollStartedAt := Some(started)));
    MoveAlike(top, path, m, m', q.s, q'.s);
    MoveAlike(top, path, m, m', m.s.(pollStartedAt := None), m'.s.(pollStartedAt := None));
    InvokeAlike(env, top, q, q', Check(path));
    var a, a' := Invoke(env, q, Check(path)), Invoke(env, q', Check(path));
    SameTime(env, top, a.m, a'.m);
    var t, t' := a.m.(s := a.m.s.(pollStartedAt := None)), a'.m.(s := a'.m.s.(pollStartedAt := None));
    MoveAlike(top, path, a.m, a'.m, t.s, t'.s);
    if a.reply.Fail? {
      FailAlike(env, top, a.m, a'.m, path, a.reply.failure, true);
      FailAlike(env, top, t, t', path, a.reply.failure, true);
    } else {
      SaveDataAlike(env, top, a.m, a'.m, true);
      CompleteAlike(top, t, t', path, false);
      SaveDataAlike(env, top, t.(s := Complete(t.s, path, false)), t'.(s := Complete(t'.s, path, false)), false);
    }
  }

  lemma DecideAlike(env: Env, top: seq<Step>, paths: seq<BranchPath>, path: Path, m: Machine, m': Machine)
    requires Blind(env) && Poised(top, path, m, m')
    ensures var d, d' := DecideBranch(env, FullPaths(paths), path, m), DecideBranch(env, paths, path, m');
      if d.Entered? then
        && d'.Entered? && d'.index == d.index && d.index < |paths| && Poised(top, path, d.m, d'.m)
        && FindKey(paths, paths[d.index].key) == Some(d.index)
        && d.m.s.currentPath == path + [paths[d.index].key] && d.m.data == d.m.s.data
        && d.m.s.completedSteps == m.s.completedSteps + [CompletedStep(path, false)]
        && d.m.s.repeatStates == m.s.repeatStates
      else d'.Settled? && Alike(top, d.r, d'.r)
  {
    hide Linked, Agree, Blind, SnapshotData, PersistDeferred, Over, Complete;
    InvokeAlike(env, top, m, m', Decide(path));
    var a, a' := Invoke(env, m, Decide(path)), Invoke(env, m', Decide(path));
    if a.reply.Fail? {
      FailAlike(env, top, a.m, a'.m, path, a.reply.failure, false);
    } else {
      FullKey(paths, a.reply.key);
      var k := FindKey(paths, a.reply.key);
      if k.Some? {
        ChosenAlike(env, top, path, if paths[k.value].steps == [] then path else path + [paths[k.value].key], a.m, a'.m);
      }
    }
  }

  /** A decision is recorded, the path moves to where it leads, and that is saved. */
  lemma ChosenAlike(env: Env, top: seq<Step>, path: Path, at: Path, m: Machine, m': Machine)
    requires Blind(env) && Poised(top, path, m, m')
    ensures var r := SnapshotData(env, m.(s := Complete(m.s, path, false).(currentPath := at)));
      var r' := SnapshotData(env, m'.(s := Complete(m'.s, path, false).(currentPath := at)));
      && Alike(top, r, r')
      && (r.err == NoError ==>
            && Poised(top, path, r.m, r'.m) && r.m.s.currentPath == at && r.m.data == r.m.s.data
            && r.m.s.completedSteps == m.s.completedSteps + [CompletedStep(path, false)]
            && r.m.s.repeatStates == m.s.repeatStates)
  {
    hide Linked, Agree, Blind, SnapshotData, Over;
    var c, c' := m.(s := Complete(m.s, path, false)), m'.(s := Complete(m'.s, path, false));
    CompleteAlike(top, m, m', path, false);
    OverCompleted(m.s, path, path);
    LinkedSame(top, c, c');
    MoveAlike(top, path, c, c', c.s.(currentPath := at), c'.s.(currentPath := at));
    var t, t' := c.(s := c.s.(currentPath := at)), c'.(s := c'.s.(currentPath := at));
    SaveDataAlike(env, top, t, t', false);
    if SnapshotData(env, t).err == NoError {
      OverFields(t.s, SnapshotData(env, t).m.s);
    }
  }

  lemma OverCompleted(s: RunState, path: Path, q: Path)
    ensures Over(Complete(s, path, false), q) == Over(s, q)
  {
  }

  lemma OverFields(s: RunState, t: RunState)
    requires t.repeatStates == s.repeatStates
    ensures forall q :: Over(t, q) == Over(s, q)
  {
  }

  // ---------- repeats ----------

  lemma PastMonotone(rs: RepeatState, now: RepeatState, component: string)
    requires Past(rs, component) && !rs.completed && now.iteration >= rs.iteration
    ensures Past(now, component)
  {
    var n: nat :| Nth(component, n) && n < rs.iteration;
    assert Nth(component, n);
  }

  /** Recording a later position of one repeat makes nothing unfinished again. */
  lemma OverMonotone(s: RunState, path: Path, now: RepeatState, q: Path)
    requires !RepeatAt(s, path).completed && now.iteration >= RepeatAt(s, path).iteration
    ensures Over(s, q) ==> Over(s.(repeatStates := s.repeatStates[path := now]), q)
  {
    if Over(s, q) {
      var j :| 0 <= j < |q| && q[..j] in s.repeatStates && Past(s.repeatStates[q[..j]], q[j]);
      if q[..j] == path {
        PastMonotone(s.repeatStates[path], now, q[j]);
      }
    }
  }

  lemma RecordAlike(top: seq<Step>, path: Path, m: Machine, m': Machine, now: RepeatState)
    requires Poised(top, path, m, m') && IsRepeat(top, path)
    requires !RepeatAt(m.s, path).completed && now.iteration >= RepeatAt(m.s, path).iteration
    ensures Poised(top, path, WithRepeat(m, path, now), WithRepeat(m', path, now))
  {
    hide Past, LogsAlike;
    var t, t' := WithRepeat(m, path, now).s, WithRepeat(m', path, now).s;
    forall q ensures Over(t, q) || Kept(q, t, t') {
      OverMonotone(m.s, path, now, q);
      assert Over(m.s, q) || Kept(q, m.s, m'.s);
    }
    assert !Over(t, path) by {
      forall j | 0 <= j < |path| ensures path[..j] != path {}
    }
  }

  lemma PoisedRepeat(top: seq<Step>, path: Path, m: Machine, m': Machine)
    requires Poised(top, path, m, m')
    ensures RepeatAt(m'.s, path) == RepeatAt(m.s, path) && Kept(path, m.s, m'.s)
    ensures m'.s.currentPath == m.s.currentPath && m'.s.status == m.s.status && m'.data == m.data
    ensures m'.s.data == m.s.data
  {
  }

  lemma StartAlike(env: Env, top: seq<Step>, maxDuration: int, path: Path, m: Machine, m': Machine)
    requires Blind(env) && Poised(top, path, m, m') && IsRepeat(top, path) && !RepeatAt(m.s, path).completed
    ensures var r, r' := EnsureStarted(env, maxDuration, path, m), EnsureStarted(env, maxDuration, path, m');
      && Alike(top, r, r') && (r.err == NoError ==> Poised(top, path, r.m, r'.m))
  {
    hide Linked, Agree, Over, Snapshot, Blind;
    PoisedRepeat(top, path, m, m');
    SameTime(env, top, m, m');
    var rs := RepeatAt(m.s, path).(startedAt := Some(env.now(m.log)));
    RecordAlike(top, path, m, m', rs);
    var t, t' := WithRepeat(m, path, rs), WithRepeat(m', path, rs);
    SaveAlike(env, top, t, t');
    if Snapshot(env, t).err == NoError {
      OverFields(t.s, Snapshot(env, t).m.s);
    }
  }

  // ---------- forgetting an iteration ----------

  lemma {:induction false} OutsideSubset(cs: seq<CompletedStep>, prefix: Path, e: CompletedStep)
    requires e in Outside(cs, prefix)
    ensures e in cs
  {
    if e in Outside(cs[..|cs| - 1], prefix) {
      OutsideSubset(cs[..|cs| - 1], prefix, e);
    }
  }

  /** Dropping entries that have no compensator leaves the rollback as it is. */
  lemma {:induction false} UndoOutside(cs: seq<CompletedStep>, prefix: Path)
    requires forall e :: e in cs && IsPrefix(prefix, e.path) ==> !e.hasCompensator
    ensures Undo(Outside(cs, prefix)) == Undo(cs)
  {
    if cs != [] {
      var rest, last := cs[..|cs| - 1], cs[|cs| - 1];
      UndoOutside(rest, prefix);
      if !IsPrefix(prefix, last.path) {
        UndoAppend(Outside(rest, prefix), last);
      }
    }
  }

  /** Nothing in an iteration of a repeat without compensators is marked for rollback. */
  lemma NothingToUndo(top: seq<Step>, step: Step, path: Path, n: nat, s: RunState, s': RunState)
    requires Sound(top, s, s') && step.kind.Repeat? && NoCompensators(step.kind.steps)
    requires FindStep(top, path) == Some(step) && StepLocated(top, step, path)
    ensures forall e :: e in s'.completedSteps && IsPrefix(path + [Itoa(n)], e.path) ==> !e.hasCompensator
  {
    var prefix := path + [Itoa(n)];
    forall e | e in s'.completedSteps && IsPrefix(prefix, e.path) ensures !e.hasCompensator {
      if IsCompensable(top, e.path) {
        FoundOdd(top, path);
        FoundOdd(top, e.path);
        var rest := e.path[|prefix|..];
        assert e.path == prefix + rest && rest != [];
        LocateRepeat(top, step, path, n);
        NothingCompensable(step.kind.steps, rest);
      }
    }
  }

  lemma RetainedLinked(top: seq<Step>, step: Step, path: Path, n: nat, m: Machine, m': Machine)
    requires Linked(top, m, m') && step.kind.Repeat? && ValidStep(step) && m.s.status != Compensating
    requires FindStep(top, path) == Some(step) && StepLocated(top, step, path)
    ensures Linked(top, m, m'.(s := Retained(step, m'.s, path, n)))
  {
    hide LogsAlike, StepLocated, ValidSteps;
    if step.kind.compact {
      var prefix := path + [Itoa(n)];
      NothingToUndo(top, step, path, n, m.s, m'.s);
      UndoOutside(m'.s.completedSteps, prefix);
      forall e | e in Outside(m'.s.completedSteps, prefix) && e.hasCompensator ensures IsCompensable(top, e.path) {
        OutsideSubset(m'.s.completedSteps, prefix, e);
      }
    }
  }

  /** After iteration rs is finished in both, forgetting it in one of them is not a disagreement. */
  lemma RetainedAgree(step: Step, path: Path, s: RunState, s': RunState, rs: RepeatState, now: RepeatState)
    requires step.kind.Repeat? && Agree(s, s') && !Over(s, path)
    requires RepeatAt(s, path) == rs && !rs.completed
    requires now.iteration > rs.iteration || (now.iteration == rs.iteration && now.completed)
    ensures var kept := Retained(step, s', path, rs.iteration);
      Agree(s.(repeatStates := s.repeatStates[path := now]), kept.(repeatStates := kept.repeatStates[path := now]))
  {
    hide Retained, Past;
    var prefix := path + [Itoa(rs.iteration)];
    var kept := Retained(step, s', path, rs.iteration);
    var t, t' := s.(repeatStates := s.repeatStates[path := now]), kept.(repeatStates := kept.repeatStates[path := now]);
    forall q ensures Over(t, q) || Kept(q, t, t') {
      if IsPrefix(prefix, q) {
        FinishedOver(t, path, rs.iteration, q);
      } else {
        OverMonotone(s, path, now, q);
        assert Over(s, q) || Kept(q, s, s');
        RetainedKept(step, s', path, rs.iteration, q);
        assert q == path ==> !Over(s, q);
      }
    }
  }

  lemma FinishedOver(s: RunState, path: Path, n: nat, q: Path)
    requires path in s.repeatStates && IsPrefix(path + [Itoa(n)], q)
    requires n < s.repeatStates[path].iteration || (n == s.repeatStates[path].iteration && s.repeatStates[path].completed)
    ensures Over(s, q)
  {
    Component(path, Itoa(n), q);
    PrefixTransitive(path, path + [Itoa(n)], q);
    assert q[..|path|] == path;
    assert Nth(q[|path|], n);
  }

  lemma FinishAlike(env: Env, top: seq<Step>, step: Step, path: Path, m: Machine, m': Machine, rs: RepeatState)
    requires Blind(env) && Poised(top, path, m, m') && step.kind.Repeat? && ValidStep(step)
    requires FindStep(top, path) == Some(step) && StepLocated(top, step, path)
    requires RepeatAt(m.s, path) == rs && !rs.completed
    ensures Alike(top, FinishIteration(env, FullStep(step), path, m, rs), FinishIteration(env, step, path, m', rs))
  {
    hide Linked, Agree, Over, Blind, SnapshotData, PersistDeferred, StepLocated, ValidStep, DoneState, NextState, Retained;
    SameTime(env, top, m, m');
    InvokeAlike(env, top, m, m', Until(path, rs.iteration));
    var a, a' := Invoke(env, m, Until(path, rs.iteration)), Invoke(env, m', Until(path, rs.iteration));
    if a.reply.Fail? {
      FailAlike(env, top, a.m, a'.m, path, a.reply.failure, false);
    } else {
      RetainedLinked(top, step, path, rs.iteration, a.m, a'.m);
      FullRetains(step, a.m.s, path, rs.iteration);
      if a.reply.done {
        DoneAlike(env, top, step, path, a.m, a'.m, rs);
      } else if !LastIteration(step, rs) {
        NextAlike(env, top, step, path, a.m, a'.m, rs);
      }
    }
  }

  lemma FullRetains(step: Step, s: RunState, path: Path, n: nat)
    requires step.kind.Repeat?
    ensures Retained(FullStep(step), s, path, n) == s
  {
  }

  lemma NextAlike(env: Env, top: seq<Step>, step: Step, path: Path, m: Machine, m': Machine, rs: RepeatState)
    requires Blind(env) && Poised(top, path, m, m') && step.kind.Repeat? && ValidStep(step)
    requires FindStep(top, path) == Some(step) && StepLocated(top, step, path)
    requires RepeatAt(m.s, path) == rs && !rs.completed
    ensures var t, t' := m.(s := NextState(FullStep(step), path, m.s, rs)), m'.(s := NextState(step, path, m'.s, rs));
      Alike(top, PersistDeferred(env, t, false), PersistDeferred(env, t', false))
  {
    hide LogsAlike, Blind, Agree, Over, PersistDeferred, StepLocated, ValidStep, Undo, Retained;
    var next := rs.(iteration := rs.iteration + 1, awaitingCondition := false);
    var at := path + [Itoa(rs.iteration + 1)];
    RecordedAlike(top, step, path, m, m', rs, next, at);
    FullRetains(step, m.s, path, rs.iteration);
    var t, t' := m.(s := NextState(FullStep(step), path, m.s, rs)), m'.(s := NextState(step, path, m'.s, rs));
    SaveDataAlike(env, top, t, t', false);
  }

  /** The iteration is over in both: its record is renewed, its history kept in one of them only. */
  lemma RecordedAlike(top: seq<Step>, step: Step, path: Path, m: Machine, m': Machine, rs: RepeatState,
                      now: RepeatState, at: Path)
    requires Poised(top, path, m, m') && step.kind.Repeat? && ValidStep(step)
    requires FindStep(top, path) == Some(step) && StepLocated(top, step, path)
    requires RepeatAt(m.s, path) == rs && !rs.completed
    requires now.iteration > rs.iteration || (now.iteration == rs.iteration && now.completed)
    ensures var t := m.s.(repeatStates := m.s.repeatStates[path := now], currentPath := at);
      var kept := Retained(step, m'.s, path, rs.iteration);
      var t' := kept.(repeatStates := kept.repeatStates[path := now], currentPath := at);
      Linked(top, m.(s := t), m'.(s := t')) && Agree(t, t')
  {
    hide LogsAlike, Agree, Over, StepLocated, ValidStep, Undo, Retained;
    var kept := Retained(step, m'.s, path, rs.iteration);
    RetainedLinked(top, step, path, rs.iteration, m, m');
    RetainedAgree(step, path, m.s, m'.s, rs, now);
    var u := m.s.(repeatStates := m.s.repeatStates[path := now]);
    var u' := kept.(repeatStates := kept.repeatStates[path := now]);
    AgreeFields(u, u', u.(currentPath := at), u'.(currentPath := at));
  }

  lemma DoneAlike(env: Env, top: seq<Step>, step: Step, path: Path, m: Machine, m': Machine, rs: RepeatState)
    requires Blind(env) && Poised(top, path, m, m') && step.kind.Repeat? && ValidStep(step)
    requires FindStep(top, path) == Some(step) && StepLocated(top, step, path)
    requires RepeatAt(m.s, path) == rs && !rs.completed
    ensures var t, t' := m.(s := DoneState(FullStep(step), path, m.s, rs)), m'.(s := DoneState(step, path, m'.s, rs));
      Alike(top, SnapshotData(env, t), SnapshotData(env, t'))
  {
    hide LogsAlike, Blind, Agree, Over, SnapshotData, StepLocated, ValidStep, Undo, Retained;
    var done := rs.(awaitingCondition := false, completed := true, startedAt := None);
    RecordedAlike(top, step, path, m, m', rs, done, path);
    FullRetains(step, m.s, path, rs.iteration);
    var kept := Retained(step, m'.s, path, rs.iteration);
    var u := m.(s := m.s.(repeatStates := m.s.repeatStates[path := done], currentPath := path));
    var u' := m'.(s := kept.(repeatStates := kept.repeatStates[path := done], currentPath := path));
    CompleteAlike(top, u, u', path, false);
    var t, t' := m.(s := DoneState(FullStep(step), path, m.s, rs)), m'.(s := DoneState(step, path, m'.s, rs));
    SaveDataAlike(env, top, t, t', false);
  }
}
