/**
 * The second induction over the tree, under any environment: executing any step or scope makes each
 * forward call when it is the next one of the last durable state, saves what the interpreter makes of
 * the answer, keeps the records of repeats sound and remembered, and acts on a not-done answer. What a
 * cancelled execution leaves in memory is the last durable state, but for where it was stopped.
 */
module Courses {
  import opened Options
  import opened Decimal
  import opened Definition
  import opened State
  import opened Executor
  import opened Journal
  import opened Frames
  import opened Scopes
  import opened Footprint
  import opened Places
  import opened Lockstep
  import opened Records
  import opened NextCalls
  import opened Effects

  predicate NotDone(e: Event) {
    e.Called? && e.call.Until? && e.reply.Ok? && !e.reply.done
  }

  predicate Hanging(log: Log) {
    log != [] && NotDone(log[|log| - 1])
  }

  /** After that answer a compact repeat has dropped its iteration in memory, ahead of the store. */
  predicate Dropped(top: seq<Step>, log: Log) {
    Hanging(log) && CompactAt(top, log[|log| - 1].call.path)
  }

  predicate AtLimit(top: seq<Step>, call: Call)
    requires call.Until?
  {
    && RepeatPath(top, call.path)
    && var limit := FindStep(top, call.path).value.kind.maxIterations;
    0 < limit <= call.iteration + 1
  }

  /** What may be saved right after a not-done answer. */
  ghost predicate Advanced(top: seq<Step>, log: Log, s: RunState) {
    Hanging(log) ==>
      var call := log[|log| - 1].call;
      if AtLimit(top, call) then s.status == Compensating
      else
        && s.status == Running && call.path in s.repeatStates
        && var was, now := RepeatAt(Durable(log), call.path), s.repeatStates[call.path];
        now.iteration == call.iteration + 1 && !now.completed && !now.awaitingCondition
        && now.startedAt == was.startedAt
  }

  /** A run of a pipeline, whose events begin at from. */
  datatype Course = Course(env: Env, top: seq<Step>, from: nat)

  /** A forward call is the next one of the last durable state; a run completes when there is none. */
  ghost predicate Follows(env: Env, top: seq<Step>, log: Log, e: Event) {
    && (e.Called? && !e.call.Compensate? ==> NextCall(top, Durable(log)) == Some(e.call))
    && (e.Saved? ==>
          && Sound(env, top, e.state) && Remembers(Durable(log), e.state)
          && (e.state.status == Completed ==> NextCall(top, Durable(log)) == None)
          && Worked(top, log, e.state))
  }

  ghost predicate Fits(c: Course, log: Log, e: Event) {
    Follows(c.env, c.top, log, e) && (e.Saved? && |log| > c.from ==> Advanced(c.top, log, e.state))
  }

  ghost predicate Chronicle(c: Course, log: Log) {
    c.from <= |log| && forall k :: c.from <= k < |log| ==> Fits(c, log[..k], log[k])
  }

  /** A forward machine whose last event is not a not-done answer; calls may be ahead of the store. */
  ghost predicate Asked(c: Course, m: Machine) {
    && Chronicle(c, m.log) && c.from < |m.log| && !Hanging(m.log) && m.s.status == Running
    && Sound(c.env, c.top, m.s) && Remembers(Durable(m.log), m.s) && Tracks(c.top, Durable(m.log), m.s)
  }

  /** A machine from which a scope or a step goes on. */
  ghost predicate Carried(c: Course, m: Machine) {
    Asked(c, m) && Linked(Durable(m.log), m.s) && Unmoved(Durable(m.log), m.s) && m.data == m.s.data
  }

  /** Where the state and the log of a result stand, however it ended. */
  ghost predicate Ended(c: Course, r: Result) {
    && Chronicle(c, r.m.log) && c.from < |r.m.log|
    && (r.err == Cancelled ==> c.env.cancelled(r.m.log))
    && (r.err != SnapshotFailed && r.m.s.status == Running && !Dropped(c.top, r.m.log) ==>
          && Clocked(c.env, r.m.s) && Halfway(c.top, Durable(r.m.log), r.m.s)
          && (r.err != Cancelled ==> NextCall(c.top, r.m.s) == NextCall(c.top, Durable(r.m.log))))
    && (r.err != SnapshotFailed && (r.m.s.status == Compensating || r.m.s.status == Failed) ==>
          Clocked(c.env, r.m.s) && Skipped(c.top, Durable(r.m.log), r.m.s))
    && (r.err != SnapshotFailed && r.err != Cancelled ==>
          && Sound(c.env, c.top, r.m.s) && Remembers(Durable(r.m.log), r.m.s))
  }

  ghost predicate ScopeEnds(c: Course, steps: seq<Step>, scope: Path, r: Result) {
    && Ended(c, r)
    && (r.err != SnapshotFailed && r.err != Cancelled ==> !Hanging(r.m.log))
    && (r.err == NoError && r.m.s.status == Running ==>
          Carried(c, r.m) && NoneBelow(r.m.s, scope) && NextOfScope(steps, scope, r.m.s) == None)
  }

  /** A step may end right after a not-done answer when that was the last iteration allowed. */
  ghost predicate StepEndsWell(c: Course, step: Step, path: Path, r: Result) {
    && Ended(c, r)
    && (r.err != SnapshotFailed && r.err != Cancelled && Hanging(r.m.log) ==>
          && r.err == StepFailed(path, Plain) && r.m.s.status == Running
          && AtLimit(c.top, r.m.log[|r.m.log| - 1].call))
    && (r.err == NoError && r.m.s.status == Running ==>
          && Carried(c, r.m) && (forall p :: Unfinished(r.m.s, p) ==> p < path)
          && NextOfStep(step, path, r.m.s) == None)
  }

  // ---------- logs ----------

  lemma AppendFits(c: Course, log: Log, e: Event)
    requires Chronicle(c, log) && Fits(c, log, e)
    ensures Chronicle(c, log + [e])
  {
    hide Fits;
    forall k | c.from <= k < |log| + 1 ensures Fits(c, (log + [e])[..k], (log + [e])[k]) {
      if k < |log| {
        assert (log + [e])[..k] == log[..k];
      } else {
        assert (log + [e])[..k] == log;
      }
    }
  }

  lemma Saves(c: Course, m: Machine)
    requires Chronicle(c, m.log) && c.from <= |m.log| && (c.from < |m.log| ==> Advanced(c.top, m.log, m.s))
    requires Sound(c.env, c.top, m.s) && Remembers(Durable(m.log), m.s)
    requires m.s.status == Completed ==> NextCall(c.top, Durable(m.log)) == None
    requires Worked(c.top, m.log, m.s)
    ensures var r := Snapshot(c.env, m);
      && Ended(c, r) && (r.err == NoError || r.err == SnapshotFailed)
      && (r.err == NoError ==>
            && r.m.s == m.s.(revision := m.s.revision + 1) && r.m.data == m.data
            && !Hanging(r.m.log) && Durable(r.m.log) == r.m.s && Sound(c.env, c.top, r.m.s)
            && (r.m.s.status == Running && r.m.data == r.m.s.data ==> Carried(c, r.m)))
  {
    hide Sound, Remembers, Advanced, Linked, Chronicle, Tracks, Halfway, Unmoved, NextCall, Skipped, Worked;
    var s := m.s.(revision := m.s.revision + 1);
    SameSound(c.env, c.top, Durable(m.log), m.s, s);
    WorkedSame(c.top, m.log, m.s, s);
    if c.from < |m.log| {
      AdvancedSame(c.top, m.log, m.s, s);
    }
    if c.env.save(m.log, s) {
      AppendFits(c, m.log, Saved(s));
      LinkedSelf(s);
      Append(m.log, Saved(s));
      TracksSelf(c.top, s);
      SavedHalfway(c, s);
    } else {
      AppendFits(c, m.log, Refused(s));
    }
  }

  lemma SavedHalfway(c: Course, s: RunState)
    requires Sound(c.env, c.top, s)
    ensures Clocked(c.env, s) && Halfway(c.top, s, s) && Skipped(c.top, s, s)
  {
    TracksSelf(c.top, s);
  }

  lemma LinkedSelf(s: RunState)
    ensures Linked(s, s) && Remembers(s, s)
  {
  }

  lemma AdvancedSame(top: seq<Step>, log: Log, s: RunState, s': RunState)
    requires Advanced(top, log, s) && s'.status == s.status && s'.repeatStates == s.repeatStates
    ensures Advanced(top, log, s')
  {
  }

  /** Saving the state with the data: what is then carried on. */
  lemma SavesData(c: Course, m: Machine)
    requires Chronicle(c, m.log) && c.from <= |m.log| && (c.from < |m.log| ==> Advanced(c.top, m.log, m.s))
    requires Sound(c.env, c.top, m.s) && Remembers(Durable(m.log), m.s)
    requires m.s.status == Completed ==> NextCall(c.top, Durable(m.log)) == None
    requires Worked(c.top, m.log, m.s)
    ensures var r := SnapshotData(c.env, m);
      && Ended(c, r) && (r.err == NoError || r.err == SnapshotFailed)
      && (r.err == NoError ==>
            && r.m.s == m.s.(revision := m.s.revision + 1, data := m.data) && !Hanging(r.m.log)
            && (m.s.status == Running ==> Carried(c, r.m)))
  {
    hide Sound, Remembers, Advanced, Chronicle, Snapshot, Carried, NextCall, Skipped, Worked;
    var t := m.(s := m.s.(data := m.data));
    SameSound(c.env, c.top, Durable(m.log), m.s, t.s);
    WorkedSame(c.top, m.log, m.s, t.s);
    if c.from < |m.log| {
      AdvancedSame(c.top, m.log, m.s, t.s);
    }
    Saves(c, t);
  }

  /** A delayed continuation: the state is saved, perhaps as waiting for a poll. */
  lemma Defers(c: Course, m: Machine, polling: bool)
    requires Chronicle(c, m.log) && c.from < |m.log| && (Hanging(m.log) ==> !polling) && m.s.status == Running
    requires Sound(c.env, c.top, m.s) && Remembers(Durable(m.log), m.s) && Advanced(c.top, m.log, m.s)
    requires Worked(c.top, m.log, m.s)
    ensures var r := PersistDeferred(c.env, m, polling);
      && Ended(c, r) && (r.err == Continue || r.err == SnapshotFailed)
      && (r.err == Continue ==> !Hanging(r.m.log))
  {
    hide Sound, Remembers, Carried, Chronicle, SnapshotData, Worked;
    var t := m.(s := if polling then m.s.(status := Polling) else m.s);
    WorkedSame(c.top, m.log, m.s, t.s);
    SameSound(c.env, c.top, Durable(m.log), m.s, t.s);
    SavesData(c, t);
  }

  /** An event that saves nothing. */
  lemma Quietly(c: Course, log: Log, e: Event)
    requires Chronicle(c, log) && !e.Saved?
    requires e.Called? && !e.call.Compensate? ==> NextCall(c.top, Durable(log)) == Some(e.call)
    ensures Chronicle(c, log + [e]) && Durable(log + [e]) == Durable(log)
    ensures Hanging(log + [e]) == NotDone(e)
  {
    AppendFits(c, log, e);
    Append(log, e);
  }

  lemma {:induction false} AttemptQuiet(c: Course, m: Machine, path: Path, left: nat, delay: int, backoff: bool)
    requires Chronicle(c, m.log) && left >= 1 && !Hanging(m.log)
    requires NextCall(c.top, Durable(m.log)) == Some(Do(path))
    ensures var a := Attempt(c.env, m, path, left, delay, backoff);
      && Chronicle(c, a.m.log) && Durable(a.m.log) == Durable(m.log) && !Hanging(a.m.log)
      && a.m.s == m.s && |m.log| <= |a.m.log|
      && (a.reply.Ok? ==> a.m.log != [] && a.m.log[|a.m.log| - 1] == Called(Do(path), a.reply))
    decreases left
  {
    hide Chronicle, NextCall, Durable;
    var a := Invoke(c.env, m, Do(path));
    Quietly(c, m.log, Called(Do(path), a.reply));
    if !(a.reply.Ok? || a.reply.failure == RetryAfter || left == 1) {
      var slept := a.m.(log := a.m.log + [Slept(delay)]);
      Quietly(c, a.m.log, Slept(delay));
      if !c.env.cancelled(slept.log) {
        AttemptQuiet(c, slept, path, left - 1, NextDelay(backoff, delay), backoff);
      }
    }
  }

  // ---------- leaf steps ----------

  lemma Carries(c: Course, m: Machine, m': Machine)
    requires Asked(c, m) && m'.s == m.s && Durable(m'.log) == Durable(m.log)
    requires Chronicle(c, m'.log) && c.from < |m'.log| && !Hanging(m'.log)
    ensures Asked(c, m')
  {
    hide Chronicle, Sound, Remembers, Tracks;
  }

  lemma Fails(c: Course, step: Step, m: Machine, path: Path, failure: Failure, polling: bool)
    requires Asked(c, m)
    ensures StepEndsWell(c, step, path, CallbackFailed(c.env, m, path, failure, polling))
  {
    hide Chronicle, Remembers, PersistDeferred, Carried, Halfway, NextCall, OnPath, Idle, Rooted, OnlyRepeats, Clocked,
         Worked;
    TracksWorked(c.top, m.log, m.s);
    Defers(c, m, polling);
  }

  /** A step that is not a repeat, standing where its scope put it. */
  ghost predicate AtLeaf(c: Course, path: Path, s: RunState) {
    Inside(c.top, path, s) && s.currentPath == path && !RepeatPath(c.top, path)
  }

  lemma CompletedNext(step: Step, path: Path, s: RunState, has: bool, s': RunState)
    requires s'.currentPath == path && s'.completedSteps == Complete(s, path, has).completedSteps
    ensures NextOfStep(step, path, s') == None
  {
    assert s'.completedSteps[|s.completedSteps|].path == path;
  }

  lemma LeafBelow(c: Course, s: RunState, path: Path, s': RunState)
    requires Sound(c.env, c.top, s) && AtLeaf(c, path, s) && s'.repeatStates == s.repeatStates
    ensures forall p :: Unfinished(s', p) ==> p < path
  {
    forall p | Unfinished(s', p) ensures p < path {
      assert Unfinished(s, p);
      assert p <= s.currentPath && p != path;
    }
  }

  lemma Completes(c: Course, step: Step, m: Machine, path: Path, has: bool)
    requires Asked(c, m) && AtLeaf(c, path, m.s) && ByCall(c.top, m.log, Complete(m.s, path, has))
    ensures StepEndsWell(c, step, path, SnapshotData(c.env, m.(s := Complete(m.s, path, has))))
  {
    hide Chronicle, Sound, Inside, Remembers, SnapshotData, Snapshot, RepeatPath, Carried, Tracks, NextCall, NextOfStep, ByCall;
    SoundRecord(c.env, c.top, m.s, path);
    var t := m.(s := Complete(m.s, path, has));
    CompleteSound(c.env, c.top, Durable(m.log), m.s, path, has);
    SavesData(c, t);
    var r := SnapshotData(c.env, t);
    if r.err == NoError {
      LeafBelow(c, m.s, path, r.m.s);
      CompletedNext(step, path, m.s, has, r.m.s);
    }
  }

  lemma ActionEnds(c: Course, step: Step, compensated: bool, retry: Option<Retry>, path: Path, m: Machine)
    requires Carried(c, m) && AtLeaf(c, path, m.s) && NextCall(c.top, m.s) == Some(Do(path))
    requires FindStep(c.top, path) == Some(step) && step.kind == Action(compensated, retry)
    ensures StepEndsWell(c, step, path, ExecAction(c.env, compensated, retry, path, m))
  {
    hide Chronicle, Sound, Inside, Attempt, Snapshot, SnapshotData, PersistDeferred, NextCall, Halfway, Agrees;
    AttemptQuiet(c, m, path, MaxAttempts(retry), InitialDelay(retry), Backoff(retry));
    var a := Attempt(c.env, m, path, MaxAttempts(retry), InitialDelay(retry), Backoff(retry));
    Carries(c, m, a.m);
    if a.reply.Fail? {
      Fails(c, step, a.m, path, a.reply.failure, false);
    } else {
      CompleteAgrees(c.top, Durable(m.log), m.s, path, compensated, path);
      Completes(c, step, a.m, path, compensated);
    }
  }

  lemma Waits(c: Course, m: Machine, started: Option<int>)
    requires Asked(c, m) && (started.Some? ==> Reading(c.env, started.value))
    ensures Asked(c, m.(s := m.s.(pollStartedAt := started)))
  {
    hide Chronicle, Sound, Remembers, Tracks;
    WaitSound(c.env, c.top, Durable(m.log), m.s, started);
    WaitTracks(c.top, Durable(m.log), m.s, started);
  }

  lemma AtLeafWaits(c: Course, path: Path, s: RunState, started: Option<int>)
    requires AtLeaf(c, path, s)
    ensures AtLeaf(c, path, s.(pollStartedAt := started))
  {
  }

  lemma WaitEven(d: RunState, s: RunState, started: Option<int>)
    requires Unmoved(d, s)
    ensures Even(d, s.(pollStartedAt := started)) && Even(d, s)
  {
    assert forall q :: RepeatAt(s.(pollStartedAt := started), q) == RepeatAt(s, q);
  }

  lemma PollEnds(c: Course, step: Step, maxDuration: int, path: Path, m: Machine)
    requires Carried(c, m) && AtLeaf(c, path, m.s) && NextCall(c.top, m.s) == Some(Check(path))
    requires FindStep(c.top, path) == Some(step) && step.kind == Poll(maxDuration)
    ensures StepEndsWell(c, step, path, ExecPoll(c.env, maxDuration, path, m))
  {
    hide Chronicle, Sound, Remembers, Inside, RepeatPath, Snapshot, SnapshotData, PersistDeferred, NextCall, Tracks,
         StepEndsWell, Reading, FindStep, Linked, Durable, AtLeaf, ByCall, Even;
    var started := if m.s.pollStartedAt.None? then c.env.now(m.log) else m.s.pollStartedAt.value;
    PollReading(c, m);
    assert NextCall(c.top, Durable(m.log)) == Some(Check(path)) by { AskedNext(c, m); }
    AtLeafAt(c, path, m.s);
    Waits(c, m, None);
    Waits(c, m, Some(started));
    PollFails(c, step, path, m.(s := m.s.(pollStartedAt := None)));
    var asked := m.(s := m.s.(pollStartedAt := Some(started)));
    var a := Invoke(c.env, asked, Check(path));
    Quietly(c, m.log, Called(Check(path), a.reply));
    Carries(c, asked, a.m);
    Waits(c, a.m, None);
    if a.reply.Fail? {
      var s := if a.reply.failure == RetryAfter || c.env.cancelled(a.m.log) then a.m.s
               else a.m.s.(pollStartedAt := None);
      Fails(c, step, a.m.(s := s), path, a.reply.failure, true);
    } else if !a.reply.done {
      PollWaits(c, step, path, a.m);
    } else {
      var t := a.m.(s := a.m.s.(pollStartedAt := None, status := Running));
      AtLeafWaits(c, path, m.s, None);
      assert t.s == m.s.(pollStartedAt := None);
      WaitEven(Durable(m.log), m.s, None);
      PollAnswered(c, step, path, t, Durable(m.log));
      Completes(c, step, t, path, false);
    }
  }

  lemma AskedNext(c: Course, m: Machine)
    requires Asked(c, m)
    ensures NextCall(c.top, Durable(m.log)) == NextCall(c.top, m.s)
  {
  }

  lemma AtLeafAt(c: Course, path: Path, s: RunState)
    requires AtLeaf(c, path, s)
    ensures s.currentPath == path
  {
  }

  lemma PollReading(c: Course, m: Machine)
    requires Asked(c, m)
    ensures Reading(c.env, if m.s.pollStartedAt.None? then c.env.now(m.log) else m.s.pollStartedAt.value)
  {
    hide Chronicle;
    assert Reading(c.env, c.env.now(m.log));
  }

  lemma PollFails(c: Course, step: Step, path: Path, m: Machine)
    requires Asked(c, m)
    ensures StepEndsWell(c, step, path, Result(m, StepFailed(path, Plain)))
  {
    hide Chronicle, Remembers, NextCall, Halfway, OnPath, Idle, Rooted, OnlyRepeats, Clocked;
  }

  lemma PollWaits(c: Course, step: Step, path: Path, m: Machine)
    requires Asked(c, m)
    ensures StepEndsWell(c, step, path, PersistDeferred(c.env, m, true))
  {
    hide Chronicle, Sound, Remembers, PersistDeferred, Carried, Tracks, NextCall, Worked, Halfway, Clocked;
    TracksWorked(c.top, m.log, m.s);
    Defers(c, m, true);
  }

  /** A poll that is done is what the interpreter makes of the answer. */
  lemma PollAnswered(c: Course, step: Step, path: Path, m: Machine, d: RunState)
    requires m.log != [] && Durable(m.log) == d && Even(d, m.s) && m.s.currentPath == path
    requires FindStep(c.top, path) == Some(step) && step.kind.Poll? && NextCall(c.top, d) == Some(Check(path))
    requires var e := m.log[|m.log| - 1]; e.Called? && e.call == Check(path) && e.reply.Ok? && e.reply.done
    ensures ByCall(c.top, m.log, Complete(m.s, path, false))
  {
    hide NextCall, Agrees, Even;
    CompleteAgrees(c.top, d, m.s, path, false, path);
    assert Complete(m.s, path, false).(currentPath := path) == Complete(m.s, path, false);
  }

  /** A decision that was saved: the scope may be entered. */
  lemma DecideEnds(c: Course, step: Step, paths: seq<BranchPath>, path: Path, m: Machine)
    requires Carried(c, m) && AtLeaf(c, path, m.s) && NextCall(c.top, m.s) == Some(Decide(path))
    requires FindStep(c.top, path) == Some(step) && step.kind == Branch(paths)
    ensures var d := DecideBranch(c.env, paths, path, m);
      if d.Settled? then StepEndsWell(c, step, path, d.r)
      else Carried(c, d.m) && NoneBelow(d.m.s, path) && d.m.s.currentPath == path + [paths[d.index].key]
  {
    hide Chronicle, Idle, Rooted, Clocked, OnlyRepeats, Remembers, Inside, Snapshot, SnapshotData, PersistDeferred,
         NextCall, NextOfStep, Halfway, Agrees;
    var a := Invoke(c.env, m, Decide(path));
    Quietly(c, m.log, Called(Decide(path), a.reply));
    Carries(c, m, a.m);
    if a.reply.Fail? {
      Fails(c, step, a.m, path, a.reply.failure, false);
    } else {
      var k := FindKey(paths, a.reply.key);
      if k.Some? {
        var at := if paths[k.value].steps == [] then path else path + [paths[k.value].key];
        CompleteAgrees(c.top, Durable(m.log), m.s, path, false, at);
        SoundRecord(c.env, c.top, a.m.s, path);
        CompleteSound(c.env, c.top, Durable(a.m.log), a.m.s, path, false);
        var t := Complete(a.m.s, path, false);
        assert t.(currentPath := path) == t;
        LeafBelow(c, a.m.s, path, t);
        if paths[k.value].steps == [] {
          Completes(c, step, a.m, path, false);
        } else {
          MoveSound(c.env, c.top, Durable(a.m.log), t, at);
          SavesData(c, a.m.(s := t.(currentPath := at)));
          var r := SnapshotData(c.env, a.m.(s := t.(currentPath := at)));
          if r.err == NoError {
            LeafBelow(c, a.m.s, path, r.m.s);
          }
        }
      }
    }
  }

  // ---------- repeats ----------

  lemma NotYetDone(env: Env, top: seq<Step>, step: Step, path: Path, s: RunState)
    requires Sound(env, top, s) && step.kind.Repeat? && FindStep(top, path) == Some(step)
    requires PlacedStep(step, path, s) && path <= s.currentPath
    ensures !IsCompleted(s, path) && !RepeatAt(s, path).completed
  {
    hide Clocked, Idle, OnPath;
    PlacedIteration(step, path, s);
    assert IsPrefix(path, path);
    assert IsCompleted(s, path) ==> Present(s, path);
  }

  lemma IdleBelow(env: Env, top: seq<Step>, path: Path, s: RunState)
    requires Sound(env, top, s) && RepeatAt(s, path).awaitingCondition && path <= s.currentPath
    ensures NoneBelow(s, path)
  {
    forall p | Unfinished(s, p) ensures p <= path {
      assert p <= s.currentPath && !(path < p);
    }
  }

  /** A clock started is no work. */
  lemma StartWorked(top: seq<Step>, log: Log, s: RunState, path: Path, rs: RepeatState)
    requires Unmoved(Durable(log), s) && Tracks(top, Durable(log), s) && rs == RepeatAt(s, path).(startedAt := rs.startedAt)
    ensures Agrees(top, Durable(log), Record(s, path, rs)) && Worked(top, log, Record(s, path, rs))
  {
    hide NextCall;
    var s' := Record(s, path, rs);
    assert forall q :: q != path ==> RepeatAt(s', q) == RepeatAt(s, q);
    assert forall q :: IsCompleted(s', q) == IsCompleted(s, q);
    NextSame(top, s, s');
  }

  lemma StartSaved(c: Course, path: Path, m: Machine)
    requires Carried(c, m) && RepeatPath(c.top, path) && Inside(c.top, path, m.s) && path <= m.s.currentPath
    requires !IsCompleted(m.s, path) && !RepeatAt(m.s, path).completed && RepeatAt(m.s, path).startedAt.None?
    ensures var rs := RepeatAt(m.s, path).(startedAt := Some(c.env.now(m.log)));
      var r := Snapshot(c.env, WithRepeat(m, path, rs));
      && Ended(c, r) && (r.err == NoError || r.err == SnapshotFailed)
      && (r.err == NoError ==> Carried(c, r.m) && r.m.s == Record(m.s, path, rs).(revision := r.m.s.revision))
  {
    hide Chronicle, Sound, Remembers, Inside, Snapshot, RepeatPath, Tracks, Unmoved, NextCall, Worked;
    var rs := RepeatAt(m.s, path).(startedAt := Some(c.env.now(m.log)));
    SoundRecord(c.env, c.top, m.s, path);
    assert Reading(c.env, rs.startedAt.value);
    if rs.awaitingCondition {
      IdleBelow(c.env, c.top, path, m.s);
    }
    RecordSound(c.env, c.top, Durable(m.log), m.s, path, rs);
    StartWorked(c.top, m.log, m.s, path, rs);
    Saves(c, WithRepeat(m, path, rs));
  }

  lemma StartEnds(c: Course, maxDuration: int, path: Path, m: Machine)
    requires Carried(c, m) && RepeatPath(c.top, path) && Inside(c.top, path, m.s) && path <= m.s.currentPath
    requires !IsCompleted(m.s, path) && !RepeatAt(m.s, path).completed
    ensures var r := EnsureStarted(c.env, maxDuration, path, m);
      && Ended(c, r) && (r.err == NoError || r.err == SnapshotFailed)
      && (r.err == NoError ==>
            && Carried(c, r.m) && Inside(c.top, path, r.m.s) && SamePlaces(m.s, r.m.s)
            && r.m.s.currentPath == m.s.currentPath && r.m.s.completedSteps == m.s.completedSteps)
  {
    hide Chronicle, Linked, Remembers, Snapshot, RepeatPath, Unmoved, NextCall, Halfway, OnPath, Idle, Rooted,
         OnlyRepeats, Clocked;
    if RepeatAt(m.s, path).startedAt.None? {
      StartSaved(c, path, m);
    }
  }

  /** Only that the repeat at path waits for its condition may be news. */
  ghost predicate OnlyAwaits(d: RunState, s: RunState, path: Path) {
    && s.completedSteps == d.completedSteps
    && (forall q :: q != path ==> RepeatAt(s, q) == RepeatAt(d, q))
    && RepeatAt(s, path) == RepeatAt(d, path).(awaitingCondition := RepeatAt(s, path).awaitingCondition)
  }

  lemma AwaitsRecord(d: RunState, s: RunState, path: Path, rs: RepeatState)
    requires Unmoved(d, s) && rs == RepeatAt(s, path).(awaitingCondition := rs.awaitingCondition)
    ensures OnlyAwaits(d, Record(s, path, rs), path)
  {
    var s' := Record(s, path, rs);
    assert forall q :: q != path ==> RepeatAt(s', q) == RepeatAt(s, q);
  }

  /** The repeat at path runs iteration rs, and nothing below it is unfinished. */
  ghost predicate Turning(c: Course, step: Step, path: Path, m: Machine, rs: RepeatState) {
    && Asked(c, m) && Linked(Durable(m.log), m.s) && step.kind.Repeat? && FindStep(c.top, path) == Some(step)
    && NextCall(c.top, m.s) == Some(Until(path, rs.iteration)) && OnlyAwaits(Durable(m.log), m.s, path)
    && path <= m.s.currentPath && Inside(c.top, path, m.s)
    && Unfinished(m.s, path) && rs == m.s.repeatStates[path] && NoneBelow(m.s, path)
  }

  lemma DoneEnds(c: Course, step: Step, path: Path, m: Machine, rs: RepeatState, a: Machine)
    requires Turning(c, step, path, m, rs)
    requires a.s == m.s && Chronicle(c, a.log) && c.from < |a.log| && !Hanging(a.log) && Durable(a.log) == Durable(m.log)
    requires var e := a.log[|a.log| - 1]; e.Called? && e.call == Until(path, rs.iteration) && e.reply.Ok? && e.reply.done
    ensures StepEndsWell(c, step, path, SnapshotData(c.env, a.(s := DoneState(step, path, a.s, rs))))
  {
    hide Chronicle, Sound, Linked, Remembers, Inside, Snapshot, SnapshotData, Retained, Carried, NextCall, NextOfStep,
         Halfway, Agrees, DoneState;
    AnsweredAgrees(c, step, path, m, rs);
    DoneSound(c.env, c.top, step, path, Durable(m.log), m.s, rs);
    DoneAt(step, path, m.s, rs);
    var t := a.(s := DoneState(step, path, a.s, rs));
    SavesData(c, t);
    var r := SnapshotData(c.env, t);
    assert t.s.status == Running;
    if r.err == NoError {
      assert forall p :: Unfinished(r.m.s, p) == Unfinished(t.s, p);
      DoneCompletes(step, path, a.s, rs, r.m.s);
    }
  }

  lemma DoneCompletes(step: Step, path: Path, s: RunState, rs: RepeatState, s': RunState)
    requires step.kind.Repeat? && s'.currentPath == path && s'.completedSteps == DoneState(step, path, s, rs).completedSteps
    ensures NextOfStep(step, path, s') == None
  {
    hide Retained;
    var done := rs.(awaitingCondition := false, completed := true, startedAt := None);
    CompletedNext(step, path, Record(Retained(step, s, path, rs.iteration), path, done), false, s');
  }

  /** Both ends of an iteration are what the interpreter makes of the answer. */
  lemma AnsweredAgrees(c: Course, step: Step, path: Path, m: Machine, rs: RepeatState)
    requires Turning(c, step, path, m, rs)
    ensures var d := Durable(m.log); var was := RepeatAt(d, path);
      && was.iteration == rs.iteration
      && Agrees(c.top, DoneState(step, path, d, was), DoneState(step, path, m.s, rs))
      && Agrees(c.top, NextState(step, path, d, was), NextState(step, path, m.s, rs))
  {
    hide Chronicle, Sound, Linked, Remembers, Inside, NextCall, Agrees, DoneState, NextState;
    var d := Durable(m.log);
    var was := RepeatAt(d, path);
    assert rs == RepeatAt(m.s, path);
    IterationAgrees(c.top, step, path, d, m.s, was, rs, DoneState(step, path, d, was), DoneState(step, path, m.s, rs));
    IterationAgrees(c.top, step, path, d, m.s, was, rs, NextState(step, path, d, was), NextState(step, path, m.s, rs));
  }

  lemma NextEnds(c: Course, step: Step, path: Path, m: Machine, rs: RepeatState, a: Machine)
    requires Turning(c, step, path, m, rs) && !LastIteration(step, rs)
    requires a.s == m.s && Chronicle(c, a.log) && c.from < |a.log| && Durable(a.log) == Durable(m.log)
    requires NotDone(a.log[|a.log| - 1]) && a.log[|a.log| - 1].call == Until(path, rs.iteration)
    ensures StepEndsWell(c, step, path, PersistDeferred(c.env, a.(s := NextState(step, path, a.s, rs)), false))
  {
    hide Chronicle, Sound, Remembers, Inside, Snapshot, SnapshotData, PersistDeferred, Retained, NextCall, Halfway, Agrees;
    AnsweredAgrees(c, step, path, m, rs);
    NextSound(c.env, c.top, step, path, Durable(m.log), m.s, rs);
    DoneAt(step, path, m.s, rs);
    var t := a.(s := NextState(step, path, a.s, rs));
    assert t.s.status == Running && RepeatAt(m.s, path) == rs;
    assert Advanced(c.top, t.log, t.s);
    Defers(c, t, false);
  }

  lemma LimitEnds(c: Course, step: Step, path: Path, m: Machine, rs: RepeatState, a: Machine)
    requires Turning(c, step, path, m, rs) && LastIteration(step, rs)
    requires a.s == m.s && Chronicle(c, a.log) && c.from < |a.log| && Durable(a.log) == Durable(m.log)
    requires NotDone(a.log[|a.log| - 1]) && a.log[|a.log| - 1].call == Until(path, rs.iteration)
    ensures StepEndsWell(c, step, path, Result(a.(s := Retained(step, a.s, path, rs.iteration)), StepFailed(path, Plain)))
  {
    hide Chronicle, Sound, Linked, Remembers, Inside, NextCall, Halfway, Clocked, NoneBelow, OnlyAwaits, Retained;
    SoundClocked(c.env, c.top, m.s);
    RetainedWhole(step, a.s, path, rs.iteration);
    RetainedSound(c.env, c.top, step, Durable(m.log), m.s, path, rs.iteration);
    DoneAt(step, path, m.s, rs);
  }

  lemma RetainedWhole(step: Step, s: RunState, path: Path, n: nat)
    requires step.kind.Repeat?
    ensures !step.kind.compact ==> Retained(step, s, path, n) == s
  {
  }

  lemma SoundClocked(env: Env, top: seq<Step>, s: RunState)
    requires Sound(env, top, s)
    ensures Clocked(env, s)
  {
  }

  lemma FinishEnds(c: Course, step: Step, path: Path, m: Machine, rs: RepeatState)
    requires Turning(c, step, path, m, rs)
    ensures StepEndsWell(c, step, path, FinishIteration(c.env, step, path, m, rs))
  {
    hide Chronicle, Linked, Inside, SnapshotData, PersistDeferred, DoneState, NextState, Retained, NoneBelow, Sound,
         NextCall, Halfway, StepEndsWell, Remembers, OnlyAwaits;
    if TimedOutAt(step.kind.maxDuration, rs, c.env.now(m.log)) {
      LateEnds(c, step, path, m);
    } else {
      var a := Invoke(c.env, m, Until(path, rs.iteration));
      Quietly(c, m.log, Called(Until(path, rs.iteration), a.reply));
      if a.reply.Fail? {
        Carries(c, m, a.m);
        Fails(c, step, a.m, path, a.reply.failure, false);
      } else if a.reply.done {
        DoneEnds(c, step, path, m, rs, a.m);
      } else if LastIteration(step, rs) {
        LimitEnds(c, step, path, m, rs, a.m);
      } else {
        NextEnds(c, step, path, m, rs, a.m);
      }
    }
  }

  // ---------- rollback ----------

  /** The run is being rolled back; records and journal stay as they are. */
  ghost predicate Undoing(c: Course, m: Machine) {
    && Chronicle(c, m.log) && c.from < |m.log| && !Hanging(m.log)
    && Sound(c.env, c.top, m.s) && Remembers(Durable(m.log), m.s) && m.s.status == Compensating
    && Skipped(c.top, Durable(m.log), m.s)
  }

  ghost predicate UndoEnds(c: Course, r: Result) {
    && Ended(c, r) && (r.err != SnapshotFailed && r.err != Cancelled ==> !Hanging(r.m.log))
    && r.m.s.status != Running && r.m.s.status != Completed
  }

  lemma UndoSaves(c: Course, m: Machine, s: RunState)
    requires Undoing(c, m) && SameFields(m.s, s) && (s.status == Compensating || s.status == Failed)
    ensures var r := SnapshotData(c.env, m.(s := s));
      && Ended(c, r) && (r.err == NoError || r.err == SnapshotFailed) && r.m.s.status == s.status
      && (r.err == NoError ==>
            && r.m.s == s.(revision := r.m.s.revision, data := m.data) && !Hanging(r.m.log)
            && (s.status == Compensating ==> Undoing(c, r.m)))
  {
    hide Chronicle, Sound, Linked, Remembers, SnapshotData, Carried;
    SameSound(c.env, c.top, Durable(m.log), m.s, s);
    SavesData(c, m.(s := s));
    SavedStatus(c.env, m.(s := s));
    var r := SnapshotData(c.env, m.(s := s));
    if r.err == NoError {
      LinkedSelf(r.m.s);
      SavedLast(c.env, m.(s := s));
      assert Skipped(c.top, r.m.s, r.m.s);
    }
  }

  lemma SavedLast(env: Env, m: Machine)
    requires SnapshotData(env, m).err == NoError
    ensures Durable(SnapshotData(env, m).m.log) == SnapshotData(env, m).m.s
  {
  }

  lemma SavedStatus(env: Env, m: Machine)
    ensures SnapshotData(env, m).m.s.status == m.s.status
  {
  }

  /** The entry at i, where the rollback stands, is passed over. */
  lemma UndoSkips(c: Course, m: Machine, i: nat)
    requires Undoing(c, m) && i < |m.s.completedSteps| && m.s.compensationIndex == i
    requires !Undoes(c.top, m.s.completedSteps[i])
    ensures Undoing(c, m.(s := m.s.(compensationIndex := i - 1)))
  {
    hide Chronicle, Sound, Undoes;
    SameSound(c.env, c.top, Durable(m.log), m.s, m.s.(compensationIndex := i - 1));
  }

  lemma UndoRests(c: Course, r: Result)
    requires Undoing(c, r.m) && (r.err == Cancelled ==> c.env.cancelled(r.m.log)) && r.err != NoError
    ensures UndoEnds(c, r)
  {
    hide Chronicle, Skipped, OnPath, Idle, Rooted, OnlyRepeats, Clocked, Remembers;
  }

  lemma StopEnds(c: Course, m: Machine, failure: Failure)
    requires Undoing(c, m)
    ensures UndoEnds(c, StopCompensation(c.env, m, failure))
  {
    hide Chronicle, Sound, Remembers, Snapshot, SnapshotData, Skipped, Clocked, Halfway;
    if c.env.cancelled(m.log) {
      UndoRests(c, Result(m, Cancelled));
    } else {
      UndoSaves(c, m, m.s);
      assert m.(s := m.s) == m;
    }
  }

  lemma {:induction false} CompensateEnds(c: Course, m: Machine, i: int)
    requires Undoing(c, m) && i < |m.s.completedSteps| && i == m.s.compensationIndex
    ensures UndoEnds(c, CompensateFrom(c.env, c.top, m, i))
    decreases i + 1
  {
    hide Chronicle, Sound, Remembers, SnapshotData, StopCompensation, FindStep, Skipped;
    if i < 0 {
      UndoSaves(c, m, m.s.(status := Failed, compensationIndex := -1));
    } else {
      var cs := m.s.completedSteps[i];
      if cs.hasCompensator && c.env.cancelled(m.log) {
        UndoRests(c, Result(m, Cancelled));
      } else if !Undoes(c.top, cs) {
        UndoSkips(c, m, i);
        CompensateEnds(c, m.(s := m.s.(compensationIndex := i - 1)), i - 1);
      } else {
        var a := Invoke(c.env, m, Compensate(cs.path));
        Quietly(c, m.log, Called(Compensate(cs.path), a.reply));
        assert a.m.s.(compensationIndex := i) == a.m.s;
        if a.reply.Fail? {
          StopEnds(c, a.m, a.reply.failure);
        } else {
          var t := a.m.(s := a.m.s.(compensationIndex := i - 1));
          UndoSaves(c, a.m, t.s);
          if SnapshotData(c.env, t).err == NoError {
            CompensateEnds(c, SnapshotData(c.env, t).m, i - 1);
          }
        }
      }
    }
  }

  /** A failure of the step at path that is rolled back. */
  lemma EnterEnds(c: Course, m: Machine, path: Path, cause: Cause, err: Error)
    requires Chronicle(c, m.log) && c.from < |m.log| && err != SnapshotFailed && err != Cancelled && err != NoError
    requires Sound(c.env, c.top, m.s) && Remembers(Durable(m.log), m.s)
    requires Hanging(m.log) ==> AtLimit(c.top, m.log[|m.log| - 1].call)
    ensures UndoEnds(c, EnterCompensation(c.env, c.top, m, path, cause, err))
  {
    hide Chronicle, Sound, Linked, Remembers, AtLimit, SnapshotData, CompensateFrom, Carried;
    EnterUndoing(c, m, path, cause);
    var r := SnapshotData(c.env, m.(s := StartCompensation(m.s, path, cause)));
    if r.err == NoError {
      CompensateEnds(c, r.m, r.m.s.compensationIndex);
    }
  }

  lemma EnterUndoing(c: Course, m: Machine, path: Path, cause: Cause)
    requires Chronicle(c, m.log) && c.from < |m.log|
    requires Sound(c.env, c.top, m.s) && Remembers(Durable(m.log), m.s)
    requires Hanging(m.log) ==> AtLimit(c.top, m.log[|m.log| - 1].call)
    ensures var r := SnapshotData(c.env, m.(s := StartCompensation(m.s, path, cause)));
      && Ended(c, r) && (r.err == NoError || r.err == SnapshotFailed) && r.m.s.status == Compensating
      && (r.err == NoError ==>
            && Undoing(c, r.m) && r.m.s.completedSteps == m.s.completedSteps
            && r.m.s.compensationIndex == |m.s.completedSteps| - 1)
  {
    hide Chronicle, Sound, Linked, Remembers, AtLimit, SnapshotData, Carried;
    var t := m.(s := StartCompensation(m.s, path, cause));
    SameSound(c.env, c.top, Durable(m.log), m.s, t.s);
    SavesData(c, t);
    SavedStatus(c.env, t);
    var r := SnapshotData(c.env, t);
    if r.err == NoError {
      LinkedSelf(r.m.s);
      SavedLast(c.env, t);
      assert Skipped(c.top, r.m.s, r.m.s);
    }
  }

  /** Whatever way a step failed, its scope deals with it. */
  lemma HandleEnds(c: Course, step: Step, steps: seq<Step>, scope: Path, path: Path, r: Result)
    requires StepEndsWell(c, step, path, r) && r.err != NoError
    ensures ScopeEnds(c, steps, scope, HandleError(c.env, c.top, r.m, r.err, path))
  {
    hide Chronicle, Sound, Linked, Remembers, AtLimit, SnapshotData, EnterCompensation, Carried, NoneBelow, Halfway, Clocked,
         Skipped, NextCall, Worked;
    var s := r.m.s.(data := r.m.data, currentPath := path);
    if Halfway(c.top, Durable(r.m.log), r.m.s) && Clocked(c.env, r.m.s) {
      HalfwayMoved(c.top, Durable(r.m.log), r.m.s, s);
      ClockedMoved(c.env, r.m.s, s);
    }
    if Skipped(c.top, Durable(r.m.log), r.m.s) && Clocked(c.env, r.m.s) {
      SkippedMoved(c.top, Durable(r.m.log), r.m.s, s);
      ClockedMoved(c.env, r.m.s, s);
    }
    if r.err != SnapshotFailed && r.err != Continue && !c.env.cancelled(r.m.log) && r.m.s.status == Running
       && !(r.err.StepFailed? && |r.err.path| > |path|) {
      if r.err.StepFailed? && r.err.cause.Uncompensated? {
        var t := r.m.(s := r.m.s.(failedStepPath := path));
        SameSound(c.env, c.top, Durable(r.m.log), r.m.s, t.s);
        TracksWorked(c.top, r.m.log, r.m.s);
        WorkedSame(c.top, r.m.log, r.m.s, t.s);
        SavesData(c, t);
      } else {
        EnterEnds(c, r.m, path, if r.err.StepFailed? then r.err.cause else Plain, r.err);
      }
    }
  }

  lemma SkippedMoved(top: seq<Step>, d: RunState, s: RunState, s': RunState)
    requires Skipped(top, d, s) && s' == s.(currentPath := s'.currentPath, data := s'.data)
    ensures Skipped(top, d, s')
  {
  }

  lemma ClockedMoved(env: Env, s: RunState, s': RunState)
    requires Clocked(env, s) && s'.repeatStates == s.repeatStates && s'.pollStartedAt == s.pollStartedAt
    ensures Clocked(env, s')
  {
    assert forall q :: RepeatAt(s', q) == RepeatAt(s, q);
  }

  // ---------- scopes ----------

  lemma AroundKept(c: Course, step: Step, scope: Path, m: Machine, e: Machine)
    requires Around(c.top, scope, m.s) && e.s == m.s.(currentPath := e.s.currentPath)
    requires scope + [step.name] <= e.s.currentPath && e.data == e.s.data
    ensures Around(c.top, scope, ExecStep(c.env, c.top, step, scope + [step.name], e).m.s)
  {
    hide RepeatPath, ExecStep;
    var path := scope + [step.name];
    var s' := ExecStep(c.env, c.top, step, path, e).m.s;
    forall p | p < scope && RepeatPath(c.top, p) ensures Hosts(s', p, scope) {
      assert Hosts(m.s, p, scope);
      StepLeaves(c.env, c.top, step, path, e, p);
    }
  }

  /** The step at i leads to the saved place, or it is what comes next. */
  ghost predicate Leads(top: seq<Step>, steps: seq<Step>, i: nat, parent: Path, s: RunState, resume: Path, first: bool) {
    || (first && i < |steps| && parent + [steps[i].name] <= resume)
    || (NoneBelow(s, parent) && Poised(top, steps, i, parent, s))
  }

  lemma LeadsIn(top: seq<Step>, steps: seq<Step>, scope: Path, s: RunState)
    requires OnPath(s) && PlacedScope(steps, scope, s) && scope <= s.currentPath
    requires ScopeLifts(top, steps, scope) && Around(top, scope, s)
    ensures var i := if |s.currentPath| > |scope| then StartIndex(steps, s.currentPath[|scope|]) else 0;
      Leads(top, steps, i, scope, s, s.currentPath, true)
  {
    if |s.currentPath| > |scope| {
      var i := Find(steps, s.currentPath[|scope|]).value;
      assert s.currentPath[..|scope| + 1] == scope + [steps[i].name];
    } else {
      PoisedAt(top, steps, 0, scope, s);
      LeadsFrom(top, steps, scope, s);
    }
  }

  lemma LeadsFrom(top: seq<Step>, steps: seq<Step>, scope: Path, s: RunState)
    requires OnPath(s) && s.currentPath <= scope && Poised(top, steps, 0, scope, s)
    ensures Leads(top, steps, 0, scope, s, s.currentPath, true)
  {
    forall p | Unfinished(s, p) ensures p <= scope {
      assert p <= s.currentPath;
    }
  }

  lemma EnterCarried(c: Course, steps: seq<Step>, i: nat, parent: Path, m: Machine, resume: Path, first: bool)
    requires Carried(c, m) && i < |steps| && Leads(c.top, steps, i, parent, m.s, resume, first)
    requires Entry(steps, i, parent, m.s, resume, first)
    requires var path := parent + [steps[i].name];
      StepLifts(c.top, steps[i], path) && Inside(c.top, path, m.s) && !(first && path == resume && IsCompleted(m.s, path))
    ensures Carried(c, Enter(m, parent + [steps[i].name], resume, first))
  {
    hide Chronicle, Sound, Linked, StepLifts, Tracks, Unmoved, Opening;
    var path := parent + [steps[i].name];
    if first && path <= resume {
      assert Enter(m, path, resume, first) == m;
    } else {
      forall p | Unfinished(m.s, p) ensures p <= path {
        PrefixTransitive(p, parent, path);
      }
      MoveSound(c.env, c.top, Durable(m.log), m.s, path);
      assert IsPrefix(path, path) && Fresh(m.s, path);
      EnterTracks(c.top, steps[i], path, Durable(m.log), m.s);
    }
  }

  /** A step already completed when the scope is resumed: nothing of it is left. */
  lemma SkipLeads(c: Course, steps: seq<Step>, i: nat, parent: Path, m: Machine, resume: Path)
    requires Carried(c, m) && i < |steps| && Entry(steps, i, parent, m.s, resume, true)
    requires resume == parent + [steps[i].name] && IsCompleted(m.s, resume)
    requires DistinctNames(steps) && ScopeLifts(c.top, steps, parent) && Around(c.top, parent, m.s)
    ensures Leads(c.top, steps, i + 1, parent, m.s, resume, false)
  {
    hide Chronicle, Tracks, Unmoved, Linked, Remembers;
    forall p | Unfinished(m.s, p) ensures p <= parent {
      assert p <= m.s.currentPath && p != resume;
    }
    assert m.s.currentPath == resume;
    PoisedAfter(c.top, steps, i, parent, m.s);
  }

  /** After the step at i the scope goes on. */
  lemma NextLeads(c: Course, steps: seq<Step>, i: nat, parent: Path, r: Result, resume: Path)
    requires i < |steps| && DistinctNames(steps) && ScopeLifts(c.top, steps, parent) && Around(c.top, parent, r.m.s)
    requires var path := parent + [steps[i].name];
      StepEndsWell(c, steps[i], path, r) && path <= r.m.s.currentPath
    requires r.err == NoError && r.m.s.status == Running
    ensures Leads(c.top, steps, i + 1, parent, r.m.s, resume, false)
  {
    hide Chronicle, Carried, Sound, Around, ScopeLifts;
    BelowStep(parent, steps[i].name, r.m.s);
    PoisedAfter(c.top, steps, i, parent, r.m.s);
  }

  /** While running, a step has not left its own path. */
  lemma StepStays(c: Course, step: Step, path: Path, m: Machine)
    requires path != [] && path <= m.s.currentPath && m.data == m.s.data
    ensures var r := ExecStep(c.env, c.top, step, path, m); r.m.s.status == Running ==> path <= r.m.s.currentPath
  {
    BaseReached([], path, m);
    StepReached(Base([], path, m.s, m.log), c.env, c.top, step, path, m);
  }

  /** The scope may be executed from here: the tree below it is known, and where the machine stands. */
  ghost predicate AtScope(c: Course, steps: seq<Step>, i: nat, parent: Path, m: Machine, resume: Path, first: bool) {
    && Carried(c, m) && ValidSteps(steps) && Located(c.top, parent, steps) && ScopeLifts(c.top, steps, parent)
    && Around(c.top, parent, m.s)
    && Entry(steps, i, parent, m.s, resume, first) && Leads(c.top, steps, i, parent, m.s, resume, first)
  }

  lemma {:induction false} StepsEnd(c: Course, steps: seq<Step>, i: nat, parent: Path, m: Machine, resume: Path, first: bool)
    requires AtScope(c, steps, i, parent, m, resume, first)
    ensures ScopeEnds(c, steps, parent, ExecSteps(c.env, c.top, steps, i, parent, m, resume, first))
    decreases steps, 2, |steps| - i
  {
    hide Chronicle, Sound, Linked, Unmoved, Tracks, Remembers, PlacedStep, HandleError, Entry, Leads, Around, Located, StepLocated,
         ScopeLifts, StepLifts;
    if i < |steps| {
      var path := parent + [steps[i].name];
      LaterEntry(steps, i, parent, m.s, resume, first);
      if first && path == resume && IsCompleted(m.s, path) {
        SkipLeads(c, steps, i, parent, m, resume);
        StepsEnd(c, steps, i + 1, parent, m, resume, false);
      } else if c.env.cancelled(m.log) {
        CancelEnds(c, steps, parent, m, path);
      } else {
        var e := Enter(m, path, resume, first);
        EntersAt(c, steps, i, parent, m, resume, first);
        StepEndsAt(c, steps[i], path, e);
        var r := ExecStep(c.env, c.top, steps[i], path, e);
        if r.err != NoError {
          HandleEnds(c, steps[i], steps, parent, path, r);
        } else if r.m.s.status == Running {
          NextAtScope(c, steps, i, parent, m, resume, first);
          StepsEnd(c, steps, i + 1, parent, r.m, resume, false);
        }
      }
    } else {
      LeadsEnd(c, steps, i, parent, m, resume, first);
    }
  }

  /** Cancelled before a step: the state returned differs from memory in its path. */
  lemma CancelEnds(c: Course, steps: seq<Step>, parent: Path, m: Machine, path: Path)
    requires Carried(c, m) && c.env.cancelled(m.log)
    ensures ScopeEnds(c, steps, parent, Result(m.(s := m.s.(data := m.data, currentPath := path)), Cancelled))
  {
    hide Chronicle, Unmoved, Linked, Remembers, NextCall, Halfway, OnPath, Idle, Rooted, OnlyRepeats, Clocked;
    var s := m.s.(data := m.data, currentPath := path);
    HalfwayMoved(c.top, Durable(m.log), m.s, s);
    ClockedMoved(c.env, m.s, s);
  }

  /** The step at i may be executed. */
  lemma EntersAt(c: Course, steps: seq<Step>, i: nat, parent: Path, m: Machine, resume: Path, first: bool)
    requires AtScope(c, steps, i, parent, m, resume, first) && i < |steps|
    requires var path := parent + [steps[i].name]; !(first && path == resume && IsCompleted(m.s, path))
    ensures var path := parent + [steps[i].name];
      AtStep(c, steps[i], path, Enter(m, path, resume, first))
  {
    hide Chronicle, Sound, Linked, Unmoved, Tracks, Remembers, PlacedStep, Entry, Leads, Located, StepLocated, ScopeLifts,
         StepLifts, Inside;
    var path := parent + [steps[i].name];
    var e := Enter(m, path, resume, first);
    EntryStep(steps, i, parent, m, resume, first);
    LiftStep(c.top, steps, i, parent);
    LocateStep(c.top, parent, steps, i);
    AroundInside(c.top, parent, steps[i].name, m.s);
    EnterCarried(c, steps, i, parent, m, resume, first);
    MovedSame(c.top, m.s, e.s.currentPath, path);
  }

  /** After the step at i the scope may be executed from the one behind it. */
  lemma NextAtScope(c: Course, steps: seq<Step>, i: nat, parent: Path, m: Machine, resume: Path, first: bool)
    requires AtScope(c, steps, i, parent, m, resume, first) && i < |steps|
    requires var path := parent + [steps[i].name];
      var e := Enter(m, path, resume, first); var r := ExecStep(c.env, c.top, steps[i], path, e);
      && AtStep(c, steps[i], path, e) && StepEndsWell(c, steps[i], path, r)
      && r.err == NoError && r.m.s.status == Running
    ensures var path := parent + [steps[i].name];
      AtScope(c, steps, i + 1, parent, ExecStep(c.env, c.top, steps[i], path, Enter(m, path, resume, first)).m, resume, false)
  {
    hide Chronicle, Sound, Linked, Unmoved, Tracks, Remembers, PlacedStep, Entry, Leads, Around, Located, StepLocated, ScopeLifts,
         StepLifts, Inside;
    var path := parent + [steps[i].name];
    var e := Enter(m, path, resume, first);
    LaterEntry(steps, i, parent, m.s, resume, first);
    EntryNext(c.env, c.top, steps, i, parent, m, resume, first);
    AroundKept(c, steps[i], parent, m, e);
    StepStays(c, steps[i], path, e);
    NextLeads(c, steps, i, parent, ExecStep(c.env, c.top, steps[i], path, e), resume);
  }

  lemma LeadsEnd(c: Course, steps: seq<Step>, i: nat, parent: Path, m: Machine, resume: Path, first: bool)
    requires Carried(c, m) && Leads(c.top, steps, i, parent, m.s, resume, first) && i >= |steps|
    ensures ScopeEnds(c, steps, parent, Result(m, NoError))
  {
    hide Chronicle, Unmoved, Linked, Remembers, NextCall, Halfway, OnPath, Idle, Rooted, OnlyRepeats, Clocked;
  }

  lemma BelowStep(parent: Path, name: string, s: RunState)
    requires forall p :: Unfinished(s, p) ==> p < parent + [name]
    ensures NoneBelow(s, parent)
  {
    forall p | Unfinished(s, p) ensures p <= parent {
      assert p < parent + [name];
    }
  }

  /** A step about to be executed: located in the tree, and in place. */
  ghost predicate AtStep(c: Course, step: Step, path: Path, m: Machine) {
    && Carried(c, m) && ValidStep(step) && StepLocated(c.top, step, path) && FindStep(c.top, path) == Some(step)
    && Inside(c.top, path, m.s) && PlacedStep(step, path, m.s) && path <= m.s.currentPath && StepLifts(c.top, step, path)
  }

  lemma {:induction false} StepEndsAt(c: Course, step: Step, path: Path, m: Machine)
    requires AtStep(c, step, path, m)
    ensures StepEndsWell(c, step, path, ExecStep(c.env, c.top, step, path, m))
    decreases step, 1
  {
    hide Chronicle, Sound, Linked, Unmoved, Tracks, Remembers, Inside, StepLocated, ExecAction, ExecPoll, DecideBranch,
         StepLifts, NextCall;
    if !step.kind.Repeat? && |m.s.currentPath| == |path| {
      AtOpening(c, step, path, m);
    }
    match step.kind
    case Action(compensated, retry) => ActionEnds(c, step, compensated, retry, path, m);
    case Poll(maxDuration) => PollEnds(c, step, maxDuration, path, m);
    case Branch(_) => BranchEnds(c, step, path, m);
    case Repeat(_, _, _, _) => RepeatEnds(c, step, path, m);
  }

  lemma AtOpening(c: Course, step: Step, path: Path, m: Machine)
    requires AtStep(c, step, path, m) && !step.kind.Repeat? && |m.s.currentPath| == |path|
    ensures AtLeaf(c, path, m.s) && NextCall(c.top, m.s) == Some(Opening(step, path, m.s))
  {
    hide Chronicle, Sound, Linked, Unmoved, Tracks, Remembers, Inside, StepLocated, StepLifts;
    FreshAt(step, path, m.s);
    assert IsPrefix(path, path) && Fresh(m.s, path);
    NextOpens(c.top, step, path, m.s);
  }

  /** The end of the chosen scope is the end of the branch. */
  lemma BranchResult(c: Course, step: Step, path: Path, k: nat, r: Result)
    requires step.kind.Branch? && k < |step.kind.paths| && StepLocated(c.top, step, path)
    requires FindStep(c.top, path) == Some(step) && FindKey(step.kind.paths, step.kind.paths[k].key) == Some(k)
    requires ScopeEnds(c, step.kind.paths[k].steps, path + [step.kind.paths[k].key], r)
    requires r.m.s.status == Running ==> path + [step.kind.paths[k].key] <= r.m.s.currentPath
    ensures StepEndsWell(c, step, path, r)
  {
    hide Chronicle, Clocked, Rooted, Idle, Linked, Unmoved, Tracks, Remembers, StepLocated, Halfway;
    var scope := path + [step.kind.paths[k].key];
    NotAStep(c.top, step, path, step.kind.paths[k].key);
    if r.err == NoError && r.m.s.status == Running {
      assert r.m.s.currentPath[|path|] == scope[|path|];
      forall p | Unfinished(r.m.s, p) ensures p < path {
        assert p <= scope && RepeatPath(c.top, p) && p != scope;
        assert p == scope[..|p|] && scope[..|path|] == path;
      }
    }
  }

  /** While running, a scope has not left its own path. */
  lemma ScopeStays(c: Course, steps: seq<Step>, i: nat, scope: Path, m: Machine)
    requires scope != [] && scope <= m.s.currentPath && m.data == m.s.data
    ensures var r := ExecScope(c.env, c.top, steps, i, scope, m); r.m.s.status == Running ==> scope <= r.m.s.currentPath
  {
    BaseReached([], scope, m);
    StepsReached(Base([], scope, m.s, m.log), c.env, c.top, steps, i, scope, m, m.s.currentPath, true);
  }

  lemma NotAStep(top: seq<Step>, step: Step, path: Path, part: string)
    requires StepLocated(top, step, path)
    ensures FindStep(top, path + [part]) == None
  {
    assert FindStep([step], [step.name] + [part]) == None;
  }

  lemma AroundBranch(top: seq<Step>, step: Step, path: Path, key: string, s: RunState)
    requires step.kind.Branch? && StepLocated(top, step, path) && FindStep(top, path) == Some(step)
    requires Inside(top, path, s)
    ensures Around(top, path + [key], s)
  {
    NotAStep(top, step, path, key);
    AroundPart(top, path, key, s);
  }

  /** One component further in, when a repeat at path itself is running that iteration. */
  lemma AroundPart(top: seq<Step>, path: Path, part: string, s: RunState)
    requires Inside(top, path, s) && !RepeatPath(top, path + [part])
    requires RepeatPath(top, path) ==> Hosts(s, path, path + [part])
    ensures Around(top, path + [part], s)
  {
    hide RepeatPath;
    var scope := path + [part];
    forall p | p < scope && RepeatPath(top, p) ensures Hosts(s, p, scope) {
      assert p <= path;
      if p == path {
        assert Hosts(s, path, scope);
      } else {
        assert Hosts(s, p, path) && scope[|p|] == path[|p|];
      }
    }
  }

  lemma {:induction false} BranchEnds(c: Course, step: Step, path: Path, m: Machine)
    requires AtStep(c, step, path, m) && step.kind.Branch?
    requires |m.s.currentPath| == |path| ==> AtLeaf(c, path, m.s) && NextCall(c.top, m.s) == Some(Decide(path))
    ensures StepEndsWell(c, step, path, ExecStep(c.env, c.top, step, path, m))
    decreases step, 0, 1
  {
    hide Chronicle, Sound, Linked, Unmoved, Tracks, Remembers, StepLocated, RepeatPath, ExecSteps, DecideBranch, StepLifts, NextCall;
    if |m.s.currentPath| > |path| {
      var k := FindKey(step.kind.paths, m.s.currentPath[|path|]).value;
      ChosenEnds(c, step, path, k, m);
      BranchResult(c, step, path, k, ExecStep(c.env, c.top, step, path, m));
    } else {
      DecideEnds(c, step, step.kind.paths, path, m);
      var d := DecideBranch(c.env, step.kind.paths, path, m);
      if d.Entered? {
        EnteredEnds(c, step, path, m);
        BranchResult(c, step, path, d.index, ExecStep(c.env, c.top, step, path, m));
      }
    }
  }

  /** A branch resumed inside the path it had chosen. */
  lemma {:induction false} ChosenEnds(c: Course, step: Step, path: Path, k: nat, m: Machine)
    requires AtStep(c, step, path, m) && step.kind.Branch? && |m.s.currentPath| > |path|
    requires FindKey(step.kind.paths, m.s.currentPath[|path|]) == Some(k)
    ensures var steps, scope := step.kind.paths[k].steps, path + [step.kind.paths[k].key];
      var r := ExecScope(c.env, c.top, steps, ChildIndex(steps, m.s, path), scope, m);
      ScopeEnds(c, steps, scope, r) && (r.m.s.status == Running ==> scope <= r.m.s.currentPath)
    decreases step, 0, 0
  {
    hide Chronicle, Sound, Linked, Unmoved, Tracks, Remembers, StepLocated, Located, Entry, Leads, Around, RepeatPath, ExecSteps,
         StepLifts, ScopeLifts;
    var steps, scope := step.kind.paths[k].steps, path + [step.kind.paths[k].key];
    ChosenAtScope(c, step, path, k, m);
    StepsEnd(c, steps, ChildIndex(steps, m.s, path), scope, m, m.s.currentPath, true);
    ScopeStays(c, steps, ChildIndex(steps, m.s, path), scope, m);
  }

  lemma ChosenAtScope(c: Course, step: Step, path: Path, k: nat, m: Machine)
    requires AtStep(c, step, path, m) && step.kind.Branch? && |m.s.currentPath| > |path|
    requires FindKey(step.kind.paths, m.s.currentPath[|path|]) == Some(k)
    ensures var steps, scope := step.kind.paths[k].steps, path + [step.kind.paths[k].key];
      AtScope(c, steps, ChildIndex(steps, m.s, path), scope, m, m.s.currentPath, true) && scope <= m.s.currentPath
  {
    hide Chronicle, Sound, Linked, Unmoved, Tracks, Remembers, StepLocated, Located, Entry, Leads, Around, RepeatPath, StepLifts,
         ScopeLifts;
    var paths := step.kind.paths;
    var steps, scope := paths[k].steps, path + [paths[k].key];
    assert scope <= m.s.currentPath by { assert m.s.currentPath[..|path| + 1] == scope; }
    PlacedEntry(steps, scope, m.s);
    SoundOnPath(c.env, c.top, m.s);
    LocateBranch(c.top, step, path, k);
    LiftBranch(c.top, step, path, k);
    AroundBranch(c.top, step, path, paths[k].key, m.s);
    LeadsIn(c.top, steps, scope, m.s);
  }

  /** A branch decided just now. */
  lemma {:induction false} EnteredEnds(c: Course, step: Step, path: Path, m: Machine)
    requires AtStep(c, step, path, m) && step.kind.Branch? && |m.s.currentPath| == |path|
    requires var d := DecideBranch(c.env, step.kind.paths, path, m);
      d.Entered? && Carried(c, d.m) && NoneBelow(d.m.s, path)
      && d.m.s.currentPath == path + [step.kind.paths[d.index].key]
    ensures var d := DecideBranch(c.env, step.kind.paths, path, m);
      var steps, scope := step.kind.paths[d.index].steps, path + [step.kind.paths[d.index].key];
      var r := ExecScope(c.env, c.top, steps, 0, scope, d.m);
      ScopeEnds(c, steps, scope, r) && (r.m.s.status == Running ==> scope <= r.m.s.currentPath)
      && FindKey(step.kind.paths, step.kind.paths[d.index].key) == Some(d.index)
    decreases step, 0, 0
  {
    hide Chronicle, Sound, Linked, Unmoved, Tracks, Remembers, StepLocated, Located, Entry, Leads, Around, RepeatPath, ExecSteps,
         DecideBranch, NoneBelow, StepLifts, ScopeLifts;
    var d := DecideBranch(c.env, step.kind.paths, path, m);
    var steps, scope := step.kind.paths[d.index].steps, path + [step.kind.paths[d.index].key];
    EnteredAtScope(c, step, path, m);
    StepsEnd(c, steps, 0, scope, d.m, scope, true);
    ScopeStays(c, steps, 0, scope, d.m);
  }

  lemma EnteredAtScope(c: Course, step: Step, path: Path, m: Machine)
    requires AtStep(c, step, path, m) && step.kind.Branch? && |m.s.currentPath| == |path|
    requires var d := DecideBranch(c.env, step.kind.paths, path, m);
      d.Entered? && Carried(c, d.m) && NoneBelow(d.m.s, path)
      && d.m.s.currentPath == path + [step.kind.paths[d.index].key]
    ensures var d := DecideBranch(c.env, step.kind.paths, path, m);
      var steps, scope := step.kind.paths[d.index].steps, path + [step.kind.paths[d.index].key];
      && AtScope(c, steps, 0, scope, d.m, scope, true)
      && FindKey(step.kind.paths, step.kind.paths[d.index].key) == Some(d.index)
  {
    hide Chronicle, Sound, Linked, Unmoved, Tracks, Remembers, StepLocated, Located, Entry, Leads, Around, RepeatPath, ExecSteps,
         DecideBranch, NoneBelow, StepLifts, ScopeLifts;
    var paths := step.kind.paths;
    var d := DecideBranch(c.env, paths, path, m);
    var steps, scope := paths[d.index].steps, path + [paths[d.index].key];
    DecidedFields(c.env, paths, path, m);
    FreshAt(step, path, m.s);
    DecidedEntry(steps, path, scope, m, d.m);
    LocateBranch(c.top, step, path, d.index);
    assert FindKey(paths, paths[d.index].key) == Some(d.index);
    LiftBranch(c.top, step, path, d.index);
    InsideDecided(c.top, path, m.s, d.m.s);
    AroundBranch(c.top, step, path, paths[d.index].key, d.m.s);
    PoisedAt(c.top, steps, 0, scope, d.m.s);
    DecidedLeads(c.top, steps, path, scope, d.m.s);
  }

  lemma InsideDecided(top: seq<Step>, path: Path, s: RunState, s': RunState)
    requires Inside(top, path, s) && s'.repeatStates == s.repeatStates
    ensures Inside(top, path, s')
  {
    hide RepeatPath;
    forall p | p < path && RepeatPath(top, p) ensures Hosts(s', p, path) {
      assert Hosts(s, p, path);
    }
  }

  lemma SoundOnPath(env: Env, top: seq<Step>, s: RunState)
    requires Sound(env, top, s)
    ensures OnPath(s)
  {
  }

  lemma DecidedFields(env: Env, paths: seq<BranchPath>, path: Path, m: Machine)
    ensures var d := DecideBranch(env, paths, path, m);
      d.Entered? ==>
        && d.m.s.completedSteps == m.s.completedSteps + [CompletedStep(path, false)]
        && d.m.s.repeatStates == m.s.repeatStates
  {
  }

  lemma DecidedLeads(top: seq<Step>, steps: seq<Step>, path: Path, scope: Path, s: RunState)
    requires NoneBelow(s, path) && path <= scope && Poised(top, steps, 0, scope, s)
    ensures Leads(top, steps, 0, scope, s, scope, true)
  {
    forall p | Unfinished(s, p) ensures p <= scope {
      PrefixTransitive(p, path, scope);
    }
  }

  // ---------- iterations ----------

  /** The record of the repeat about to be executed. */
  lemma RecordCarried(c: Course, path: Path, m: Machine, rs: RepeatState)
    requires Carried(c, m) && RepeatPath(c.top, path) && Inside(c.top, path, m.s) && path <= m.s.currentPath
    requires rs == RepeatAt(m.s, path) && !rs.completed && !IsCompleted(m.s, path)
    requires rs.awaitingCondition ==> NoneBelow(m.s, path)
    ensures var e := WithRepeat(m, path, rs);
      && Carried(c, e) && Inside(c.top, path, e.s) && Unfinished(e.s, path) && e.s.repeatStates[path] == rs
      && (NoneBelow(m.s, path) ==> NoneBelow(e.s, path))
  {
    hide Chronicle, Sound, Linked, RepeatPath, Unmoved, Tracks;
    SoundRecord(c.env, c.top, m.s, path);
    RecordSound(c.env, c.top, Durable(m.log), m.s, path, rs);
    RecordLinked(Durable(m.log), m.s, path, rs);
    RecordTracks(c.top, Durable(m.log), m.s, path, rs);
    if NoneBelow(m.s, path) {
      RecordBelow(m.s, path, rs);
    }
  }

  /** The children are done: the repeat now waits for its condition, which is what comes next. */
  lemma DueTurning(c: Course, step: Step, path: Path, m: Machine, rs: RepeatState)
    requires Carried(c, m) && step.kind.Repeat? && FindStep(c.top, path) == Some(step) && StepLifts(c.top, step, path)
    requires Inside(c.top, path, m.s) && path <= m.s.currentPath && NoneBelow(m.s, path)
    requires Unfinished(m.s, path) && rs == m.s.repeatStates[path]
    requires NextOfScope(step.kind.steps, path + [Itoa(rs.iteration)], m.s) == None
    ensures var due := rs.(awaitingCondition := true); Turning(c, step, path, WithRepeat(m, path, due), due)
  {
    hide Chronicle, Sound, Linked, Unmoved, Tracks, StepLifts, NextOfScope;
    var due := rs.(awaitingCondition := true);
    SoundRecord(c.env, c.top, m.s, path);
    RecordSound(c.env, c.top, Durable(m.log), m.s, path, due);
    RecordLinked(Durable(m.log), m.s, path, due);
    RecordBelow(m.s, path, due);
    DueTracks(c.top, step, path, Durable(m.log), m.s);
    AwaitsRecord(Durable(m.log), m.s, path, due);
    var s' := Record(m.s, path, due);
    assert IsCompleted(s', path) == IsCompleted(m.s, path);
    NextAsks(c.top, step, path, s');
  }

  lemma AroundIteration(top: seq<Step>, step: Step, path: Path, s: RunState)
    requires StepLocated(top, step, path) && Inside(top, path, s)
    requires path in s.repeatStates && !s.repeatStates[path].awaitingCondition
    ensures Around(top, path + [Itoa(s.repeatStates[path].iteration)], s)
  {
    var part := Itoa(s.repeatStates[path].iteration);
    NotAStep(top, step, path, part);
    AroundPart(top, path, part, s);
  }

  lemma IterationLeads(top: seq<Step>, step: Step, path: Path, m: Machine, rs: RepeatState)
    requires Standing(step, path, m.s) && rs == RepeatAt(m.s, path) && !rs.awaitingCondition && !IsCompleted(m.s, path)
    requires var steps, scope, e := step.kind.steps, path + [Itoa(rs.iteration)], WithRepeat(m, path, rs);
      && OnPath(e.s) && ScopeLifts(top, steps, scope) && Around(top, scope, e.s)
    requires StepLifts(top, step, path) && Inside(top, path, WithRepeat(m, path, rs).s)
    ensures var steps, scope, e := step.kind.steps, path + [Itoa(rs.iteration)], WithRepeat(m, path, rs);
      Leads(top, steps, ChildIndex(steps, m.s, path), scope, e.s, e.s.currentPath, true)
  {
    hide OnPath, ScopeLifts, StepLifts, Around, Inside;
    var steps, scope := step.kind.steps, path + [Itoa(rs.iteration)];
    var e := WithRepeat(m, path, rs);
    assert SamePlaces(m.s, e.s);
    if |m.s.currentPath| <= |path| {
      assert m.s.currentPath == path;
      assert IsCompleted(e.s, path) == IsCompleted(m.s, path);
      NextOpens(top, step, path, e.s);
      assert Poised(top, steps, 0, scope, e.s);
      LeadsFrom(top, steps, scope, e.s);
    } else {
      assert m.s.currentPath[..|scope|] == scope;
      PlacedScopeStarted(steps, scope, m.s, e.s);
      LeadsIn(top, steps, scope, e.s);
    }
  }

  /** What the children of an iteration leave in place. */
  lemma IterationKeeps(c: Course, steps: seq<Step>, i: nat, path: Path, n: nat, e: Machine, p: Path)
    requires e.data == e.s.data && path <= e.s.currentPath && p <= path
    ensures Kept(p, e.s, ExecScope(c.env, c.top, steps, i, path + [Itoa(n)], e).m.s)
  {
    hide ExecSteps;
    var scope := path + [Itoa(n)];
    BaseReached(p, scope, e);
    StepsReached(Base(p, scope, e.s, e.log), c.env, c.top, steps, i, scope, e, e.s.currentPath, true);
  }

  lemma IterationLeaves(c: Course, steps: seq<Step>, i: nat, path: Path, n: nat, e: Machine, r: Result)
    requires e.data == e.s.data && path != [] && path <= e.s.currentPath && Inside(c.top, path, e.s)
    requires r == ExecScope(c.env, c.top, steps, i, path + [Itoa(n)], e)
    ensures Kept(path, e.s, r.m.s) && Inside(c.top, path, r.m.s)
    ensures r.m.s.status == Running ==> path <= r.m.s.currentPath
  {
    hide RepeatPath, ExecSteps;
    var scope := path + [Itoa(n)];
    BaseReached([], path, e);
    StepsReached(Base([], path, e.s, e.log), c.env, c.top, steps, i, scope, e, e.s.currentPath, true);
    IterationKeeps(c, steps, i, path, n, e, path);
    var s' := r.m.s;
    forall p | p < path && RepeatPath(c.top, p) ensures Hosts(s', p, path) {
      IterationKeeps(c, steps, i, path, n, e, p);
      assert Hosts(e.s, p, path);
    }
  }

  lemma {:induction false} RepeatEnds(c: Course, step: Step, path: Path, m: Machine)
    requires AtStep(c, step, path, m) && step.kind.Repeat?
    ensures StepEndsWell(c, step, path, ExecStep(c.env, c.top, step, path, m))
    decreases step, 0, 1
  {
    hide Chronicle, Sound, Linked, Unmoved, Tracks, Remembers, StepLocated, EnsureStarted, FinishIteration, RunIteration, PlacedStep,
         Standing, NoneBelow, StepLifts, NextCall;
    NotYetDone(c.env, c.top, step, path, m.s);
    StartEnds(c, step.kind.maxDuration, path, m);
    var r := EnsureStarted(c.env, step.kind.maxDuration, path, m);
    if r.err == NoError {
      PlacedStarted(step, path, m.s, r.m.s);
      PlacedIteration(step, path, r.m.s);
      NotYetDone(c.env, c.top, step, path, r.m.s);
      var rs := RepeatAt(r.m.s, path);
      if TimedOutAt(step.kind.maxDuration, rs, c.env.now(r.m.log)) {
        LateEnds(c, step, path, r.m);
      } else if rs.awaitingCondition {
        AwaitedTurning(c, step, path, r.m, rs);
        FinishEnds(c, step, path, WithRepeat(r.m, path, rs), rs);
      } else {
        IterationEnds(c, step, path, r.m, rs);
      }
    }
  }

  /** Out of time before anything is called. */
  lemma LateEnds(c: Course, step: Step, path: Path, m: Machine)
    requires Asked(c, m) && step.kind.Repeat?
    ensures StepEndsWell(c, step, path, RepeatTimeoutFailure(m, step, path))
  {
    hide Chronicle, Remembers, NextCall, Halfway, OnPath, Idle, Rooted, OnlyRepeats, Clocked;
  }

  /** The repeat was waiting for its condition already. */
  lemma AwaitedTurning(c: Course, step: Step, path: Path, m: Machine, rs: RepeatState)
    requires Carried(c, m) && step.kind.Repeat? && FindStep(c.top, path) == Some(step) && StepLifts(c.top, step, path)
    requires Inside(c.top, path, m.s) && path <= m.s.currentPath && !IsCompleted(m.s, path)
    requires rs == RepeatAt(m.s, path) && rs.awaitingCondition && !rs.completed
    ensures Turning(c, step, path, WithRepeat(m, path, rs), rs)
  {
    hide Chronicle, Sound, Linked, Unmoved, Tracks, StepLifts;
    IdleBelow(c.env, c.top, path, m.s);
    RecordCarried(c, path, m, rs);
    AwaitsRecord(Durable(m.log), m.s, path, rs);
    var e := WithRepeat(m, path, rs);
    assert IsCompleted(e.s, path) == IsCompleted(m.s, path);
    NextAsks(c.top, step, path, e.s);
  }

  lemma {:induction false} IterationEnds(c: Course, step: Step, path: Path, m: Machine, rs: RepeatState)
    requires AtStep(c, step, path, m) && Standing(step, path, m.s) && step.kind.Repeat?
    requires rs == RepeatAt(m.s, path) && !rs.awaitingCondition && !rs.completed && !IsCompleted(m.s, path)
    ensures StepEndsWell(c, step, path, RunIteration(c.env, c.top, step, path, m, rs))
    decreases step, 0, 0
  {
    hide Chronicle, Sound, Linked, Unmoved, Tracks, Remembers, FinishIteration, PlacedStep, Standing, NoneBelow, Entry, Leads, Around,
         StepLocated, Located, StepLifts, ScopeLifts, NextOfScope, NextOfStep, NextCall;
    var steps, scope := step.kind.steps, path + [Itoa(rs.iteration)];
    var i, e := ChildIndex(steps, m.s, path), WithRepeat(m, path, rs);
    IterationAtScope(c, step, path, m, rs);
    StepsEnd(c, steps, i, scope, e, e.s.currentPath, true);
    var r := ExecScope(c.env, c.top, steps, i, scope, e);
    if r.err == NoError && r.m.s.status == Running {
      var due := rs.(awaitingCondition := true);
      IterationLeaves(c, steps, i, path, rs.iteration, e, r);
      ChildrenBelow(c, step, path, rs.iteration, r.m.s);
      DueTurning(c, step, path, r.m, rs);
      FinishEnds(c, step, path, WithRepeat(r.m, path, due), due);
    }
  }

  lemma IterationAtScope(c: Course, step: Step, path: Path, m: Machine, rs: RepeatState)
    requires AtStep(c, step, path, m) && Standing(step, path, m.s) && step.kind.Repeat?
    requires rs == RepeatAt(m.s, path) && !rs.awaitingCondition && !rs.completed && !IsCompleted(m.s, path)
    ensures var steps, scope, e := step.kind.steps, path + [Itoa(rs.iteration)], WithRepeat(m, path, rs);
      && AtScope(c, steps, ChildIndex(steps, m.s, path), scope, e, e.s.currentPath, true)
      && Inside(c.top, path, e.s) && Unfinished(e.s, path) && e.s.repeatStates[path] == rs
  {
    hide Chronicle, Sound, Linked, Unmoved, Tracks, Remembers, PlacedStep, Standing, NoneBelow, Entry, Leads, Around,
         StepLocated, Located, StepLifts, ScopeLifts;
    var e := WithRepeat(m, path, rs);
    RecordCarried(c, path, m, rs);
    IterationEntry(step, path, m, rs);
    SoundOnPath(c.env, c.top, e.s);
    LocateRepeat(c.top, step, path, rs.iteration);
    LiftRepeat(c.top, step, path, rs.iteration);
    AroundIteration(c.top, step, path, e.s);
    IterationLeads(c.top, step, path, m, rs);
  }

  lemma ChildrenBelow(c: Course, step: Step, path: Path, n: nat, s: RunState)
    requires StepLocated(c.top, step, path) && Sound(c.env, c.top, s) && NoneBelow(s, path + [Itoa(n)])
    ensures NoneBelow(s, path)
  {
    hide Clocked, Idle, Rooted;
    NotAStep(c.top, step, path, Itoa(n));
    forall p | Unfinished(s, p) ensures p <= path {
      var scope := path + [Itoa(n)];
      assert p <= scope && RepeatPath(c.top, p) && p != scope;
      assert p == scope[..|p|] && scope[..|path|] == path;
    }
  }
}
