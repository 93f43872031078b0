/**
 * Two executions side by side. When callbacks are functions of the data, what a scope does depends
 * on neither the history so far nor the revision: twin machines make the same calls, get the same
 * answers and end as twins again.
 */
module Lockstep {
  import opened Options
  import opened Decimal
  import opened Definition
  import opened State
  import opened Executor

  /** Callbacks answer from the data alone, the store accepts everything, nothing is cancelled. */
  ghost predicate Steady(env: Env) {
    && (forall log, call, data :: env.call(log, call, data) == env.call([], call, data))
    && (forall log, s :: env.save(log, s))
    && (forall log :: !env.cancelled(log))
  }

  /** Some reading of the clock. */
  ghost predicate Reading(env: Env, t: int) {
    exists log :: env.now(log) == t
  }

  /** No two readings of the clock are as far apart as this limit, where it is one. */
  ghost predicate Ample(env: Env, limit: int) {
    limit <= 0 || forall a, b :: env.now(b) - env.now(a) < limit
  }

  /** No time limit here can run out: the clock may move, but not that far. */
  ghost predicate InTime(env: Env, steps: seq<Step>)
    decreases steps
  {
    forall i :: 0 <= i < |steps| ==> StepInTime(env, steps[i])
  }

  ghost predicate StepInTime(env: Env, step: Step)
    decreases step
  {
    match step.kind
    case Action(_, _) => true
    case Poll(maxDuration) => Ample(env, maxDuration)
    case Branch(paths) => forall k :: 0 <= k < |paths| ==> InTime(env, paths[k].steps)
    case Repeat(steps, _, maxDuration, _) => Ample(env, maxDuration) && InTime(env, steps)
  }

  /** The calls of a log with their answers. */
  function Calls(log: Log): seq<Event> {
    if log == [] then []
    else Calls(log[..|log| - 1]) + if log[|log| - 1].Called? then [log[|log| - 1]] else []
  }

  /** After the calls a in one log and b in the other, both logs made the same calls. */
  ghost predicate Paired(a: seq<Event>, b: seq<Event>, log: Log, log': Log) {
    a <= Calls(log) && b <= Calls(log') && Calls(log)[|a|..] == Calls(log')[|b|..]
  }

  /** Every time recorded in the state was read from this clock. */
  ghost predicate Clocked(env: Env, s: RunState) {
    && (s.pollStartedAt.Some? ==> Reading(env, s.pollStartedAt.value))
    && forall q :: RepeatAt(s, q).startedAt.Some? ==> Reading(env, RepeatAt(s, q).startedAt.value)
  }

  /** The same position of a repeat, its clock started in both or in neither. */
  predicate RecordTwin(rs: RepeatState, rs': RepeatState) {
    rs' == rs.(startedAt := rs'.startedAt) && (rs.startedAt.Some? <==> rs'.startedAt.Some?)
  }

  /** The same position, but that the first waits for its condition and the second not yet. */
  predicate WaitingTwin(rs: RepeatState, rs': RepeatState) {
    rs.awaitingCondition && RecordTwin(rs.(awaitingCondition := false), rs')
  }

  ghost predicate SameRecords(off: Option<Path>, s: RunState, s': RunState) {
    forall q :: RecordTwin(RepeatAt(s, q), RepeatAt(s', q))
                || (off == Some(q) && WaitingTwin(RepeatAt(s, q), RepeatAt(s', q)))
  }

  /** Positions are recorded for the same repeats, and a poll waits in both or in neither. */
  predicate SameShape(s: RunState, s': RunState) {
    s'.repeatStates.Keys == s.repeatStates.Keys && (s.pollStartedAt.Some? <==> s'.pollStartedAt.Some?)
  }

  /** Equal but for the revision, for when clocks were started, and perhaps for the path. */
  ghost predicate Near(env: Env, s: RunState, s': RunState) {
    NearBut(env, None, s, s')
  }

  /** The same, but that one repeat may wait for its condition in s alone. */
  ghost predicate NearBut(env: Env, off: Option<Path>, s: RunState, s': RunState) {
    && s' == s.(revision := s'.revision, pollStartedAt := s'.pollStartedAt, repeatStates := s'.repeatStates,
                currentPath := s'.currentPath)
    && SameRecords(off, s, s') && Clocked(env, s) && Clocked(env, s')
  }

  /** Equal but for the revision and for when clocks were started. */
  ghost predicate Twin(env: Env, s: RunState, s': RunState) {
    Near(env, s, s') && s'.currentPath == s.currentPath && SameShape(s, s')
  }

  /**
   * The two executions to compare, and the calls each had made when the comparison began. They may
   * be near without being twins; the path matters unless the scopes that read it are left behind,
   * and the repeat at off may already wait for its condition in the first alone.
   */
  datatype Pair = Pair(env: Env, a: seq<Event>, b: seq<Event>, exact: bool, placed: bool, off: Option<Path>)

  ghost predicate Twins(p: Pair, m: Machine, m': Machine) {
    && NearBut(p.env, p.off, m.s, m'.s) && m'.data == m.data && Paired(p.a, p.b, m.log, m'.log)
    && (p.placed ==> m'.s.currentPath == m.s.currentPath)
    && (p.exact ==> SameShape(m.s, m'.s))
  }

  ghost predicate TwinResults(p: Pair, r: Result, r': Result) {
    Twins(p, r.m, r'.m) && r'.err == r.err && r.err != SnapshotFailed && r.err != Cancelled
  }

  // ---------- states ----------

  /** With a clock that stands still, twins agree about all times. */
  lemma StillTwins(env: Env, s: RunState, s': RunState, q: Path)
    requires Twin(env, s, s') && forall log :: env.now(log) == env.now([])
    ensures s'.pollStartedAt == s.pollStartedAt && RepeatAt(s', q) == RepeatAt(s, q)
  {
    assert RecordTwin(RepeatAt(s, q), RepeatAt(s', q));
  }

  lemma NotTimedOut(env: Env, limit: int, rs: RepeatState, log: Log)
    requires Ample(env, limit) && (rs.startedAt.Some? ==> Reading(env, rs.startedAt.value))
    ensures !TimedOutAt(limit, rs, env.now(log))
  {
    if rs.startedAt.Some? {
      var start :| env.now(start) == rs.startedAt.value;
      assert limit > 0 ==> env.now(log) - env.now(start) < limit;
    }
  }

  lemma TwinFields(p: Pair, m: Machine, m': Machine)
    requires Twins(p, m, m')
    ensures m'.data == m.data
    ensures m'.s == m.s.(revision := m'.s.revision, pollStartedAt := m'.s.pollStartedAt,
                         repeatStates := m'.s.repeatStates, currentPath := m'.s.currentPath)
    ensures p.placed ==> m'.s.currentPath == m.s.currentPath
  {
  }

  /** The same change of other fields in both. */
  lemma MoveTwins(p: Pair, m: Machine, m': Machine, t: RunState, t': RunState)
    requires Twins(p, m, m')
    requires t.repeatStates == m.s.repeatStates && t.pollStartedAt == m.s.pollStartedAt
    requires t'.repeatStates == m'.s.repeatStates && t'.pollStartedAt == m'.s.pollStartedAt
    requires t' == t.(revision := t'.revision, pollStartedAt := t'.pollStartedAt, repeatStates := t'.repeatStates,
                      currentPath := t'.currentPath)
    requires p.placed ==> t'.currentPath == t.currentPath
    ensures Twins(p, m.(s := t), m'.(s := t'))
  {
    hide Paired;
    forall q ensures RepeatAt(t, q) == RepeatAt(m.s, q) && RepeatAt(t', q) == RepeatAt(m'.s, q) {}
  }

  /** A poll started or reset in both. */
  lemma WaitTwins(p: Pair, m: Machine, m': Machine, started: Option<int>, started': Option<int>)
    requires Twins(p, m, m') && (started.Some? <==> started'.Some?)
    requires started.Some? ==> Reading(p.env, started.value) && Reading(p.env, started'.value)
    ensures Twins(p, m.(s := m.s.(pollStartedAt := started)), m'.(s := m'.s.(pollStartedAt := started')))
  {
    hide Paired, Reading;
    var t, t' := m.s.(pollStartedAt := started), m'.s.(pollStartedAt := started');
    forall q ensures RepeatAt(t, q) == RepeatAt(m.s, q) && RepeatAt(t', q) == RepeatAt(m'.s, q) {}
  }

  /** The records of one repeat, which may be the one that waits in m alone. */
  predicate RecordsMatch(p: Pair, q: Path, rs: RepeatState, rs': RepeatState) {
    RecordTwin(rs, rs') || (p.off == Some(q) && WaitingTwin(rs, rs'))
  }

  lemma RepeatTwin(p: Pair, m: Machine, m': Machine, q: Path)
    requires Twins(p, m, m')
    ensures RecordsMatch(p, q, RepeatAt(m.s, q), RepeatAt(m'.s, q))
    ensures RepeatAt(m.s, q).startedAt.Some? ==> Reading(p.env, RepeatAt(m.s, q).startedAt.value)
    ensures RepeatAt(m'.s, q).startedAt.Some? ==> Reading(p.env, RepeatAt(m'.s, q).startedAt.value)
  {
  }

  /** The same position recorded in both. */
  ghost predicate ClockedRecord(env: Env, rs: RepeatState) {
    rs.startedAt.Some? ==> Reading(env, rs.startedAt.value)
  }

  lemma RecordTwins(p: Pair, m: Machine, m': Machine, path: Path, rs: RepeatState, rs': RepeatState)
    requires Twins(p, m, m') && RecordsMatch(p, path, rs, rs') && ClockedRecord(p.env, rs) && ClockedRecord(p.env, rs')
    ensures Twins(p, WithRepeat(m, path, rs), WithRepeat(m', path, rs'))
    ensures p.off == Some(path) && RecordTwin(rs, rs') ==>
      Twins(p.(off := None), WithRepeat(m, path, rs), WithRepeat(m', path, rs'))
  {
    hide Paired, Reading;
    var t, t' := WithRepeat(m, path, rs).s, WithRepeat(m', path, rs').s;
    forall q ensures RepeatAt(t, q) == if q == path then rs else RepeatAt(m.s, q) {}
    forall q ensures RepeatAt(t', q) == if q == path then rs' else RepeatAt(m'.s, q) {}
  }

  lemma RetainedTwins(p: Pair, m: Machine, m': Machine, step: Step, path: Path, n: nat)
    requires Twins(p, m, m') && step.kind.Repeat? && p.off.None?
    ensures Twins(p, m.(s := Retained(step, m.s, path, n)), m'.(s := Retained(step, m'.s, path, n)))
  {
    hide Paired, Reading;
    if step.kind.compact {
      var prefix := path + [Itoa(n)];
      var t, t' := Retained(step, m.s, path, n), Retained(step, m'.s, path, n);
      forall q ensures RepeatAt(t, q) == if IsPrefix(prefix, q) then NO_REPEAT else RepeatAt(m.s, q) {}
      forall q ensures RepeatAt(t', q) == if IsPrefix(prefix, q) then NO_REPEAT else RepeatAt(m'.s, q) {}
    }
  }

  // ---------- logs and saves ----------

  lemma PairedAppend(a: seq<Event>, b: seq<Event>, log: Log, log': Log, e: Event, e': Event)
    requires Paired(a, b, log, log')
    requires if e.Called? then e' == e else !e'.Called?
    ensures Paired(a, b, log + [e], log' + [e'])
  {
    assert (log + [e])[..|log|] == log && (log' + [e'])[..|log'|] == log';
    if e.Called? {
      assert (Calls(log) + [e])[|a|..] == Calls(log)[|a|..] + [e];
      assert (Calls(log') + [e])[|b|..] == Calls(log')[|b|..] + [e];
    }
  }

  lemma SnapshotTwins(p: Pair, m: Machine, m': Machine)
    requires Steady(p.env) && Twins(p, m, m')
    ensures TwinResults(p, Snapshot(p.env, m), Snapshot(p.env, m'))
    ensures Snapshot(p.env, m).err == NoError
  {
    hide Paired, Near, SameShape;
    var t, t' := m.s.(revision := m.s.revision + 1), m'.s.(revision := m'.s.revision + 1);
    TwinFields(p, m, m');
    MoveTwins(p, m, m', t, t');
    PairedAppend(p.a, p.b, m.log, m'.log, Saved(t), Saved(t'));
  }

  lemma SaveTwins(p: Pair, m: Machine, m': Machine, polling: bool)
    requires Steady(p.env) && Twins(p, m, m')
    ensures TwinResults(p, SnapshotData(p.env, m), SnapshotData(p.env, m'))
    ensures TwinResults(p, PersistDeferred(p.env, m, polling), PersistDeferred(p.env, m', polling))
    ensures SnapshotData(p.env, m).err == NoError
  {
    hide Twins, Snapshot, Steady;
    TwinFields(p, m, m');
    var t, t' := m.s.(data := m.data), m'.s.(data := m'.data);
    MoveTwins(p, m, m', t, t');
    MoveTwins(p, m, m', t.(status := Polling), t'.(status := Polling));
    SnapshotTwins(p, m.(s := t), m'.(s := t'));
    SnapshotTwins(p, m.(s := t.(status := Polling)), m'.(s := t'.(status := Polling)));
  }

  lemma InvokeTwins(p: Pair, m: Machine, m': Machine, call: Call)
    requires Steady(p.env) && Twins(p, m, m')
    ensures Twins(p, Invoke(p.env, m, call).m, Invoke(p.env, m', call).m)
    ensures Invoke(p.env, m', call).reply == Invoke(p.env, m, call).reply
  {
    hide Paired, Near, SameShape;
    var o := p.env.call([], call, m.data);
    PairedAppend(p.a, p.b, m.log, m'.log, Called(call, o.reply), Called(call, o.reply));
  }

  lemma FailTwins(p: Pair, m: Machine, m': Machine, path: Path, failure: Failure, polling: bool)
    requires Steady(p.env) && Twins(p, m, m')
    ensures TwinResults(p, CallbackFailed(p.env, m, path, failure, polling),
                        CallbackFailed(p.env, m', path, failure, polling))
  {
    hide Paired, Snapshot, SnapshotData, PersistDeferred;
    SaveTwins(p, m, m', polling);
  }

  lemma {:induction false} AttemptTwins(p: Pair, m: Machine, m': Machine, path: Path, left: nat, delay: int, backoff: bool)
    requires Steady(p.env) && Twins(p, m, m') && left >= 1
    ensures var a, a' := Attempt(p.env, m, path, left, delay, backoff), Attempt(p.env, m', path, left, delay, backoff);
      Twins(p, a.m, a'.m) && a'.reply == a.reply
    decreases left
  {
    hide Paired;
    InvokeTwins(p, m, m', Do(path));
    var a, a' := Invoke(p.env, m, Do(path)), Invoke(p.env, m', Do(path));
    if !(a.reply.Ok? || a.reply.failure == RetryAfter || left == 1) {
      PairedAppend(p.a, p.b, a.m.log, a'.m.log, Slept(delay), Slept(delay));
      AttemptTwins(p, a.m.(log := a.m.log + [Slept(delay)]), a'.m.(log := a'.m.log + [Slept(delay)]),
                   path, left - 1, NextDelay(backoff, delay), backoff);
    }
  }

  lemma CompleteTwins(p: Pair, m: Machine, m': Machine, path: Path, has: bool)
    requires Twins(p, m, m')
    ensures Twins(p, m.(s := Complete(m.s, path, has)), m'.(s := Complete(m'.s, path, has)))
  {
    hide Twins;
    TwinFields(p, m, m');
    MoveTwins(p, m, m', Complete(m.s, path, has), Complete(m'.s, path, has));
  }

  lemma ActionTwins(p: Pair, m: Machine, m': Machine, compensated: bool, retry: Option<Retry>, path: Path)
    requires Steady(p.env) && Twins(p, m, m')
    ensures TwinResults(p, ExecAction(p.env, compensated, retry, path, m),
                        ExecAction(p.env, compensated, retry, path, m'))
  {
    hide Twins, Snapshot, SnapshotData, PersistDeferred, Steady;
    var n, delay, backoff := MaxAttempts(retry), InitialDelay(retry), Backoff(retry);
    AttemptTwins(p, m, m', path, n, delay, backoff);
    var a, a' := Attempt(p.env, m, path, n, delay, backoff), Attempt(p.env, m', path, n, delay, backoff);
    if a.reply.Fail? {
      FailTwins(p, a.m, a'.m, path, a.reply.failure, false);
    } else {
      CompleteTwins(p, a.m, a'.m, path, compensated);
      SaveTwins(p, a.m.(s := Complete(a.m.s, path, compensated)), a'.m.(s := Complete(a'.m.s, path, compensated)), false);
    }
  }

  lemma PollNotTimedOut(env: Env, limit: int, s: RunState, log: Log)
    requires Ample(env, limit) && Clocked(env, s)
    ensures var now := env.now(log); var started := if s.pollStartedAt.None? then now else s.pollStartedAt.value;
      !(limit > 0 && now - started >= limit) && Reading(env, started)
  {
    var now := env.now(log);
    var started := if s.pollStartedAt.None? then now else s.pollStartedAt.value;
    assert Reading(env, now);
    NotTimedOut(env, limit, NO_REPEAT.(startedAt := Some(started)), log);
  }

  lemma TwinsClocked(p: Pair, m: Machine, m': Machine)
    requires Twins(p, m, m')
    ensures Clocked(p.env, m.s) && Clocked(p.env, m'.s)
  {
  }

  /** Whether and when the polls had been started does not matter. */
  lemma PollTwins(p: Pair, m: Machine, m': Machine, maxDuration: int, path: Path)
    requires Steady(p.env) && Twins(p, m, m') && Ample(p.env, maxDuration)
    ensures TwinResults(p, ExecPoll(p.env, maxDuration, path, m), ExecPoll(p.env, maxDuration, path, m'))
  {
    hide Twins, Snapshot, SnapshotData, PersistDeferred, Clocked, Reading, Ample;
    var env := p.env;
    TwinsClocked(p, m, m');
    PollNotTimedOut(env, maxDuration, m.s, m.log);
    PollNotTimedOut(env, maxDuration, m'.s, m'.log);
    var started := if m.s.pollStartedAt.None? then env.now(m.log) else m.s.pollStartedAt.value;
    var started' := if m'.s.pollStartedAt.None? then env.now(m'.log) else m'.s.pollStartedAt.value;
    WaitTwins(p, m, m', Some(started), Some(started'));
    var q, q' := m.(s := m.s.(pollStartedAt := Some(started))), m'.(s := m'.s.(pollStartedAt := Some(started')));
    InvokeTwins(p, q, q', Check(path));
    var a, a' := Invoke(env, q, Check(path)), Invoke(env, q', Check(path));
    WaitTwins(p, a.m, a'.m, None, None);
    var t, t' := a.m.(s := a.m.s.(pollStartedAt := None)), a'.m.(s := a'.m.s.(pollStartedAt := None));
    if a.reply.Fail? {
      FailTwins(p, a.m, a'.m, path, a.reply.failure, true);
      FailTwins(p, t, t', path, a.reply.failure, true);
    } else if !a.reply.done {
      SaveTwins(p, a.m, a'.m, true);
    } else {
      TwinFields(p, t, t');
      var u, u' := t.s.(status := Running), t'.s.(status := Running);
      MoveTwins(p, t, t', u, u');
      CompleteTwins(p, t.(s := u), t'.(s := u'), path, false);
      SaveTwins(p, t.(s := Complete(u, path, false)), t'.(s := Complete(u', path, false)), false);
    }
  }

  lemma ChosenTwins(p: Pair, m: Machine, m': Machine, path: Path, at: Path)
    requires Steady(p.env) && Twins(p, m, m')
    ensures TwinResults(p.(placed := true), SnapshotData(p.env, m.(s := Complete(m.s, path, false).(currentPath := at))),
                        SnapshotData(p.env, m'.(s := Complete(m'.s, path, false).(currentPath := at))))
    ensures SnapshotData(p.env, m.(s := Complete(m.s, path, false).(currentPath := at))).err == NoError
  {
    hide Twins, SnapshotData;
    CompleteTwins(p, m, m', path, false);
    PlaceTwins(p, m.(s := Complete(m.s, path, false)), m'.(s := Complete(m'.s, path, false)), at);
    SaveTwins(p.(placed := true), m.(s := Complete(m.s, path, false).(currentPath := at)),
              m'.(s := Complete(m'.s, path, false).(currentPath := at)), false);
  }

  /** Wherever the two stood, now both stand here. */
  lemma PlaceTwins(p: Pair, m: Machine, m': Machine, at: Path)
    requires Twins(p, m, m')
    ensures Twins(p.(placed := true), m.(s := m.s.(currentPath := at)), m'.(s := m'.s.(currentPath := at)))
    ensures Twins(p, m.(s := m.s.(currentPath := at)), m'.(s := m'.s.(currentPath := at)))
  {
    hide Paired, Reading;
    var t, t' := m.s.(currentPath := at), m'.s.(currentPath := at);
    forall q ensures RepeatAt(t, q) == RepeatAt(m.s, q) && RepeatAt(t', q) == RepeatAt(m'.s, q) {}
  }

  lemma UnplaceTwins(p: Pair, r: Result, r': Result)
    requires TwinResults(p.(placed := true), r, r')
    ensures TwinResults(p, r, r')
  {
  }

  lemma DecideTwins(p: Pair, m: Machine, m': Machine, paths: seq<BranchPath>, path: Path)
    requires Steady(p.env) && Twins(p, m, m')
    ensures var d, d' := DecideBranch(p.env, paths, path, m), DecideBranch(p.env, paths, path, m');
      if d.Entered? then d'.Entered? && d'.index == d.index && Twins(p.(placed := true), d.m, d'.m)
      else d'.Settled? && TwinResults(p, d.r, d'.r)
  {
    hide Twins, Snapshot, SnapshotData, PersistDeferred, Steady;
    InvokeTwins(p, m, m', Decide(path));
    var a, a' := Invoke(p.env, m, Decide(path)), Invoke(p.env, m', Decide(path));
    if a.reply.Fail? {
      FailTwins(p, a.m, a'.m, path, a.reply.failure, false);
    } else {
      var k := FindKey(paths, a.reply.key);
      if k.Some? {
        var at := if paths[k.value].steps == [] then path else path + [paths[k.value].key];
        ChosenTwins(p, a.m, a'.m, path, at);
        var r := SnapshotData(p.env, a.m.(s := Complete(a.m.s, path, false).(currentPath := at)));
        var r' := SnapshotData(p.env, a'.m.(s := Complete(a'.m.s, path, false).(currentPath := at)));
        UnplaceTwins(p, r, r');
      }
    }
  }

  lemma FinishTwins(p: Pair, m: Machine, m': Machine, step: Step, path: Path, rs: RepeatState, rs': RepeatState)
    requires Steady(p.env) && Twins(p, m, m') && step.kind.Repeat? && Ample(p.env, step.kind.maxDuration) && p.off.None?
    requires RecordTwin(rs, rs') && ClockedRecord(p.env, rs) && ClockedRecord(p.env, rs')
    ensures TwinResults(p, FinishIteration(p.env, step, path, m, rs), FinishIteration(p.env, step, path, m', rs'))
  {
    hide Twins, Snapshot, SnapshotData, PersistDeferred, Steady, Ample, Reading, Retained;
    NotTimedOut(p.env, step.kind.maxDuration, rs, m.log);
    NotTimedOut(p.env, step.kind.maxDuration, rs', m'.log);
    InvokeTwins(p, m, m', Until(path, rs.iteration));
    var a, a' := Invoke(p.env, m, Until(path, rs.iteration)), Invoke(p.env, m', Until(path, rs.iteration));
    if a.reply.Fail? {
      FailTwins(p, a.m, a'.m, path, a.reply.failure, false);
    } else {
      RetainedTwins(p, a.m, a'.m, step, path, rs.iteration);
      var k, k' := a.m.(s := Retained(step, a.m.s, path, rs.iteration)), a'.m.(s := Retained(step, a'.m.s, path, rs.iteration));
      if a.reply.done {
        var done := rs.(awaitingCondition := false, completed := true, startedAt := None);
        RecordTwins(p, k, k', path, done, done);
        PlaceTwins(p, WithRepeat(k, path, done), WithRepeat(k', path, done), path);
        CompleteTwins(p, k.(s := WithRepeat(k, path, done).s.(currentPath := path)),
                      k'.(s := WithRepeat(k', path, done).s.(currentPath := path)), path, false);
        SaveTwins(p, a.m.(s := DoneState(step, path, a.m.s, rs)), a'.m.(s := DoneState(step, path, a'.m.s, rs')), false);
      } else if !LastIteration(step, rs) {
        var at := path + [Itoa(rs.iteration + 1)];
        var next := rs.(iteration := rs.iteration + 1, awaitingCondition := false);
        var next' := rs'.(iteration := rs.iteration + 1, awaitingCondition := false);
        RecordTwins(p, k, k', path, next, next');
        PlaceTwins(p, WithRepeat(k, path, next), WithRepeat(k', path, next'), at);
        SaveTwins(p, a.m.(s := NextState(step, path, a.m.s, rs)), a'.m.(s := NextState(step, path, a'.m.s, rs')), false);
      }
    }
  }

  lemma StopTwins(p: Pair, m: Machine, m': Machine, failure: Failure)
    requires Steady(p.env) && Twins(p, m, m')
    ensures TwinResults(p, StopCompensation(p.env, m, failure), StopCompensation(p.env, m', failure))
  {
    hide Twins;
    SaveTwins(p, m, m', false);
  }

  lemma SavedFields(env: Env, m: Machine)
    ensures SnapshotData(env, m).m.s.completedSteps == m.s.completedSteps
    ensures SnapshotData(env, m).m.s.compensationIndex == m.s.compensationIndex
  {
  }

  lemma {:induction false} CompensateTwins(p: Pair, top: seq<Step>, m: Machine, m': Machine, i: int)
    requires Steady(p.env) && Twins(p, m, m') && i < |m.s.completedSteps|
    ensures TwinResults(p, CompensateFrom(p.env, top, m, i), CompensateFrom(p.env, top, m', i))
    decreases i + 1
  {
    hide Twins, PersistDeferred, SnapshotData;
    var env := p.env;
    TwinFields(p, m, m');
    if i < 0 {
      MoveTwins(p, m, m', m.s.(status := Failed, compensationIndex := -1), m'.s.(status := Failed, compensationIndex := -1));
      SaveTwins(p, m.(s := m.s.(status := Failed, compensationIndex := -1)),
                m'.(s := m'.s.(status := Failed, compensationIndex := -1)), false);
    } else {
      var cs := m.s.completedSteps[i];
      var step := FindStep(top, cs.path);
      if !cs.hasCompensator || step.None? || !step.value.kind.Action? || !step.value.kind.compensated {
        MoveTwins(p, m, m', m.s.(compensationIndex := i - 1), m'.s.(compensationIndex := i - 1));
        CompensateTwins(p, top, m.(s := m.s.(compensationIndex := i - 1)),
                        m'.(s := m'.s.(compensationIndex := i - 1)), i - 1);
      } else {
        InvokeTwins(p, m, m', Compensate(cs.path));
        var a, a' := Invoke(env, m, Compensate(cs.path)), Invoke(env, m', Compensate(cs.path));
        TwinFields(p, a.m, a'.m);
        if a.reply.Fail? {
          MoveTwins(p, a.m, a'.m, a.m.s.(compensationIndex := i), a'.m.s.(compensationIndex := i));
          StopTwins(p, a.m.(s := a.m.s.(compensationIndex := i)), a'.m.(s := a'.m.s.(compensationIndex := i)),
                    a.reply.failure);
        } else {
          var t, t' := a.m.(s := a.m.s.(compensationIndex := i - 1)), a'.m.(s := a'.m.s.(compensationIndex := i - 1));
          MoveTwins(p, a.m, a'.m, t.s, t'.s);
          SaveTwins(p, t, t', false);
          SavedFields(env, t);
          CompensateTwins(p, top, SnapshotData(env, t).m, SnapshotData(env, t').m, i - 1);
        }
      }
    }
  }

  lemma EnterTwins(p: Pair, top: seq<Step>, m: Machine, m': Machine, path: Path, cause: Cause, err: Error)
    requires Steady(p.env) && Twins(p, m, m') && err != SnapshotFailed && err != Cancelled
    ensures TwinResults(p, EnterCompensation(p.env, top, m, path, cause, err),
                        EnterCompensation(p.env, top, m', path, cause, err))
  {
    hide Twins, PersistDeferred, SnapshotData, CompensateFrom;
    var t, t' := m.(s := StartCompensation(m.s, path, cause)), m'.(s := StartCompensation(m'.s, path, cause));
    TwinFields(p, m, m');
    MoveTwins(p, m, m', t.s, t'.s);
    SaveTwins(p, t, t', false);
    SavedFields(p.env, t);
    SavedFields(p.env, t');
    CompensateTwins(p, top, SnapshotData(p.env, t).m, SnapshotData(p.env, t').m, |m.s.completedSteps| - 1);
  }

  lemma HandleTwins(p: Pair, top: seq<Step>, r: Result, r': Result, path: Path)
    requires Steady(p.env) && TwinResults(p, r, r') && r.err != NoError
    ensures TwinResults(p, HandleError(p.env, top, r.m, r.err, path), HandleError(p.env, top, r'.m, r'.err, path))
  {
    hide Twins, Snapshot, SnapshotData, PersistDeferred, EnterCompensation;
    TwinFields(p, r.m, r'.m);
    MoveTwins(p, r.m, r'.m, r.m.s.(failedStepPath := path), r'.m.s.(failedStepPath := path));
    SaveTwins(p, r.m.(s := r.m.s.(failedStepPath := path)), r'.m.(s := r'.m.s.(failedStepPath := path)), false);
    EnterTwins(p, top, r.m, r'.m, path, if r.err.StepFailed? then r.err.cause else Plain, r.err);
  }

  lemma StartTwins(p: Pair, m: Machine, m': Machine, maxDuration: int, path: Path)
    requires Steady(p.env) && Twins(p, m, m')
    ensures TwinResults(p, EnsureStarted(p.env, maxDuration, path, m), EnsureStarted(p.env, maxDuration, path, m'))
  {
    hide Twins, Snapshot;
    RepeatTwin(p, m, m', path);
    var rs := RepeatAt(m.s, path).(startedAt := Some(p.env.now(m.log)));
    var rs' := RepeatAt(m'.s, path).(startedAt := Some(p.env.now(m'.log)));
    assert ClockedRecord(p.env, rs) && ClockedRecord(p.env, rs');
    RecordTwins(p, m, m', path, rs, rs');
    SnapshotTwins(p, WithRepeat(m, path, rs), WithRepeat(m', path, rs'));
  }

  // ---------- scopes ----------

  /** Where the two stand and resume from matters only at the first step of a scope. */
  lemma {:induction false} StepsTwins(p: Pair, top: seq<Step>, steps: seq<Step>, i: nat, parent: Path,
                                      m: Machine, m': Machine, resume: Path, resume': Path, first: bool)
    requires Steady(p.env) && InTime(p.env, steps) && Twins(p, m, m')
    requires p.off.None? && (first ==> p.placed && resume' == resume)
    ensures TwinResults(p, ExecSteps(p.env, top, steps, i, parent, m, resume, first),
                        ExecSteps(p.env, top, steps, i, parent, m', resume', first))
    decreases steps, 1, |steps| - i
  {
    hide Twins, HandleError, StepInTime;
    if i < |steps| {
      var path := parent + [steps[i].name];
      TwinFields(p, m, m');
      if first && path == resume && IsCompleted(m.s, path) {
        StepsTwins(p, top, steps, i + 1, parent, m, m', resume, resume', false);
      } else {
        var e, e' := Enter(m, path, resume, first), Enter(m', path, resume', first);
        PlaceTwins(p, m, m', e.s.currentPath);
        StepTwins(p.(placed := true), top, steps[i], path, e, e');
        var r, r' := ExecStep(p.env, top, steps[i], path, e), ExecStep(p.env, top, steps[i], path, e');
        UnplaceTwins(p, r, r');
        TwinFields(p, r.m, r'.m);
        if r.err != NoError {
          HandleTwins(p, top, r, r', path);
        } else if r.m.s.status == Running {
          StepsTwins(p, top, steps, i + 1, parent, r.m, r'.m, resume, resume', false);
        }
      }
    }
  }

  lemma {:induction false} StepTwins(p: Pair, top: seq<Step>, step: Step, path: Path, m: Machine, m': Machine)
    requires Steady(p.env) && StepInTime(p.env, step) && Twins(p, m, m') && p.placed && p.off.None?
    ensures TwinResults(p, ExecStep(p.env, top, step, path, m), ExecStep(p.env, top, step, path, m'))
    decreases step, 1
  {
    hide Twins, ExecAction, ExecPoll, DecideBranch;
    TwinFields(p, m, m');
    match step.kind
    case Action(compensated, retry) => ActionTwins(p, m, m', compensated, retry, path);
    case Poll(maxDuration) => PollTwins(p, m, m', maxDuration, path);
    case Branch(paths) =>
      var cp := m.s.currentPath;
      if |cp| > |path| {
        var f := FindKey(paths, cp[|path|]);
        if f.Some? {
          var steps := paths[f.value].steps;
          StepsTwins(p, top, steps, ChildIndex(steps, m.s, path), path + [paths[f.value].key], m, m', cp, cp, true);
        }
      } else {
        DecideTwins(p, m, m', paths, path);
        var d, d' := DecideBranch(p.env, paths, path, m), DecideBranch(p.env, paths, path, m');
        if d.Entered? {
          TwinFields(p, d.m, d'.m);
          StepsTwins(p, top, paths[d.index].steps, 0, path + [paths[d.index].key], d.m, d'.m,
                     d.m.s.currentPath, d'.m.s.currentPath, true);
        }
      }
    case Repeat(_, _, _, _) => RepeatTwins(p, top, step, path, m, m');
  }

  lemma {:induction false} RepeatTwins(p: Pair, top: seq<Step>, step: Step, path: Path, m: Machine, m': Machine)
    requires Steady(p.env) && StepInTime(p.env, step) && Twins(p, m, m') && p.placed && step.kind.Repeat? && p.off.None?
    ensures TwinResults(p, ExecStep(p.env, top, step, path, m), ExecStep(p.env, top, step, path, m'))
    decreases step, 0, 1
  {
    hide Twins, EnsureStarted, FinishIteration, RunIteration;
    var maxDuration := step.kind.maxDuration;
    StartTwins(p, m, m', maxDuration, path);
    var r, r' := EnsureStarted(p.env, maxDuration, path, m), EnsureStarted(p.env, maxDuration, path, m');
    TwinFields(p, r.m, r'.m);
    RepeatTwin(p, r.m, r'.m, path);
    NotTimedOut(p.env, maxDuration, RepeatAt(r.m.s, path), r.m.log);
    NotTimedOut(p.env, maxDuration, RepeatAt(r'.m.s, path), r'.m.log);
    var n := CurrentIteration(r.m.s, path);
    if r.err == NoError && n.Some? {
      var rs := RepeatAt(r.m.s, path).(iteration := n.value, completed := false);
      var rs' := RepeatAt(r'.m.s, path).(iteration := n.value, completed := false);
      RecordTwins(p, r.m, r'.m, path, rs, rs');
      if rs.awaitingCondition {
        FinishTwins(p, WithRepeat(r.m, path, rs), WithRepeat(r'.m, path, rs'), step, path, rs, rs');
      } else {
        IterationTwins(p, top, step, path, r.m, r'.m, rs, rs');
      }
    }
  }

  lemma {:induction false} IterationTwins(p: Pair, top: seq<Step>, step: Step, path: Path, m: Machine, m': Machine,
                                          rs: RepeatState, rs': RepeatState)
    requires Steady(p.env) && StepInTime(p.env, step) && Twins(p, m, m') && p.placed && step.kind.Repeat? && p.off.None?
    requires RecordTwin(rs, rs') && ClockedRecord(p.env, rs) && ClockedRecord(p.env, rs')
    ensures TwinResults(p, RunIteration(p.env, top, step, path, m, rs), RunIteration(p.env, top, step, path, m', rs'))
    decreases step, 0, 0
  {
    hide Twins, FinishIteration;
    var steps, scope := step.kind.steps, path + [Itoa(rs.iteration)];
    var e, e' := WithRepeat(m, path, rs), WithRepeat(m', path, rs');
    RecordTwins(p, m, m', path, rs, rs');
    TwinFields(p, m, m');
    var i := ChildIndex(steps, m.s, path);
    StepsTwins(p, top, steps, i, scope, e, e', e.s.currentPath, e'.s.currentPath, true);
    var c, c' := ExecScope(p.env, top, steps, i, scope, e), ExecScope(p.env, top, steps, i, scope, e');
    TwinFields(p, c.m, c'.m);
    if c.err == NoError && c.m.s.status == Running {
      var due, due' := rs.(awaitingCondition := true), rs'.(awaitingCondition := true);
      RecordTwins(p, c.m, c'.m, path, due, due');
      FinishTwins(p, WithRepeat(c.m, path, due), WithRepeat(c'.m, path, due'), step, path, due, due');
    }
  }
}
