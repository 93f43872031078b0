/** What retrying an action does: how often Do is called, when it stops, and how long it waits. */
module Backoff {
  import opened Options
  import opened Definition
  import opened State
  import opened Executor
  import opened Guarantees
  import opened NextCalls
  import opened Courses
  import opened Script
  import opened Staging
  import opened Failures

  function Pow2(k: nat): (p: nat)
    ensures p >= 1
  {
    if k == 0 then 1 else 2 * Pow2(k - 1)
  }

  /** The wait after attempt k: doubled each time under backoff, and capped, or always the same. */
  function Wait(initial: int, backoff: bool, k: nat): int {
    if !backoff then initial
    else if initial * Pow2(k) <= 0x7FFF_FFFF_FFFF_FFFF then initial * Pow2(k)
    else 0x7FFF_FFFF_FFFF_FFFF
  }

  predicate Duration(d: int) {
    0 < d <= 0x7FFF_FFFF_FFFF_FFFF
  }

  /** Doubling under the cap, one step after another, is the capped product. */
  lemma {:induction false} NextWait(initial: int, backoff: bool, k: nat)
    requires Duration(initial)
    ensures NextDelay(backoff, Wait(initial, backoff, k)) == Wait(initial, backoff, k + 1)
    ensures Duration(Wait(initial, backoff, k))
  {
    if backoff {
      var before := initial * Pow2(k);
      assert initial * Pow2(k + 1) == 2 * before;
      assert before >= initial by { Grows(initial, Pow2(k)); }
    }
  }

  lemma Grows(a: int, b: nat)
    requires a > 0 && b >= 1
    ensures a * b >= a
  {
  }

  predicate TriesAgain(reply: Reply) {
    reply.Fail? && reply.failure != RetryAfter
  }

  /** The calls with these answers, a wait between any two of them; the first is attempt k. */
  function Trail(path: Path, replies: seq<Reply>, initial: int, backoff: bool, k: nat): Log {
    if replies == [] then []
    else if |replies| == 1 then [Called(Do(path), replies[0])]
    else [Called(Do(path), replies[0]), Slept(Wait(initial, backoff, k))]
         + Trail(path, replies[1..], initial, backoff, k + 1)
  }

  /**
   * What attempts with these answers leave behind. All but the last failed plainly. The last one
   * succeeded, asked for a continuation or was the last allowed; or its wait was cancelled.
   */
  ghost predicate Attempts(env: Env, m: Machine, path: Path, left: nat, initial: int, backoff: bool, k: nat,
                           a: Answer, replies: seq<Reply>, cut: bool)
  {
    && 1 <= |replies| <= left
    && (forall i :: 0 <= i < |replies| - 1 ==> TriesAgain(replies[i]))
    && var last := replies[|replies| - 1];
    if cut then
      && a.m.log == m.log + (Trail(path, replies, initial, backoff, k) + [Slept(Wait(initial, backoff, k + |replies| - 1))])
      && |replies| < left && TriesAgain(last) && env.cancelled(a.m.log) && a.reply == Fail(Ordinary)
    else
      && a.m.log == m.log + Trail(path, replies, initial, backoff, k)
      && a.reply == last && (TriesAgain(last) ==> |replies| == left)
  }

  lemma {:induction false} AttemptsFrom(env: Env, m: Machine, path: Path, left: nat, initial: int, backoff: bool, k: nat)
    returns (replies: seq<Reply>, cut: bool)
    requires left >= 1 && Duration(initial)
    ensures Attempts(env, m, path, left, initial, backoff, k,
                     Attempt(env, m, path, left, Wait(initial, backoff, k), backoff), replies, cut)
    decreases left
  {
    hide Wait;
    var delay := Wait(initial, backoff, k);
    var b := Invoke(env, m, Do(path));
    replies, cut := [b.reply], false;
    if !(b.reply.Ok? || b.reply.failure == RetryAfter || left == 1) {
      var slept := b.m.(log := b.m.log + [Slept(delay)]);
      if env.cancelled(slept.log) {
        cut := true;
        assert slept.log == m.log + (Trail(path, replies, initial, backoff, k) + [Slept(delay)]);
      } else {
        NextWait(initial, backoff, k);
        var rest;
        rest, cut := AttemptsFrom(env, slept, path, left - 1, initial, backoff, k + 1);
        replies := [b.reply] + rest;
        assert replies[1..] == rest;
        var trail := Trail(path, rest, initial, backoff, k + 1);
        var first := [Called(Do(path), b.reply), Slept(delay)];
        assert slept.log == m.log + first;
        assert slept.log + trail == m.log + (first + trail);
        var last := [Slept(Wait(initial, backoff, k + |replies| - 1))];
        assert slept.log + (trail + last) == m.log + ((first + trail) + last);
      }
    }
  }

  /** How an action is carried out: the answers of its attempts, what is left in the log, what it comes to. */
  ghost predicate Attempted(env: Env, m: Machine, path: Path, most: int, first: int, doubling: bool, r: Result,
                            replies: seq<Reply>, cut: bool)
  {
    && 1 <= |replies| <= most
    && (forall i :: 0 <= i < |replies| - 1 ==> TriesAgain(replies[i]))
    && var last, tried := replies[|replies| - 1], m.log + Trail(path, replies, first, doubling, 0);
    if cut then
      && |replies| < most && TriesAgain(last)
      && r.m.log == m.log + (Trail(path, replies, first, doubling, 0) + [Slept(Wait(first, doubling, |replies| - 1))])
      && env.cancelled(r.m.log) && r.err.StepFailed?
    else Outcome(tried, last, path, r) && (TriesAgain(last) ==> |replies| == most)
  }

  /** After the last attempt, and its log so far: only a success or a deferral is followed by a snapshot. */
  predicate Outcome(tried: Log, last: Reply, path: Path, r: Result) {
    if TriesAgain(last) then r.m.log == tried && r.err.StepFailed?
    else
      && |r.m.log| == |tried| + 1 && r.m.log[..|tried|] == tried
      && var e := r.m.log[|tried|];
      && (e.Saved? || e.Refused?) && (last.Ok? ==> IsCompleted(e.state, path))
      && r.err == if e.Refused? then SnapshotFailed else if last.Ok? then NoError else Continue
  }

  lemma AnswerOutcome(env: Env, compensated: bool, path: Path, a: Answer)
    ensures Outcome(a.m.log, a.reply, path,
                    if a.reply.Fail? then CallbackFailed(env, a.m, path, a.reply.failure, false)
                    else SnapshotData(env, a.m.(s := Complete(a.m.s, path, compensated))))
    ensures a.reply == Fail(Ordinary) ==>
              CallbackFailed(env, a.m, path, Ordinary, false).m.log == a.m.log
              && CallbackFailed(env, a.m, path, Ordinary, false).err.StepFailed?
  {
    var s := Complete(a.m.s, path, compensated);
    assert s.completedSteps[|a.m.s.completedSteps|].path == path;
  }

  /**
   * An action is attempted at most MaxAttempts times if that is positive and once otherwise, and never
   * again after a success or a deferral. The first wait is InitialDelay if that is positive and one
   * second otherwise; under Backoff wait k, counted from 0, is 2^k times that but at most the longest
   * representable duration, and otherwise all waits are the same.
   */
  lemma ActionAttempts(env: Env, compensated: bool, retry: Option<Retry>, path: Path, m: Machine)
    returns (replies: seq<Reply>, cut: bool)
    requires retry.Some? ==> retry.value.initialDelay <= 0x7FFF_FFFF_FFFF_FFFF
    ensures var most := if retry.Some? && retry.value.maxAttempts > 0 then retry.value.maxAttempts else 1;
      var first := if retry.Some? && retry.value.initialDelay > 0 then retry.value.initialDelay else 1_000_000_000;
      var doubling := retry.Some? && retry.value.backoff;
      Attempted(env, m, path, most, first, doubling, ExecAction(env, compensated, retry, path, m), replies, cut)
  {
    hide Wait, Outcome, CallbackFailed, SnapshotData, Complete, Attempt, Trail;
    var most, first, doubling := MaxAttempts(retry), InitialDelay(retry), Backoff(retry);
    WaitFirst(first, doubling);
    replies, cut := AttemptsFrom(env, m, path, most, first, doubling, 0);
    AnswerOutcome(env, compensated, path, Attempt(env, m, path, most, first, doubling));
  }

  lemma WaitFirst(first: int, doubling: bool)
    requires Duration(first)
    ensures Wait(first, doubling, 0) == first
  {
  }

  // ---------- over histories ----------

  /** The waits that histories contain are these. */
  lemma {:induction false} PauseIsWait(retry: Option<Retry>, k: nat)
    requires retry.Some? ==> retry.value.initialDelay <= 0x7FFF_FFFF_FFFF_FFFF
    ensures Pause(retry, k + 1) == Wait(Pause(retry, 1), retry.Some? && retry.value.backoff, k)
  {
    var first, doubling := Pause(retry, 1), retry.Some? && retry.value.backoff;
    if k > 0 {
      PauseIsWait(retry, k - 1);
      NextWait(first, doubling, k - 1);
    } else {
      WaitFirst(first, doubling);
    }
  }

  /** In no history is an action tried more often in a row than its configuration says. */
  lemma TriesBounded(env: Env, top: seq<Step>, log: Log, k: nat)
    requires History(env, top, log) && k < |log| && log[k].Called? && log[k].call.Do?
    ensures Tries(log[..k + 1], log[k].call.path) <= Tolerance(RetryOf(top, log[k].call.path))
  {
    hide History, DataNow, NextCall, Timely, RetryOf, Yielded, Tries;
    var path, before := log[k].call.path, log[..k];
    var from := EventPlays(env, top, log, k);
    assert log[..k + 1] == before + [log[k]];
    TriesNext(before, log[k], path);
    if before[k - 1].Slept? {
      var from' := EventPlays(env, top, log, k - 1);
      assert before == log[..k - 1] + [log[k - 1]] && before[k - 1] == log[k - 1];
      assert before[k - 2] == log[..k - 1][k - 2];
      TriesNext(log[..k - 1], log[k - 1], path);
    } else {
      assert before == before[..k - 1] + [before[k - 1]];
      TriesNext(before[..k - 1], before[k - 1], path);
    }
  }

  lemma TriesNext(log: Log, e: Event, path: Path)
    ensures Tries(log + [e], path) ==
      if e.Slept? then Tries(log, path) else if e.Called? && e.call == Do(path) then Tries(log, path) + 1 else 0
  {
    assert (log + [e])[..|log|] == log;
  }

  /**
   * And none is given up early: after a failure that is not the last one allowed, a run that is not
   * cancelled waits for the configured time and then calls Do again.
   */
  lemma TriedAgain(env: Env, top: seq<Step>, log: Log, k: nat)
    requires History(env, top, log) && Loadable(Durable(log))
    requires var run := Run(env, top, Durable(log), log).m.log;
      && FailedCall(log, run, k) && run[k - 1].call.Do? && TriesAgain(run[k - 1].reply)
      && Tries(run[..k], run[k - 1].call.path) < Tolerance(RetryOf(top, run[k - 1].call.path))
      && forall n :: k <= n <= |run| ==> !env.cancelled(run[..n])
    ensures var run := Run(env, top, Durable(log), log).m.log; var path := run[k - 1].call.path;
      && k + 1 < |run| && run[k] == Slept(Pause(RetryOf(top, path), Tries(run[..k], path)))
      && run[k + 1].Called? && run[k + 1].call == Do(path)
  {
    hide Run, History, DataNow, NextCall, Timely, RetryOf, Yielded, Tries, Pause, Concludes, AfterFailure, AfterSuccess;
    var c, r := Course(env, top, |log|), Run(env, top, Durable(log), log);
    var run := r.m.log;
    EndOfRun(env, top, log);
    assert run[..|run|] == run && run[..k][k - 1] == run[k - 1];
    if k == |run| {
      CancelledEnd(c, r);
      assert false;
    }
    EventOfRun(env, top, log, k);
    assert run[k].Slept?;
    assert run[..k + 1][k] == run[k] && run[..k + 1][k - 1] == run[k - 1];
    if k + 1 == |run| {
      SleptEnd(c, r);
      assert false;
    }
    EventOfRun(env, top, log, k + 1);
  }

  lemma SleptEnd(c: Course, r: Result)
    requires Concludes(c, r) && r.m.log != [] && r.m.log[|r.m.log| - 1].Slept?
    ensures c.env.cancelled(r.m.log)
  {
  }
}
