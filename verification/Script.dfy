/**
 * What a run may do next, said of the log alone and event by event: which answer leads to which
 * snapshot, when an action is tried again and after which wait, when a limit has run out, what starts
 * a rollback and with which journal, and with which error it all ends. Nothing here runs the executor;
 * clocks, cancellation and data are read where the log says they were.
 */
module Script {
  import opened Options
  import opened Decimal
  import opened Definition
  import opened State
  import opened Executor
  import opened Records
  import opened NextCalls
  import opened Effects
  import opened Courses
  import opened Journal

  // ---------- the definition, read by path ----------

  function LimitOf(top: seq<Step>, path: Path): int {
    var f := FindStep(top, path);
    if f.None? then 0
    else match f.value.kind case Poll(max) => max case Repeat(_, _, max, _) => max case _ => 0
  }

  function RetryOf(top: seq<Step>, path: Path): Option<Retry> {
    var f := FindStep(top, path);
    if f.Some? && f.value.kind.Action? then f.value.kind.retry else None
  }

  /** How often an action may be tried. */
  function Tolerance(retry: Option<Retry>): int {
    if retry.Some? && retry.value.maxAttempts > 0 then retry.value.maxAttempts else 1
  }

  /** The wait after attempt n, counted from 1, in nanoseconds. */
  function Pause(retry: Option<Retry>, n: nat): (p: int)
    ensures p > 0
  {
    if n <= 1 then if retry.Some? && retry.value.initialDelay > 0 then retry.value.initialDelay else 1_000_000_000
    else
      var last := Pause(retry, n - 1);
      if retry.None? || !retry.value.backoff then last
      else if 2 * last > 0x7FFF_FFFF_FFFF_FFFF then 0x7FFF_FFFF_FFFF_FFFF
      else 2 * last
  }

  predicate KnownKey(top: seq<Step>, path: Path, key: string) {
    var f := FindStep(top, path);
    f.Some? && f.value.kind.Branch? && exists k :: 0 <= k < |f.value.kind.paths| && f.value.kind.paths[k].key == key
  }

  // ---------- the log, read backwards ----------

  /** How often Do was called for this step since anything else happened. */
  function Tries(log: Log, path: Path): nat {
    if log == [] then 0
    else
      var e := log[|log| - 1];
      if e.Slept? then Tries(log[..|log| - 1], path)
      else if e.Called? && e.call == Do(path) then Tries(log[..|log| - 1], path) + 1
      else 0
  }

  /** The data store: what the run began with, as every callback since has left it. */
  ghost function DataNow(c: Course, log: Log): Data {
    if |log| <= c.from || log == [] then Durable(log).data
    else
      var before, e := log[..|log| - 1], log[|log| - 1];
      if e.Called? then c.env.call(before, e.call, DataNow(c, before)).data else DataNow(c, before)
  }

  /** This answer calls for another attempt. */
  predicate Retries(top: seq<Step>, log: Log) {
    && log != []
    && var e := log[|log| - 1];
    && e.Called? && e.call.Do? && e.reply.Fail? && e.reply.failure != RetryAfter
    && Tries(log, e.call.path) < Tolerance(RetryOf(top, e.call.path))
  }

  /** The run saved an answer on which it stops: a failure that starts no rollback, or not yet. */
  predicate Yielded(from: nat, log: Log) {
    && |log| >= from + 2 && log[|log| - 1].Saved? && log[|log| - 2].Called?
    && var call, reply := log[|log| - 2].call, log[|log| - 2].reply;
    if call.Compensate? then reply.Fail?
    else
      && log[|log| - 1].state.status != Compensating
      && (reply.Fail? || (!reply.done && (call.Check? || call.Until?)))
  }

  // ---------- limits ----------

  /** The poll has waited for its whole limit, at this reading of the clock. */
  ghost predicate PollExpired(env: Env, top: seq<Step>, log: Log, path: Path) {
    var started := Durable(log).pollStartedAt;
    && LimitOf(top, path) > 0 && NextCall(top, Durable(log)) == Some(Check(path))
    && started.Some? && env.now(log) - started.value >= LimitOf(top, path)
  }

  /** A repeat at or around what comes next has run for its whole limit, at this reading of the clock. */
  ghost predicate RepeatExpired(env: Env, top: seq<Step>, log: Log, path: Path) {
    var started, next := RepeatAt(Durable(log), path).startedAt, NextCall(top, Durable(log));
    && RepeatPath(top, path) && LimitOf(top, path) > 0 && next.Some? && path <= next.value.path
    && started.Some? && env.now(log) - started.value >= LimitOf(top, path)
  }

  /** Since it began, the run has read that this repeat has time left. */
  ghost predicate SeenInTime(c: Course, log: Log, path: Path) {
    var started := RepeatAt(Durable(log), path).startedAt;
    && started.Some?
    && exists j :: c.from < j <= |log| && c.env.now(log[..j]) - started.value < LimitOf(c.top, path)
  }

  /** Every limited repeat around path was seen to have time left. */
  ghost predicate Admitted(c: Course, log: Log, path: Path) {
    forall p :: p < path && RepeatPath(c.top, p) && LimitOf(c.top, p) > 0 ==> SeenInTime(c, log, p)
  }

  /** For a step with a limit of its own, that limit is read right before the call. */
  ghost predicate Timely(c: Course, log: Log, call: Call) {
    var d, limit := Durable(log), LimitOf(c.top, call.path);
    && Admitted(c, log, call.path)
    && (limit > 0 && call.Check? && d.pollStartedAt.Some? ==> c.env.now(log) - d.pollStartedAt.value < limit)
    && (limit > 0 && call.Until? ==>
          var started := RepeatAt(d, call.path).startedAt;
          started.Some? && c.env.now(log) - started.value < limit)
  }

  // ---------- states that may be offered to the store ----------

  /** Still the state of a run that has not failed. */
  predicate Unfailed(d: RunState, s: RunState) {
    s.failedStepPath == d.failedStepPath && s.repeatTimeout == d.repeatTimeout
  }

  /** The rollback for the failed step at path begins, with the whole of the journal cs to go. */
  ghost predicate RollsBack(c: Course, log: Log, s: RunState, path: Path, cs: seq<CompletedStep>,
                            timeout: Option<RepeatTimeout>)
  {
    && !c.env.cancelled(log)
    && s.status == Compensating && s.failedStepPath == path
    && s.completedSteps == cs && s.compensationIndex == |cs| - 1
    && s.repeatTimeout == if timeout.Some? then timeout else Durable(log).repeatTimeout
  }

  /** When the current poll was started, after the last event. */
  ghost function PollClock(c: Course, log: Log): Option<int> {
    var was := Durable(log).pollStartedAt;
    if log == [] || !log[|log| - 1].Called? || !log[|log| - 1].call.Check? then was
    else
      var reply := log[|log| - 1].reply;
      if (reply.Ok? && !reply.done) || (reply.Fail? && reply.failure == RetryAfter) then
        if was.Some? then was else Some(c.env.now(log[..|log| - 1]))
      else None
  }

  /** No work is done, and no clock of a repeat is started or stopped. */
  ghost predicate Stays(top: seq<Step>, d: RunState, s: RunState) {
    Agrees(top, d, s) && forall q :: RepeatAt(s, q).startedAt == RepeatAt(d, q).startedAt
  }

  /** The clock of a limited repeat at or around what comes next starts now, inside those that run. */
  ghost predicate StartsClock(c: Course, log: Log, s: RunState, path: Path) {
    var d := Durable(log);
    var next := NextCall(c.top, d);
    && !c.env.cancelled(log) && s.status == Running && Unfailed(d, s)
    && RepeatPath(c.top, path) && LimitOf(c.top, path) > 0 && next.Some? && path <= next.value.path
    && Admitted(c, log, path) && RepeatAt(d, path).startedAt.None?
    && RepeatAt(s, path) == RepeatAt(d, path).(startedAt := Some(c.env.now(log)))
    && (forall q :: q != path ==> RepeatAt(s, q) == RepeatAt(d, q))
    && Agrees(c.top, d, s)
  }

  /** The journal without the iteration, if the repeat forgets finished iterations. */
  function JournalAfter(top: seq<Step>, d: RunState, path: Path, n: nat): seq<CompletedStep> {
    if CompactAt(top, path) then Outside(d.completedSteps, path + [Itoa(n)]) else d.completedSteps
  }

  ghost predicate AfterFailure(c: Course, log: Log, call: Call, failure: Failure, s: RunState) {
    var d := Durable(log);
    match failure
    case RetryAfter => s.status == (if call.Check? then Polling else Running) && Unfailed(d, s) && Stays(c.top, d, s)
    case NoCompensate =>
      && !c.env.cancelled(log) && s.status == Running && s.failedStepPath == call.path
      && s.repeatTimeout == d.repeatTimeout && Stays(c.top, d, s)
    case Ordinary => RollsBack(c, log, s, call.path, d.completedSteps, None)
  }

  ghost predicate AfterSuccess(c: Course, log: Log, call: Call, done: bool, key: string, s: RunState) {
    var d := Durable(log);
    if call.Decide? && !KnownKey(c.top, call.path, key) then RollsBack(c, log, s, call.path, d.completedSteps, None)
    else if call.Until? && !done && AtLimit(c.top, call) then
      RollsBack(c, log, s, call.path, JournalAfter(c.top, d, call.path, call.iteration), None)
    else
      && Unfailed(d, s)
      && if call.Check? && !done then s.status == Polling && Stays(c.top, d, s)
         else s.status == Running && ByCall(c.top, log, s)
  }

  /** When nothing was called since the last snapshot. */
  ghost predicate AtRest(c: Course, log: Log, s: RunState) {
    var d := Durable(log);
    || (&& s.status == Completed && NextCall(c.top, d) == None && Stays(c.top, d, s) && Unfailed(d, s)
        && s.pollStartedAt == d.pollStartedAt)
    || (s.pollStartedAt == d.pollStartedAt && exists p :: StartsClock(c, log, s, p))
    || (s.pollStartedAt == None
        && exists p :: PollExpired(c.env, c.top, log, p) && RollsBack(c, log, s, p, d.completedSteps, None))
    || (s.pollStartedAt == d.pollStartedAt && exists p :: TimesOut(c, log, s, p))
  }

  ghost predicate TimesOut(c: Course, log: Log, s: RunState, path: Path) {
    && RepeatExpired(c.env, c.top, log, path) && FindStep(c.top, path).Some?
    && RollsBack(c, log, s, path, Durable(log).completedSteps,
                 Some(RepeatTimeout(FindStep(c.top, path).value.name, LimitOf(c.top, path))))
  }

  // ---------- rollback ----------

  /** Entry i is the next to be compensated from d; without one, i is -1. */
  predicate Upcoming(top: seq<Step>, d: RunState, i: int) {
    && -1 <= i <= d.compensationIndex < |d.completedSteps|
    && (i >= 0 ==> Undoes(top, d.completedSteps[i]))
    && forall j :: i < j <= d.compensationIndex ==> !Undoes(top, d.completedSteps[j])
  }

  predicate UpcomingAt(top: seq<Step>, d: RunState, i: int, path: Path) {
    Upcoming(top, d, i) && i >= 0 && d.completedSteps[i].path == path
  }

  ghost predicate AfterCompensate(c: Course, log: Log, path: Path, reply: Reply, s: RunState) {
    var d := Durable(log);
    && (reply.Fail? ==> !c.env.cancelled(log))
    && d.status == Compensating && s.status == Compensating && s.completedSteps == d.completedSteps && Unfailed(d, s)
    && exists i :: UpcomingAt(c.top, d, i, path) && s.compensationIndex == if reply.Ok? then i - 1 else i
  }

  // ---------- the rules ----------

  /** The state s may be offered to the store next. */
  ghost predicate May(c: Course, log: Log, s: RunState) {
    var d := Durable(log);
    && s.data == DataNow(c, log)
    && if |log| <= c.from || log == [] then
         && !d.IsTerminal() && !c.env.cancelled(log)
         && s == d.(status := if d.status == Compensating then Compensating else Running, revision := d.revision + 1)
       else
         match log[|log| - 1]
         case Refused(_) => false
         case Slept(_) => false
         case Called(call, reply) =>
           if call.Compensate? then AfterCompensate(c, log, call.path, reply, s)
           else
             && !Retries(c.top, log) && s.pollStartedAt == PollClock(c, log)
             && if reply.Fail? then AfterFailure(c, log, call, reply.failure, s)
                else AfterSuccess(c, log, call, reply.done, reply.key, s)
         case Saved(_) =>
           && !Yielded(c.from, log)
           && if d.status == Running then AtRest(c, log, s)
              else
                && d.status == Compensating && s.status == Failed && Upcoming(c.top, d, -1)
                && s.completedSteps == d.completedSteps && Unfailed(d, s)
  }

  /** This call may be made next. */
  ghost predicate Asks(c: Course, log: Log, call: Call) {
    && c.from < |log|
    && (!call.Until? ==> !c.env.cancelled(log))
    && (!call.Compensate? ==> Timely(c, log, call))
    && match log[|log| - 1]
       case Refused(_) => false
       case Called(_, _) => false
       case Slept(_) => call.Do? && |log| >= 2 && log[|log| - 2].Called? && log[|log| - 2].call == call
       case Saved(d) =>
         && !Yielded(c.from, log)
         && if call.Compensate? then d.status == Compensating && exists i :: UpcomingAt(c.top, d, i, call.path)
            else d.status == Running && NextCall(c.top, d) == Some(call)
  }

  /** The run waits for so long before it tries again. */
  predicate Pauses(c: Course, log: Log, delay: int) {
    && c.from < |log| && Retries(c.top, log)
    && var path := log[|log| - 1].call.path;
    delay == Pause(RetryOf(c.top, path), Tries(log, path))
  }

  /** The next event of a run after this log. */
  ghost predicate Lines(c: Course, log: Log, e: Event) {
    match e
    case Saved(s) => c.env.save(log, s) && May(c, log, s)
    case Refused(s) => !c.env.save(log, s) && May(c, log, s)
    case Called(call, reply) => reply == c.env.call(log, call, DataNow(c, log)).reply && Asks(c, log, call)
    case Slept(delay) => Pauses(c, log, delay)
  }

  ghost predicate Scripted(c: Course, log: Log) {
    c.from <= |log| && forall k :: c.from <= k < |log| ==> Lines(c, log[..k], log[k])
  }

  // ---------- how a run ends ----------

  /** The error a run ends with after this log, if it is not cancelled. */
  ghost function Verdict(c: Course, log: Log): Error {
    if |log| <= c.from || log == [] then Cancelled
    else match log[|log| - 1]
      case Refused(_) => SnapshotFailed
      case Called(_, _) => Cancelled
      case Slept(_) => Cancelled
      case Saved(s) =>
        if s.status == Completed then NoError
        else if s.status == Failed then
          if s.repeatTimeout.None? then NoError
          else if Durable(log[..c.from]).status == Compensating then RepeatTimedOut
          else StepFailed(s.failedStepPath, TimedOut(s.repeatTimeout.value))
        else if !Yielded(c.from, log) then Cancelled
        else
          var call, reply := log[|log| - 2].call, log[|log| - 2].reply;
          if reply.Ok? || reply.failure == RetryAfter then Continue
          else if call.Compensate? then CompensationFailed
          else StepFailed(call.path, Uncompensated)
  }

  /** A failure reported from inside a branch or a repeat can still be overtaken by a cancellation. */
  ghost predicate Concludes(c: Course, r: Result) {
    && (r.err == Cancelled ==> c.env.cancelled(r.m.log))
    && var v := Verdict(c, r.m.log);
    r.err == v || (r.err == Cancelled && (v.StepFailed? || v == CompensationFailed))
  }
}
