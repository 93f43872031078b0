/**
 * What the executor does, as functions from one machine configuration to the next. Module Engine
 * has the program's own step-by-step form, proved to compute exactly these functions.
 */
module Executor {
  import opened Options
  import opened Decimal
  import opened Definition
  import opened State

  datatype Error =
    | NoError
    | InvalidDefinition
    | SnapshotFailed
    | Continue                                  // delayed continuation, already persisted
    | Cancelled
    | StepFailed(path: Path, cause: Cause)
    | CompensationFailed
    | RepeatTimedOut
    | Unusable                                  // saved branch path missing from the definition

  datatype Cause = Plain | Uncompensated | TimedOut(timeout: RepeatTimeout)

  /** The run state, the in-memory data store and the log so far. */
  datatype Machine = Machine(s: RunState, data: Data, log: Log)

  datatype Result = Result(m: Machine, err: Error)

  // ---------- persistence ----------

  /** Hands a copy with the next revision to the store; the revision is kept only on success. */
  function Snapshot(env: Env, m: Machine): Result {
    var candidate := m.s.(revision := m.s.revision + 1);
    if env.save(m.log, candidate) then
      Result(Machine(candidate, m.data, m.log + [Saved(candidate)]), NoError)
    else
      Result(m.(log := m.log + [Refused(candidate)]), SnapshotFailed)
  }

  function SnapshotData(env: Env, m: Machine): Result {
    Snapshot(env, m.(s := m.s.(data := m.data)))
  }

  function PersistDeferred(env: Env, m: Machine, polling: bool): Result {
    var s := if polling then m.s.(status := Polling) else m.s;
    var r := SnapshotData(env, m.(s := s));
    if r.err == NoError then r.(err := Continue) else r
  }

  // ---------- callbacks ----------

  datatype Answer = Answer(m: Machine, reply: Reply)

  function Invoke(env: Env, m: Machine, call: Call): Answer {
    var o := env.call(m.log, call, m.data);
    Answer(m.(data := o.data, log := m.log + [Called(call, o.reply)]), o.reply)
  }

  function CauseOf(failure: Failure): Cause {
    if failure == NoCompensate then Uncompensated else Plain
  }

  /** A failed callback: persist and yield if it asked for a continuation, else fail the step. */
  function CallbackFailed(env: Env, m: Machine, path: Path, failure: Failure, polling: bool): Result {
    if failure == RetryAfter then PersistDeferred(env, m, polling)
    else Result(m, StepFailed(path, CauseOf(failure)))
  }

  // ---------- retry ----------

  const SECOND := 1_000_000_000
  const MAX_DURATION := 0x7FFF_FFFF_FFFF_FFFF

  function MaxAttempts(retry: Option<Retry>): (n: nat)
    ensures n >= 1
  {
    if retry.Some? && retry.value.maxAttempts > 0 then retry.value.maxAttempts else 1
  }

  function InitialDelay(retry: Option<Retry>): int {
    if retry.Some? && retry.value.initialDelay > 0 then retry.value.initialDelay else SECOND
  }

  function Backoff(retry: Option<Retry>): bool {
    retry.Some? && retry.value.backoff
  }

  function NextDelay(backoff: bool, delay: int): int {
    if !backoff then delay
    else if delay > MAX_DURATION / 2 then MAX_DURATION
    else if delay * 2 < 0 then 0 else delay * 2
  }

  /** Calls Do until it succeeds, asks for a continuation, is cancelled or runs out of attempts. */
  function Attempt(env: Env, m: Machine, path: Path, left: nat, delay: int, backoff: bool): Answer
    requires left >= 1
    decreases left
  {
    var a := Invoke(env, m, Do(path));
    if a.reply.Ok? || a.reply.failure == RetryAfter || left == 1 then a
    else
      var slept := a.m.(log := a.m.log + [Slept(delay)]);
      if env.cancelled(slept.log) then Answer(slept, Fail(Ordinary))
      else Attempt(env, slept, path, left - 1, NextDelay(backoff, delay), backoff)
  }

  // ---------- leaf steps ----------

  function Complete(s: RunState, path: Path, hasCompensator: bool): RunState {
    s.(completedSteps := s.completedSteps + [CompletedStep(path, hasCompensator)])
  }

  function ExecAction(env: Env, compensated: bool, retry: Option<Retry>, path: Path, m: Machine): Result {
    var a := Attempt(env, m, path, MaxAttempts(retry), InitialDelay(retry), Backoff(retry));
    if a.reply.Fail? then CallbackFailed(env, a.m, path, a.reply.failure, false)
    else SnapshotData(env, a.m.(s := Complete(a.m.s, path, compensated)))
  }

  function ExecPoll(env: Env, maxDuration: int, path: Path, m: Machine): Result {
    var now := env.now(m.log);
    var started := if m.s.pollStartedAt.None? then now else m.s.pollStartedAt.value;
    if maxDuration > 0 && now - started >= maxDuration then
      Result(m.(s := m.s.(pollStartedAt := None)), StepFailed(path, Plain))
    else
      var a := Invoke(env, m.(s := m.s.(pollStartedAt := Some(started))), Check(path));
      if a.reply.Fail? then
        var s := if a.reply.failure == RetryAfter || env.cancelled(a.m.log) then a.m.s
                 else a.m.s.(pollStartedAt := None);
        CallbackFailed(env, a.m.(s := s), path, a.reply.failure, true)
      else if !a.reply.done then PersistDeferred(env, a.m, true)
      else
        var s := a.m.s.(pollStartedAt := None, status := Running);
        SnapshotData(env, a.m.(s := Complete(s, path, false)))
  }

  // ---------- branch ----------

  /** Outcome of a fresh decision: either the scope to enter, or a finished result. */
  datatype Decision = Entered(m: Machine, index: nat) | Settled(r: Result)

  function DecideBranch(env: Env, paths: seq<BranchPath>, path: Path, m: Machine): (d: Decision)
    ensures d.Entered? ==> d.index < |paths|
  {
    var a := Invoke(env, m, Decide(path));
    if a.reply.Fail? then Settled(CallbackFailed(env, a.m, path, a.reply.failure, false))
    else match FindKey(paths, a.reply.key)
      case None => Settled(Result(a.m, StepFailed(path, Plain)))
      case Some(k) =>
        var s := Complete(a.m.s, path, false);
        if paths[k].steps == [] then
          Settled(SnapshotData(env, a.m.(s := s.(currentPath := path))))
        else
          var r := SnapshotData(env, a.m.(s := s.(currentPath := path + [paths[k].key])));
          if r.err == NoError then Entered(r.m, k) else Settled(r)
  }

  // ---------- repeat ----------

  function EnsureStarted(env: Env, maxDuration: int, path: Path, m: Machine): Result {
    if maxDuration <= 0 || RepeatAt(m.s, path).startedAt.Some? then Result(m, NoError)
    else
      var rs := RepeatAt(m.s, path).(startedAt := Some(env.now(m.log)));
      Snapshot(env, m.(s := m.s.(repeatStates := m.s.repeatStates[path := rs])))
  }

  predicate TimedOutAt(maxDuration: int, rs: RepeatState, now: int) {
    maxDuration > 0 && rs.startedAt.Some? && now - rs.startedAt.value >= maxDuration
  }

  function RepeatTimeoutFailure(m: Machine, step: Step, path: Path): Result
    requires step.kind.Repeat?
  {
    Result(m, StepFailed(path, TimedOut(RepeatTimeout(step.name, step.kind.maxDuration))))
  }

  /** The iteration to run: the saved path component wins over the recorded state. */
  function CurrentIteration(s: RunState, path: Path): Option<nat> {
    if |s.currentPath| > |path| then
      match Atoi(s.currentPath[|path|])
      case None => None
      case Some(n) => if n < 0 then None else Some(n)
    else Some(RepeatAt(s, path).iteration)
  }

  /** Where a resumed scope below path restarts; the scope's own component sits at |path|. */
  function ChildIndex(steps: seq<Step>, s: RunState, path: Path): nat {
    if |s.currentPath| > |path| + 1 then StartIndex(steps, s.currentPath[|path| + 1]) else 0
  }

  predicate IsPrefix(prefix: Path, path: Path) {
    prefix <= path
  }

  /** Drops the journal and the nested repeat positions of one finished iteration. */
  function CompactState(s: RunState, path: Path, iteration: nat): RunState {
    var prefix := path + [Itoa(iteration)];
    s.(completedSteps := Outside(s.completedSteps, prefix),
       repeatStates := map p | p in s.repeatStates && !IsPrefix(prefix, p) :: s.repeatStates[p])
  }

  function Outside(cs: seq<CompletedStep>, prefix: Path): seq<CompletedStep> {
    if cs == [] then []
    else
      var rest := Outside(cs[..|cs| - 1], prefix);
      if IsPrefix(prefix, cs[|cs| - 1].path) then rest else rest + [cs[|cs| - 1]]
  }

  /** What remains of a state after iteration n: compact repeats drop its history. */
  function Retained(step: Step, s: RunState, path: Path, n: nat): RunState
    requires step.kind.Repeat?
  {
    if step.kind.compact then CompactState(s, path, n) else s
  }

  function DoneState(step: Step, path: Path, s: RunState, rs: RepeatState): RunState
    requires step.kind.Repeat?
  {
    var kept := Retained(step, s, path, rs.iteration);
    var done := rs.(awaitingCondition := false, completed := true, startedAt := None);
    Complete(kept.(repeatStates := kept.repeatStates[path := done], currentPath := path), path, false)
  }

  function NextState(step: Step, path: Path, s: RunState, rs: RepeatState): RunState
    requires step.kind.Repeat?
  {
    var kept := Retained(step, s, path, rs.iteration);
    var next := rs.(iteration := rs.iteration + 1, awaitingCondition := false);
    kept.(repeatStates := kept.repeatStates[path := next], currentPath := path + [Itoa(rs.iteration + 1)])
  }

  predicate LastIteration(step: Step, rs: RepeatState)
    requires step.kind.Repeat?
  {
    step.kind.maxIterations > 0 && rs.iteration + 1 >= step.kind.maxIterations
  }

  /** Everything after the children of an iteration: the time limit, Until, and its three results. */
  function FinishIteration(env: Env, step: Step, path: Path, m: Machine, rs: RepeatState): Result
    requires step.kind.Repeat?
  {
    if TimedOutAt(step.kind.maxDuration, rs, env.now(m.log)) then RepeatTimeoutFailure(m, step, path)
    else
      var a := Invoke(env, m, Until(path, rs.iteration));
      if a.reply.Fail? then CallbackFailed(env, a.m, path, a.reply.failure, false)
      else if a.reply.done then SnapshotData(env, a.m.(s := DoneState(step, path, a.m.s, rs)))
      else if LastIteration(step, rs) then
        Result(a.m.(s := Retained(step, a.m.s, path, rs.iteration)), StepFailed(path, Plain))
      else PersistDeferred(env, a.m.(s := NextState(step, path, a.m.s, rs)), false)
  }

  // ---------- compensation ----------

  function StartCompensation(s: RunState, path: Path, cause: Cause): RunState {
    s.(status := Compensating,
       failedStepPath := path,
       compensationIndex := |s.completedSteps| - 1,
       repeatTimeout := if cause.TimedOut? then Some(cause.timeout) else s.repeatTimeout)
  }

  /** A compensator failed: it stays pending, and the run stops here. */
  function StopCompensation(env: Env, m: Machine, failure: Failure): Result {
    if env.cancelled(m.log) then Result(m, Cancelled)
    else if failure == RetryAfter then PersistDeferred(env, m, false)
    else
      var r := SnapshotData(env, m);
      if r.err == NoError then r.(err := CompensationFailed) else r
  }

  function CompensateFrom(env: Env, top: seq<Step>, m: Machine, i: int): Result
    requires i < |m.s.completedSteps|
    decreases i + 1
  {
    if i < 0 then
      SnapshotData(env, m.(s := m.s.(status := Failed, compensationIndex := -1)))
    else
      var cs := m.s.completedSteps[i];
      var skipped := m.(s := m.s.(compensationIndex := i - 1));
      if !cs.hasCompensator then CompensateFrom(env, top, skipped, i - 1)
      else if env.cancelled(m.log) then Result(m, Cancelled)
      else
        var step := FindStep(top, cs.path);
        if step.None? || !step.value.kind.Action? || !step.value.kind.compensated then
          CompensateFrom(env, top, skipped, i - 1)
        else
          var a := Invoke(env, m, Compensate(cs.path));
          if a.reply.Fail? then
            StopCompensation(env, a.m.(s := a.m.s.(compensationIndex := i)), a.reply.failure)
          else
            var r := SnapshotData(env, a.m.(s := a.m.s.(compensationIndex := i - 1)));
            if r.err == NoError then CompensateFrom(env, top, r.m, i - 1) else r
  }

  /** What a scope does with an error of one of its steps. */
  function HandleError(env: Env, top: seq<Step>, m: Machine, err: Error, path: Path): Result
    requires err != NoError
  {
    if err == SnapshotFailed || err == Continue then Result(m, err)
    else if env.cancelled(m.log) then
      Result(m.(s := m.s.(data := m.data, currentPath := path)), Cancelled)
    else if m.s.status != Running then Result(m, err)
    else if err.StepFailed? && |err.path| > |path| then Result(m, err)
    else if err.StepFailed? && err.cause.Uncompensated? then
      var r := SnapshotData(env, m.(s := m.s.(failedStepPath := path)));
      if r.err == NoError then r.(err := err) else r
    else
      EnterCompensation(env, top, m, path, if err.StepFailed? then err.cause else Plain, err)
  }

  function EnterCompensation(env: Env, top: seq<Step>, m: Machine, path: Path, cause: Cause, err: Error): Result {
    var r := SnapshotData(env, m.(s := StartCompensation(m.s, path, cause)));
    if r.err != NoError then r
    else
      var c := CompensateFrom(env, top, r.m, r.m.s.compensationIndex);
      if c.err == NoError && cause.TimedOut? then c.(err := err) else c
  }

  // ---------- scopes ----------

  /** Runs steps[i..]; at the first step of a scope, resume is the path to pick up from. */
  function ExecSteps(env: Env, top: seq<Step>, steps: seq<Step>, i: nat, parent: Path, m: Machine,
                     resume: Path, first: bool): Result
    decreases steps, 1, |steps| - i
  {
    if i >= |steps| then Result(m, NoError)
    else
      var path := parent + [steps[i].name];
      if first && path == resume && IsCompleted(m.s, path) then
        ExecSteps(env, top, steps, i + 1, parent, m, resume, false)
      else if env.cancelled(m.log) then
        Result(m.(s := m.s.(data := m.data, currentPath := path)), Cancelled)
      else
        var r := ExecStep(env, top, steps[i], path, Enter(m, path, resume, first));
        if r.err != NoError then HandleError(env, top, r.m, r.err, path)
        else if r.m.s.status != Running then r
        else ExecSteps(env, top, steps, i + 1, parent, r.m, resume, false)
  }

  /** One turn of the loop over the steps of a scope. */
  lemma ScopeTurn(env: Env, top: seq<Step>, steps: seq<Step>, i: nat, parent: Path, m: Machine, resume: Path, first: bool)
    ensures var whole := ExecSteps(env, top, steps, i, parent, m, resume, first);
      if i >= |steps| then whole == Result(m, NoError)
      else
        var path := parent + [steps[i].name];
        if first && path == resume && IsCompleted(m.s, path) then
          whole == ExecSteps(env, top, steps, i + 1, parent, m, resume, false)
        else if env.cancelled(m.log) then
          whole == Result(m.(s := m.s.(data := m.data, currentPath := path)), Cancelled)
        else
          var r := ExecStep(env, top, steps[i], path, Enter(m, path, resume, first));
          if r.err != NoError then whole == HandleError(env, top, r.m, r.err, path)
          else if r.m.s.status != Running then whole == r
          else whole == ExecSteps(env, top, steps, i + 1, parent, r.m, resume, false)
  {
  }

  /** A step keeps a deeper resume path only when it is the first one of its scope. */
  function Enter(m: Machine, path: Path, resume: Path, first: bool): Machine {
    m.(s := m.s.(currentPath := if first && path < resume then resume else path))
  }

  function ExecScope(env: Env, top: seq<Step>, steps: seq<Step>, i: nat, parent: Path, m: Machine): Result
    decreases steps, 2, 0
  {
    ExecSteps(env, top, steps, i, parent, m, m.s.currentPath, true)
  }

  function ExecStep(env: Env, top: seq<Step>, step: Step, path: Path, m: Machine): Result
    decreases step, 1
  {
    match step.kind
    case Action(compensated, retry) => ExecAction(env, compensated, retry, path, m)
    case Poll(maxDuration) => ExecPoll(env, maxDuration, path, m)
    case Branch(paths) =>
      if |m.s.currentPath| > |path| then
        match FindKey(paths, m.s.currentPath[|path|])
        case None => Result(m, Unusable)
        case Some(k) =>
          ExecScope(env, top, paths[k].steps, ChildIndex(paths[k].steps, m.s, path),
                    path + [paths[k].key], m)
      else
        var d := DecideBranch(env, paths, path, m);
        if d.Settled? then d.r
        else ExecScope(env, top, paths[d.index].steps, 0, path + [paths[d.index].key], d.m)
    case Repeat(steps, _, maxDuration, _) =>
      var r := EnsureStarted(env, maxDuration, path, m);
      if r.err != NoError then r
      else if TimedOutAt(maxDuration, RepeatAt(r.m.s, path), env.now(r.m.log)) then
        RepeatTimeoutFailure(r.m, step, path)
      else match CurrentIteration(r.m.s, path)
        case None => Result(r.m, StepFailed(path, Plain))
        case Some(n) =>
          var rs := RepeatAt(r.m.s, path).(iteration := n, completed := false);
          if rs.awaitingCondition then
            FinishIteration(env, step, path, WithRepeat(r.m, path, rs), rs)
          else RunIteration(env, top, step, path, r.m, rs)
  }

  /** The children of one iteration, and then its end. */
  function RunIteration(env: Env, top: seq<Step>, step: Step, path: Path, m: Machine, rs: RepeatState): Result
    requires step.kind.Repeat?
    decreases step, 0
  {
    var steps := step.kind.steps;
    var c := ExecScope(env, top, steps, ChildIndex(steps, m.s, path), path + [Itoa(rs.iteration)],
                       WithRepeat(m, path, rs));
    if c.err != NoError || c.m.s.status != Running then c
    else
      var due := rs.(awaitingCondition := true);
      FinishIteration(env, step, path, WithRepeat(c.m, path, due), due)
  }

  function WithRepeat(m: Machine, path: Path, rs: RepeatState): Machine {
    m.(s := m.s.(repeatStates := m.s.repeatStates[path := rs]))
  }

  // ---------- run ----------

  /** A compensating state must point inside its journal; the program would panic otherwise. */
  predicate Loadable(s: RunState) {
    s.status == Compensating ==> s.compensationIndex < |s.completedSteps|
  }

  function Run(env: Env, top: seq<Step>, s: RunState, log: Log): Result
    requires Loadable(s)
  {
    var m := Machine(s, s.data, log);
    if !Valid(top) then Result(m, InvalidDefinition)
    else if s.IsTerminal() then Result(m, NoError)
    else if env.cancelled(log) then Result(m, Cancelled)
    else if s.status == Compensating then ResumeCompensation(env, top, m)
    else
      var r := SnapshotData(env, m.(s := s.(status := Running)));
      if r.err != NoError then r
      else
        var start := if s.currentPath == [] then 0 else StartIndex(top, s.currentPath[0]);
        var e := ExecScope(env, top, top, start, [], r.m);
        if e.err != NoError || e.m.s.status != Running then e
        else SnapshotData(env, e.m.(s := e.m.s.(status := Completed)))
  }

  function ResumeCompensation(env: Env, top: seq<Step>, m: Machine): Result
    requires m.s.compensationIndex < |m.s.completedSteps|
  {
    var r := SnapshotData(env, m);
    if r.err != NoError then r
    else
      var c := CompensateFrom(env, top, r.m, r.m.s.compensationIndex);
      if c.err == NoError && c.m.s.repeatTimeout.Some? then c.(err := RepeatTimedOut) else c
  }
}
