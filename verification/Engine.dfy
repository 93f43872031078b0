/**
 * The executor in the program's own form: a data store and an outside world that methods change
 * step by step, loops over steps, attempts and journal indices. Every method is proved to compute
 * exactly the function of module Executor that specifies it.
 */
module Engine {
  import opened Options
  import opened Decimal
  import opened Definition
  import opened State
  import E = Executor
  import opened Validation
  import opened Compaction

  /** Locates a step by its path: a loop over the names of one level, then one level down. */
  method FindStepByPath(steps: seq<Step>, path: Path) returns (found: Option<Step>)
    ensures found == FindStep(steps, path)
    decreases |path|
  {
    if |path| == 0 {
      return None;
    }
    for i := 0 to |steps|
      invariant forall j :: 0 <= j < i ==> steps[j].name != path[0]
    {
      if steps[i].name != path[0] {
        continue;
      }
      assert Find(steps, path[0]) == Some(i);
      if |path| == 1 {
        return Some(steps[i]);
      }
      if steps[i].kind.Branch? && |path| >= 3 {
        var chosen := FindKey(steps[i].kind.paths, path[1]);
        if chosen.None? {
          return None;
        }
        found := FindStepByPath(steps[i].kind.paths[chosen.value].steps, path[2..]);
        return;
      }
      if steps[i].kind.Repeat? && |path| >= 3 {
        if Atoi(path[1]).None? {
          return None;
        }
        found := FindStepByPath(steps[i].kind.steps, path[2..]);
        return;
      }
      return None;
    }
    return None;
  }

  /** One process: the world it acts on, everything it did so far, and the data of its run. */
  class Executor {
    const env: Env
    var log: Log
    var data: Data

    constructor (env: Env, log: Log)
      ensures this.env == env && this.log == log && data == map[]
    {
      this.env := env;
      this.log := log;
      data := map[];
    }

    function At(s: RunState): E.Machine
      reads this
    {
      E.Machine(s, data, log)
    }

    // ---------- persistence and callbacks ----------

    method Snapshot(state: RunState) returns (s: RunState, err: E.Error)
      modifies this
      ensures E.Result(At(s), err) == old(E.Snapshot(env, At(state)))
    {
      var candidate := state.(revision := state.revision + 1);
      if env.save(log, candidate) {
        log := log + [Saved(candidate)];
        return candidate, E.NoError;
      }
      log := log + [Refused(candidate)];
      return state, E.SnapshotFailed;
    }

    method SnapshotData(state: RunState) returns (s: RunState, err: E.Error)
      modifies this
      ensures E.Result(At(s), err) == old(E.SnapshotData(env, At(state)))
    {
      s, err := Snapshot(state.(data := data));
    }

    method PersistDeferred(state: RunState, polling: bool) returns (s: RunState, err: E.Error)
      modifies this
      ensures E.Result(At(s), err) == old(E.PersistDeferred(env, At(state), polling))
    {
      s := state;
      if polling {
        s := s.(status := Polling);
      }
      s, err := SnapshotData(s);
      if err == E.NoError {
        err := E.Continue;
      }
    }

    method Invoke(call: Call) returns (reply: Reply)
      modifies this
      ensures forall s :: E.Answer(At(s), reply) == old(E.Invoke(env, At(s), call))
    {
      var o := env.call(log, call, data);
      log := log + [Called(call, o.reply)];
      data := o.data;
      return o.reply;
    }

    method CallbackFailed(state: RunState, path: Path, failure: Failure, polling: bool)
      returns (s: RunState, err: E.Error)
      modifies this
      ensures E.Result(At(s), err) == old(E.CallbackFailed(env, At(state), path, failure, polling))
    {
      if failure == RetryAfter {
        s, err := PersistDeferred(state, polling);
      } else {
        s, err := state, E.StepFailed(path, E.CauseOf(failure));
      }
    }

    /** Attempts with delays between them, up to the configured number. */
    method RunWithRetry(retry: Option<Retry>, path: Path, ghost state: RunState) returns (reply: Reply)
      modifies this
      ensures E.Answer(At(state), reply)
           == old(E.Attempt(env, At(state), path, E.MaxAttempts(retry), E.InitialDelay(retry), E.Backoff(retry)))
    {
      var maxAttempts, delay, backoff := 1, E.SECOND, false;
      if retry.Some? {
        if retry.value.maxAttempts > 0 {
          maxAttempts := retry.value.maxAttempts;
        }
        if retry.value.initialDelay > 0 {
          delay := retry.value.initialDelay;
        }
        backoff := retry.value.backoff;
      }
      var attempt := 0;
      while attempt < maxAttempts
        invariant 0 <= attempt < maxAttempts
        invariant E.Attempt(env, At(state), path, maxAttempts - attempt, delay, backoff)
               == old(E.Attempt(env, At(state), path, E.MaxAttempts(retry), E.InitialDelay(retry), E.Backoff(retry)))
        decreases maxAttempts - attempt
      {
        reply := Invoke(Do(path));
        if reply.Ok? || reply.failure == RetryAfter {
          return;
        }
        if attempt + 1 == maxAttempts {
          return;
        }
        log := log + [Slept(delay)];
        if env.cancelled(log) {
          return Fail(Ordinary);
        }
        delay := E.NextDelay(backoff, delay);
        attempt := attempt + 1;
      }
    }

    // ---------- steps ----------

    method ExecuteAction(state: RunState, compensated: bool, retry: Option<Retry>, path: Path)
      returns (s: RunState, err: E.Error)
      modifies this
      ensures E.Result(At(s), err) == old(E.ExecAction(env, compensated, retry, path, At(state)))
    {
      var reply := RunWithRetry(retry, path, state);
      if reply.Fail? {
        s, err := CallbackFailed(state, path, reply.failure, false);
        return;
      }
      s := state.(completedSteps := state.completedSteps + [CompletedStep(path, compensated)]);
      s, err := SnapshotData(s);
    }

    method ExecutePoll(state: RunState, maxDuration: int, path: Path) returns (s: RunState, err: E.Error)
      modifies this
      ensures E.Result(At(s), err) == old(E.ExecPoll(env, maxDuration, path, At(state)))
    {
      s := state;
      var now := env.now(log);
      if s.pollStartedAt.None? {
        s := s.(pollStartedAt := Some(now));
      }
      if maxDuration > 0 && now - s.pollStartedAt.value >= maxDuration {
        s := s.(pollStartedAt := None);
        return s, E.StepFailed(path, E.Plain);
      }
      var reply := Invoke(Check(path));
      if reply.Fail? {
        if reply.failure != RetryAfter && !env.cancelled(log) {
          s := s.(pollStartedAt := None);
        }
        s, err := CallbackFailed(s, path, reply.failure, true);
        return;
      }
      if !reply.done {
        s, err := PersistDeferred(s, true);
        return;
      }
      s := s.(pollStartedAt := None, status := Running);
      s := s.(completedSteps := s.completedSteps + [CompletedStep(path, false)]);
      s, err := SnapshotData(s);
    }

    /** Position of the step to resume at: the first one with this name, or the beginning. */
    method ResumeIndex(steps: seq<Step>, name: string) returns (i: nat)
      ensures i == StartIndex(steps, name)
    {
      i := 0;
      while i < |steps|
        invariant i <= |steps| && forall j :: 0 <= j < i ==> steps[j].name != name
      {
        if steps[i].name == name {
          return;
        }
        i := i + 1;
      }
      return 0;
    }

    method ExecuteBranch(top: seq<Step>, state: RunState, step: Step, path: Path) returns (s: RunState, err: E.Error)
      requires step.kind.Branch?
      modifies this
      ensures E.Result(At(s), err) == old(E.ExecStep(env, top, step, path, At(state)))
      decreases step, 0
    {
      var paths := step.kind.paths;
      if |state.currentPath| > |path| {
        var chosen := FindKey(paths, state.currentPath[|path|]);
        if chosen.None? {
          return state, E.Unusable;
        }
        var child := 0;
        if |state.currentPath| > |path| + 1 {
          child := ResumeIndex(paths[chosen.value].steps, state.currentPath[|path| + 1]);
        }
        s, err := ExecuteSteps(top, state, paths[chosen.value].steps, child, path + [paths[chosen.value].key]);
        return;
      }
      var reply := Invoke(Decide(path));
      if reply.Fail? {
        s, err := CallbackFailed(state, path, reply.failure, false);
        return;
      }
      var chosen := FindKey(paths, reply.key);
      if chosen.None? {
        return state, E.StepFailed(path, E.Plain);
      }
      s := state.(completedSteps := state.completedSteps + [CompletedStep(path, false)]);
      if paths[chosen.value].steps == [] {
        s, err := SnapshotData(s.(currentPath := path));
        return;
      }
      s, err := SnapshotData(s.(currentPath := path + [paths[chosen.value].key]));
      if err != E.NoError {
        return;
      }
      s, err := ExecuteSteps(top, s, paths[chosen.value].steps, 0, path + [paths[chosen.value].key]);
    }

    method EnsureRepeatStarted(state: RunState, maxDuration: int, path: Path) returns (s: RunState, err: E.Error)
      modifies this
      ensures E.Result(At(s), err) == old(E.EnsureStarted(env, maxDuration, path, At(state)))
    {
      var rs := RepeatAt(state, path);
      if maxDuration <= 0 || rs.startedAt.Some? {
        return state, E.NoError;
      }
      rs := rs.(startedAt := Some(env.now(log)));
      s, err := Snapshot(state.(repeatStates := state.repeatStates[path := rs]));
    }

    /** The end of an iteration: time limit, Until, compaction, and its three results. */
    method FinishIteration(state: RunState, step: Step, path: Path, repeatState: RepeatState)
      returns (s: RunState, err: E.Error)
      requires step.kind.Repeat?
      modifies this
      ensures E.Result(At(s), err) == old(E.FinishIteration(env, step, path, At(state), repeatState))
    {
      s := state;
      if E.TimedOutAt(step.kind.maxDuration, repeatState, env.now(log)) {
        return s, E.StepFailed(path, E.TimedOut(RepeatTimeout(step.name, step.kind.maxDuration)));
      }
      var reply := Invoke(Until(path, repeatState.iteration));
      if reply.Fail? {
        s, err := CallbackFailed(s, path, reply.failure, false);
        return;
      }
      if step.kind.compact {
        s := CompactRepeatIteration(s, path, repeatState.iteration);
      }
      if reply.done {
        var done := repeatState.(awaitingCondition := false, completed := true, startedAt := None);
        s := s.(repeatStates := s.repeatStates[path := done], currentPath := path);
        s := s.(completedSteps := s.completedSteps + [CompletedStep(path, false)]);
        s, err := SnapshotData(s);
        return;
      }
      if step.kind.maxIterations > 0 && repeatState.iteration + 1 >= step.kind.maxIterations {
        return s, E.StepFailed(path, E.Plain);
      }
      var next := repeatState.(iteration := repeatState.iteration + 1, awaitingCondition := false);
      s := s.(repeatStates := s.repeatStates[path := next], currentPath := path + [Itoa(next.iteration)]);
      s, err := PersistDeferred(s, false);
    }

    method ExecuteRepeat(top: seq<Step>, state: RunState, step: Step, path: Path) returns (s: RunState, err: E.Error)
      requires step.kind.Repeat?
      modifies this
      ensures E.Result(At(s), err) == old(E.ExecStep(env, top, step, path, At(state)))
      decreases step, 0
    {
      s, err := EnsureRepeatStarted(state, step.kind.maxDuration, path);
      if err != E.NoError {
        return;
      }
      var repeatState := RepeatAt(s, path);
      if E.TimedOutAt(step.kind.maxDuration, repeatState, env.now(log)) {
        return s, E.StepFailed(path, E.TimedOut(RepeatTimeout(step.name, step.kind.maxDuration)));
      }
      var iteration, child := repeatState.iteration, 0;
      if |s.currentPath| > |path| {
        var parsed := Atoi(s.currentPath[|path|]);
        if parsed.None? || parsed.value < 0 {
          return s, E.StepFailed(path, E.Plain);
        }
        iteration := parsed.value;
        if |s.currentPath| > |path| + 1 {
          child := ResumeIndex(step.kind.steps, s.currentPath[|path| + 1]);
        }
      }
      repeatState := repeatState.(iteration := iteration, completed := false);
      s := s.(repeatStates := s.repeatStates[path := repeatState]);
      if !repeatState.awaitingCondition {
        s, err := ExecuteSteps(top, s, step.kind.steps, child, path + [Itoa(iteration)]);
        if err != E.NoError || s.status != Running {
          return;
        }
        repeatState := repeatState.(awaitingCondition := true);
        s := s.(repeatStates := s.repeatStates[path := repeatState]);
      }
      s, err := FinishIteration(s, step, path, repeatState);
    }

    method ExecuteStep(top: seq<Step>, state: RunState, step: Step, path: Path) returns (s: RunState, err: E.Error)
      modifies this
      ensures E.Result(At(s), err) == old(E.ExecStep(env, top, step, path, At(state)))
      decreases step, 1
    {
      match step.kind
      case Action(compensated, retry) => s, err := ExecuteAction(state, compensated, retry, path);
      case Poll(maxDuration) => s, err := ExecutePoll(state, maxDuration, path);
      case Branch(_) => s, err := ExecuteBranch(top, state, step, path);
      case Repeat(_, _, _, _) => s, err := ExecuteRepeat(top, state, step, path);
    }

    // ---------- scopes ----------

    method HandleError(top: seq<Step>, state: RunState, failure: E.Error, path: Path)
      returns (s: RunState, err: E.Error)
      requires failure != E.NoError
      modifies this
      ensures E.Result(At(s), err) == old(E.HandleError(env, top, At(state), failure, path))
    {
      s, err := state, failure;
      if err == E.SnapshotFailed || err == E.Continue {
        return;
      }
      if env.cancelled(log) {
        return s.(data := data, currentPath := path), E.Cancelled;
      }
      if s.status != Running || (err.StepFailed? && |err.path| > |path|) {
        return;
      }
      if err.StepFailed? && err.cause.Uncompensated? {
        s, err := SnapshotData(s.(failedStepPath := path));
        if err == E.NoError {
          err := failure;
        }
        return;
      }
      s := s.(failedStepPath := path, status := Compensating, compensationIndex := |s.completedSteps| - 1);
      if err.StepFailed? && err.cause.TimedOut? {
        s := s.(repeatTimeout := Some(err.cause.timeout));
      }
      s, err := SnapshotData(s);
      if err != E.NoError {
        return;
      }
      s, err := RunCompensation(top, s);
      if err == E.NoError && failure.StepFailed? && failure.cause.TimedOut? {
        err := failure;
      }
    }

    method ExecuteSteps(top: seq<Step>, state: RunState, steps: seq<Step>, start: nat, parent: Path)
      returns (s: RunState, err: E.Error)
      modifies this
      ensures E.Result(At(s), err) == old(E.ExecScope(env, top, steps, start, parent, At(state)))
      decreases steps, 1
    {
      hide E.ExecSteps, E.ExecStep, E.HandleError;
      ghost var whole := E.ExecScope(env, top, steps, start, parent, At(state));
      s := state;
      var resume := s.currentPath;
      var i := start;
      while i < |steps|
        invariant start <= i
        invariant E.ExecSteps(env, top, steps, i, parent, At(s), resume, i == start) == whole
      {
        E.ScopeTurn(env, top, steps, i, parent, At(s), resume, i == start);
        var path := parent + [steps[i].name];
        if i == start && path == resume && IsCompleted(s, path) {
          i := i + 1;
          continue;
        }
        if env.cancelled(log) {
          return s.(data := data, currentPath := path), E.Cancelled;
        }
        if i == start && path < resume {
          s := s.(currentPath := resume);
        } else {
          s := s.(currentPath := path);
        }
        s, err := ExecuteStep(top, s, steps[i], path);
        if err != E.NoError {
          s, err := HandleError(top, s, err, path);
          return;
        }
        if s.status != Running {
          return;
        }
        i := i + 1;
      }
      E.ScopeTurn(env, top, steps, i, parent, At(s), resume, i == start);
      return s, E.NoError;
    }

    /** Walks the journal backwards from the recorded index. */
    method RunCompensation(top: seq<Step>, state: RunState) returns (s: RunState, err: E.Error)
      requires state.compensationIndex < |state.completedSteps|
      modifies this
      ensures E.Result(At(s), err) == old(E.CompensateFrom(env, top, At(state), state.compensationIndex))
    {
      s := state;
      var i := s.compensationIndex;
      while i >= 0
        invariant i < |s.completedSteps|
        invariant E.CompensateFrom(env, top, At(s), i)
               == old(E.CompensateFrom(env, top, At(state), state.compensationIndex))
        decreases i
      {
        var cs := s.completedSteps[i];
        if !cs.hasCompensator {
          s := s.(compensationIndex := i - 1);
          i := i - 1;
          continue;
        }
        if env.cancelled(log) {
          return s, E.Cancelled;
        }
        var step := FindStepByPath(top, cs.path);
        if step.None? || !step.value.kind.Action? || !step.value.kind.compensated {
          s := s.(compensationIndex := i - 1);
          i := i - 1;
          continue;
        }
        var reply := Invoke(Compensate(cs.path));
        if reply.Fail? {
          s := s.(compensationIndex := i);
          s, err := StopCompensation(s, reply.failure);
          return;
        }
        s := s.(compensationIndex := i - 1);
        s, err := SnapshotData(s);
        if err != E.NoError {
          return;
        }
        i := i - 1;
      }
      s := s.(status := Failed, compensationIndex := -1);
      s, err := SnapshotData(s);
    }

    method StopCompensation(state: RunState, failure: Failure) returns (s: RunState, err: E.Error)
      modifies this
      ensures E.Result(At(s), err) == old(E.StopCompensation(env, At(state), failure))
    {
      if env.cancelled(log) {
        return state, E.Cancelled;
      }
      if failure == RetryAfter {
        s, err := PersistDeferred(state, false);
        return;
      }
      s, err := SnapshotData(state);
      if err == E.NoError {
        err := E.CompensationFailed;
      }
    }

    // ---------- run ----------

    method Run(top: seq<Step>, state: RunState) returns (s: RunState, err: E.Error)
      requires MapKeys(top) && E.Loadable(state)
      modifies this
      ensures s == old(E.Run(env, top, state, log)).m.s && err == old(E.Run(env, top, state, log)).err
      ensures log == old(E.Run(env, top, state, log)).m.log
    {
      s := state;
      var valid := Validate(top);
      if !valid {
        return s, E.InvalidDefinition;
      }
      if s.IsTerminal() {
        return s, E.NoError;
      }
      if env.cancelled(log) {
        return s, E.Cancelled;
      }
      data := s.data;
      if s.status == Compensating {
        s, err := SnapshotData(s);
        if err != E.NoError {
          return;
        }
        s, err := RunCompensation(top, s);
        if err == E.NoError && s.repeatTimeout.Some? {
          err := E.RepeatTimedOut;
        }
        return;
      }
      s, err := SnapshotData(s.(status := Running));
      if err != E.NoError {
        return;
      }
      var start := 0;
      if s.currentPath != [] {
        start := ResumeIndex(top, s.currentPath[0]);
      }
      s, err := ExecuteSteps(top, s, top, start, []);
      if err != E.NoError || s.status != Running {
        return;
      }
      s, err := SnapshotData(s.(status := Completed));
    }
  }
}
