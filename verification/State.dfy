/** The persistent run state, and the log of everything an execution does to the outside world. */
module State {
  import opened Options
  import opened Definition

  type Data = map<string, string>

  datatype Status = New | Running | Polling | Completed | Compensating | Failed

  datatype CompletedStep = CompletedStep(path: Path, hasCompensator: bool)

  datatype RepeatState =
    RepeatState(iteration: nat, awaitingCondition: bool, completed: bool, startedAt: Option<int>)

  datatype RepeatTimeout = RepeatTimeout(stepName: string, maxDuration: int)

  /** RepeatStates is keyed by the path itself; StepPathKey is injective (module PathKey). */
  datatype RunState = RunState(
    status: Status,
    currentPath: Path,
    completedSteps: seq<CompletedStep>,
    data: Data,
    failedStepPath: Path,
    pollStartedAt: Option<int>,
    compensationIndex: int,
    revision: nat,
    repeatStates: map<Path, RepeatState>,
    repeatTimeout: Option<RepeatTimeout>)
  {
    predicate IsTerminal() {
      status == Completed || status == Failed
    }
  }

  const INITIAL := RunState(New, [], [], map[], [], None, 0, 0, map[], None)
  const NO_REPEAT := RepeatState(0, false, false, None)

  datatype Call =
    | Do(path: Path)
    | Check(path: Path)
    | Decide(path: Path)
    | Until(path: Path, iteration: nat)
    | Compensate(path: Path)

  /** How a callback error is classified; a delayed continuation wins over NoCompensate. */
  datatype Failure = Ordinary | NoCompensate | RetryAfter

  datatype Reply = Ok(done: bool, key: string) | Fail(failure: Failure)

  datatype Event =
    | Called(call: Call, reply: Reply)
    | Saved(state: RunState)
    | Refused(state: RunState)
    | Slept(delay: int)

  type Log = seq<Event>

  datatype Outcome = Outcome(data: Data, reply: Reply)

  /**
   * The outside world: callbacks, the snapshot store, cancellation and the clock. Each answer may
   * depend on everything that happened before, so an Env stands for any behaviour whatsoever.
   */
  datatype Env = Env(
    call: (Log, Call, Data) -> Outcome,
    save: (Log, RunState) -> bool,
    cancelled: Log -> bool,
    now: Log -> int)

  /** The last state handed to a snapshot call that succeeded. */
  function Durable(log: Log): RunState {
    if log == [] then INITIAL
    else if log[|log| - 1].Saved? then log[|log| - 1].state
    else Durable(log[..|log| - 1])
  }

  function RepeatAt(s: RunState, path: Path): RepeatState {
    if path in s.repeatStates then s.repeatStates[path] else NO_REPEAT
  }

  predicate IsCompleted(s: RunState, path: Path) {
    exists i :: 0 <= i < |s.completedSteps| && s.completedSteps[i].path == path
  }
}
