/** What small examples share: an obliging world, and one action done in it. */
module Scenarios {
  import opened Options
  import opened Definition
  import opened State
  import opened Executor
  import opened Runs

  /** Every callback succeeds and is done, the data stays as it is, every snapshot is saved. */
  ghost predicate Obliging(env: Env) {
    && (forall log, call, data :: env.call(log, call, data) == Outcome(data, Ok(true, "k")))
    && (forall log, s :: env.save(log, s))
  }

  const YES := Ok(true, "k")
  const STARTED := INITIAL.(status := Running, revision := 1)

  /** The state in which a run from s first saves. */
  function Resaved(s: RunState): RunState {
    s.(status := Running, revision := s.revision + 1)
  }

  /** A run after its first snapshot. */
  lemma Launches(env: Env, top: seq<Step>, s: RunState, log: Log)
    requires Obliging(env) && !env.cancelled(log) && Valid(top)
    requires (s.status == New || s.status == Running) && s.data == map[]
    ensures Run(env, top, s, log) == Going(env, top, Machine(Resaved(s), map[], log + [Saved(Resaved(s))]))
  {
    hide Run, Going, Valid;
    RunGoing(env, top, s, log);
  }

  /** One action, done and saved. */
  lemma DoesAction(env: Env, compensated: bool, path: Path, s: RunState, log: Log)
    requires Obliging(env)
    ensures var done := Complete(s, path, compensated).(revision := s.revision + 1);
      ExecAction(env, compensated, None, path, Machine(s, s.data, log))
        == Result(Machine(done, s.data, log + [Called(Do(path), YES), Saved(done)]), NoError)
  {
    var m := Machine(s, s.data, log);
    var a := Attempt(env, m, path, 1, SECOND, false);
    assert a.reply == YES && a.m.log == log + [Called(Do(path), YES)];
    var done := Complete(s, path, compensated).(revision := s.revision + 1);
    assert log + [Called(Do(path), YES)] + [Saved(done)] == log + [Called(Do(path), YES), Saved(done)];
  }
}
