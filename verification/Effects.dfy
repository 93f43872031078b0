/**
 * What one successful answer changes: with NextCalls a whole interpreter of pipelines, which takes
 * the next call, hears the answer and moves on - without crashes, retries or snapshots to think of.
 */
module Effects {
  import opened Options
  import opened Decimal
  import opened Definition
  import opened State
  import opened Executor
  import opened Footprint
  import opened NextCalls

  /** The state that a successful answer to this call leads to from d. */
  function Effect(top: seq<Step>, d: RunState, call: Call, reply: Reply): RunState
    requires reply.Ok?
  {
    var f := FindStep(top, call.path);
    if f.None? then d
    else
      var step, path := f.value, call.path;
      match step.kind
      case Action(compensated, _) => Complete(d, path, compensated).(currentPath := path)
      case Poll(_) => if reply.done then Complete(d, path, false).(currentPath := path) else d
      case Branch(paths) =>
        (match FindKey(paths, reply.key)
         case None => d
         case Some(k) =>
           var at := if paths[k].steps == [] then path else path + [paths[k].key];
           Complete(d, path, false).(currentPath := at))
      case Repeat(_, _, _, _) =>
        var rs := RepeatAt(d, path);
        if reply.done then DoneState(step, path, d, rs)
        else if LastIteration(step, rs) then d
        else NextState(step, path, d, rs)
  }

  /** The same work is done, and the same call comes next. */
  ghost predicate Agrees(top: seq<Step>, a: RunState, b: RunState) {
    && b.completedSteps == a.completedSteps && NextCall(top, b) == NextCall(top, a)
    && forall q :: RepeatAt(b, q).iteration == RepeatAt(a, q).iteration
                   && RepeatAt(b, q).completed == RepeatAt(a, q).completed
  }

  /** The last event was a successful answer to the next call, and s is what it leads to. */
  ghost predicate ByCall(top: seq<Step>, log: Log, s: RunState) {
    && log != []
    && var e := log[|log| - 1];
    && e.Called? && e.reply.Ok? && NextCall(top, Durable(log)) == Some(e.call)
    && Agrees(top, Effect(top, Durable(log), e.call, e.reply), s)
  }

  predicate GoesForward(s: RunState) {
    s.status == Running || s.status == Polling || s.status == Completed
  }

  /** Before a forward state is saved, nothing has been done since, or one call. */
  ghost predicate Worked(top: seq<Step>, log: Log, s: RunState) {
    GoesForward(s) ==> Agrees(top, Durable(log), s) || ByCall(top, log, s)
  }

  // ---------- states ----------

  lemma AgreesSame(top: seq<Step>, a: RunState, s: RunState, s': RunState)
    requires Agrees(top, a, s)
    requires s'.completedSteps == s.completedSteps && s'.repeatStates == s.repeatStates && s'.currentPath == s.currentPath
    ensures Agrees(top, a, s')
  {
    hide NextCall;
    assert forall q :: RepeatAt(s', q) == RepeatAt(s, q) && IsCompleted(s', q) == IsCompleted(s, q);
    NextSame(top, s, s');
  }

  lemma WorkedSame(top: seq<Step>, log: Log, s: RunState, s': RunState)
    requires Worked(top, log, s) && (GoesForward(s') ==> GoesForward(s))
    requires s'.completedSteps == s.completedSteps && s'.repeatStates == s.repeatStates && s'.currentPath == s.currentPath
    ensures Worked(top, log, s')
  {
    hide Agrees, NextCall, Effect;
    if GoesForward(s') {
      if Agrees(top, Durable(log), s) {
        AgreesSame(top, Durable(log), s, s');
      } else {
        var e := log[|log| - 1];
        AgreesSame(top, Effect(top, Durable(log), e.call, e.reply), s, s');
      }
    }
  }

  lemma TracksWorked(top: seq<Step>, log: Log, s: RunState)
    requires Tracks(top, Durable(log), s)
    ensures Agrees(top, Durable(log), s) && Worked(top, log, s)
  {
    hide NextCall;
    var q :| OffBy(top, Durable(log), s, q);
  }

  /** Equal in what was done and in all positions of repeats. */
  ghost predicate Even(d: RunState, s: RunState) {
    s.completedSteps == d.completedSteps && forall q :: RepeatAt(s, q) == RepeatAt(d, q)
  }

  /** The completion of a step, here and in the interpreter. */
  lemma CompleteAgrees(top: seq<Step>, d: RunState, s: RunState, path: Path, has: bool, at: Path)
    requires Even(d, s)
    ensures Agrees(top, Complete(d, path, has).(currentPath := at), Complete(s, path, has).(currentPath := at))
  {
    hide NextCall;
    var a, b := Complete(d, path, has).(currentPath := at), Complete(s, path, has).(currentPath := at);
    assert forall q :: RepeatAt(a, q) == RepeatAt(d, q) && RepeatAt(b, q) == RepeatAt(s, q);
    assert forall q :: IsCompleted(a, q) == IsCompleted(b, q);
    NextSame(top, a, b);
  }

  lemma RetainedEven(step: Step, path: Path, n: nat, d: RunState, s: RunState)
    requires step.kind.Repeat? && s.completedSteps == d.completedSteps
    requires forall q :: q != path ==> RepeatAt(s, q) == RepeatAt(d, q)
    ensures var a, b := Retained(step, d, path, n), Retained(step, s, path, n);
      b.completedSteps == a.completedSteps && forall q :: q != path ==> RepeatAt(b, q) == RepeatAt(a, q)
  {
    var prefix := path + [Itoa(n)];
    var a, b := Retained(step, d, path, n), Retained(step, s, path, n);
    if step.kind.compact {
      forall q ensures RepeatAt(a, q) == if IsPrefix(prefix, q) then NO_REPEAT else RepeatAt(d, q) {}
      forall q ensures RepeatAt(b, q) == if IsPrefix(prefix, q) then NO_REPEAT else RepeatAt(s, q) {}
    }
  }

  /** The end of an iteration, here and in the interpreter: only waiting and clocks may differ before. */
  lemma IterationAgrees(top: seq<Step>, step: Step, path: Path, d: RunState, s: RunState, rs: RepeatState, rs': RepeatState,
                        a: RunState, b: RunState)
    requires step.kind.Repeat? && s.completedSteps == d.completedSteps && rs'.iteration == rs.iteration
    requires forall q :: q != path ==> RepeatAt(s, q) == RepeatAt(d, q)
    requires rs' == rs.(awaitingCondition := rs'.awaitingCondition)
    requires || (a == DoneState(step, path, d, rs) && b == DoneState(step, path, s, rs'))
             || (a == NextState(step, path, d, rs) && b == NextState(step, path, s, rs'))
    ensures Agrees(top, a, b)
  {
    hide NextCall, Retained;
    RetainedEven(step, path, rs.iteration, d, s);
    DoneAt(step, path, d, rs);
    DoneAt(step, path, s, rs');
    assert b.completedSteps == a.completedSteps && b.currentPath == a.currentPath;
    assert forall q :: IsCompleted(a, q) == IsCompleted(b, q);
    var x, y := Retained(step, d, path, rs.iteration), Retained(step, s, path, rs.iteration);
    assert RepeatAt(a, path) == RepeatAt(b, path);
    forall q | q != path ensures RepeatAt(a, q) == RepeatAt(b, q) {
      assert RepeatAt(a, q) == RepeatAt(x, q) && RepeatAt(b, q) == RepeatAt(y, q);
    }
    NextSame(top, a, b);
  }
}
