/**
 * Why resuming is transparent only while no time limit runs out: here the limit of a repeat expires
 * while the process is down, between two of its children.
 */
module Deadlines {
  import opened Options
  import opened Decimal
  import opened Definition
  import opened State
  import opened Executor
  import opened Journal
  import opened Runs
  import opened Guarantees
  import opened Lockstep
  import opened CutRollback
  import opened CutForward
  import opened FirstCalls
  import opened Resume
  import opened Scenarios

  const X := Step("x", Action(false, None))
  const Y := Step("y", Action(false, None))
  const CHILDREN := [X, Y]
  const TIMED := [Step("r", Repeat(CHILDREN, 0, 10, false))]

  /** The process that runs first sees time 0; one that is started again after "x" sees time 20. */
  const LATE := Env((log, call, data) => Outcome(data, Ok(true, "k")), (log, s) => true, log => false,
                    (log: Log) => if |log| > 4 && log[4].Saved? then 20 else 0)

  const CLOCK := RepeatState(0, false, false, Some(0))
  const TIMING := STARTED.(currentPath := ["r"], repeatStates := map[["r"] := CLOCK], revision := 2)
  const DID_X := Called(Do(["r", "0", "x"]), YES)
  const DID_Y := Called(Do(["r", "0", "y"]), YES)
  const AFTER_X := TIMING.(currentPath := ["r", "0", "x"], revision := 3,
                           completedSteps := [CompletedStep(["r", "0", "x"], false)])
  const BEFORE := [Saved(STARTED), Saved(TIMING), DID_X, Saved(AFTER_X)]

  lemma TimedValid()
    ensures Valid(TIMED) && History(LATE, TIMED, []) && Steady(LATE)
  {
    assert ValidSteps(CHILDREN);
    assert ValidStep(TIMED[0]);
    assert Reachable(LATE, TIMED, [], 0);
  }

  lemma Zero()
    ensures Itoa(0) == "0" && ["r"] + [Itoa(0)] == ["r", "0"]
  {
    assert Digit(0) == '0';
  }

  /** The uncut run calls "y" after it saved "x". */
  lemma Uncut()
    ensures BEFORE + [DID_Y] <= Run(LATE, TIMED, INITIAL, []).m.log
  {
    hide ExecSteps, ExecStep, Valid, Run, Steady;
    TimedValid();
    var m := Machine(STARTED, map[], [Saved(STARTED)]);
    Launches(LATE, TIMED, INITIAL, []);
    assert [] + [Saved(STARTED)] == [Saved(STARTED)];
    var path: Path := [] + [TIMED[0].name];
    assert path == ["r"];
    var e := Enter(m, path, [], true);
    TimedStep(e);
    var r := ExecStep(LATE, TIMED, TIMED[0], path, e);
    StepsLogs(LATE, TIMED, TIMED, 0, [], m, [], true);
    var s := ExecScope(LATE, TIMED, TIMED, 0, [], m);
    LogsGrow(BEFORE + [DID_Y], r.m.log, s.m.log);
    SavesNoCall(LATE, s.m.(s := s.m.s.(status := Completed)), false);
    LogsGrow(BEFORE + [DID_Y], s.m.log, Going(LATE, TIMED, m).m.log);
  }

  lemma TimedStep(m: Machine)
    requires m == Machine(STARTED.(currentPath := ["r"]), map[], [Saved(STARTED)])
    ensures BEFORE + [DID_Y] <= ExecStep(LATE, TIMED, TIMED[0], ["r"], m).m.log
  {
    hide ExecSteps, FinishIteration, ExecAction;
    Zero();
    var t := Machine(TIMING, map[], [Saved(STARTED), Saved(TIMING)]);
    StartsClock(m, t);
    TimedChildren(t);
    var c := ExecSteps(LATE, TIMED, CHILDREN, 0, ["r", "0"], t, ["r"], true);
    var due := CLOCK.(awaitingCondition := true);
    FinishLogs(LATE, TIMED[0], ["r"], WithRepeat(c.m, ["r"], due), due);
    assert WithRepeat(t, ["r"], CLOCK) == t;
    assert ExecStep(LATE, TIMED, TIMED[0], ["r"], m) == RunIteration(LATE, TIMED, TIMED[0], ["r"], t, CLOCK);
    LogsGrow(BEFORE + [DID_Y], c.m.log, ExecStep(LATE, TIMED, TIMED[0], ["r"], m).m.log);
  }

  lemma StartsClock(m: Machine, t: Machine)
    requires m == Machine(STARTED.(currentPath := ["r"]), map[], [Saved(STARTED)])
    requires t == Machine(TIMING, map[], [Saved(STARTED), Saved(TIMING)])
    ensures EnsureStarted(LATE, 10, ["r"], m) == Result(t, NoError)
  {
    assert m.s.repeatStates[["r"] := CLOCK] == map[["r"] := CLOCK];
    assert [Saved(STARTED)] + [Saved(TIMING)] == [Saved(STARTED), Saved(TIMING)];
  }

  lemma TimedChildren(m: Machine)
    requires m == Machine(TIMING, map[], [Saved(STARTED), Saved(TIMING)])
    ensures BEFORE + [DID_Y] <= ExecSteps(LATE, TIMED, CHILDREN, 0, ["r", "0"], m, ["r"], true).m.log
  {
    hide ExecSteps, ExecAction;
    var x: Path := ["r", "0"] + [CHILDREN[0].name];
    var y: Path := ["r", "0"] + [CHILDREN[1].name];
    assert x == ["r", "0", "x"] && y == ["r", "0", "y"];
    ScopeTurn(LATE, TIMED, CHILDREN, 0, ["r", "0"], m, ["r"], true);
    var e := Enter(m, x, ["r"], true);
    DoesAction(LATE, false, x, e.s, e.log);
    var r := ExecStep(LATE, TIMED, X, x, e);
    assert r.m.s == AFTER_X && r.m.log == BEFORE;
    var f := Enter(r.m, y, ["r"], false);
    DoesAction(LATE, false, y, f.s, f.log);
    var r' := ExecStep(LATE, TIMED, Y, y, f);
    StepsLogs(LATE, TIMED, CHILDREN, 1, ["r", "0"], r.m, ["r"], false);
    LogsGrow(BEFORE + [DID_Y], r'.m.log, ExecSteps(LATE, TIMED, CHILDREN, 1, ["r", "0"], r.m, ["r"], false).m.log);
  }

  const AGAIN := AFTER_X.(revision := 4)

  /** Started again from what it saved then, the repeat is out of time: nothing is called. */
  lemma StartedLate()
    ensures Calls(Run(LATE, TIMED, AFTER_X, BEFORE).m.log) == Calls(BEFORE)
  {
    hide ExecSteps, Valid, Run, Calls, SnapshotData;
    TimedValid();
    var log := BEFORE + [Saved(AGAIN)];
    var m := Machine(AGAIN, map[], log);
    Launches(LATE, TIMED, AFTER_X, BEFORE);
    SavesNoCall(LATE, Machine(AFTER_X.(status := Running), map[], BEFORE), false);
    var cp: Path := ["r", "0", "x"];
    assert [] + [TIMED[0].name] == ["r"] && ["r"] < cp && StartIndex(TIMED, "r") == 0;
    ScopeTurn(LATE, TIMED, TIMED, 0, [], m, cp, true);
    assert LATE.now(log) == 20;
    var r := ExecStep(LATE, TIMED, TIMED[0], ["r"], m);
    assert r == RepeatTimeoutFailure(m, TIMED[0], ["r"]);
    RollsBack(r.m, r.err.cause, r.err);
  }

  lemma RollsBack(m: Machine, cause: Cause, err: Error)
    requires |m.s.completedSteps| == 1 && !m.s.completedSteps[0].hasCompensator
    ensures var r := EnterCompensation(LATE, TIMED, m, ["r"], cause, err);
      Calls(r.m.log) == Calls(m.log) && r.m.s.status == Failed
  {
    hide Calls;
    var t := SnapshotData(LATE, m.(s := StartCompensation(m.s, ["r"], cause)));
    SavesNoCall(LATE, m.(s := StartCompensation(m.s, ["r"], cause)), false);
    var skipped := t.m.(s := t.m.s.(compensationIndex := -1));
    assert CompensateFrom(LATE, TIMED, t.m, 0) == CompensateFrom(LATE, TIMED, skipped, -1);
    SavesNoCall(LATE, skipped.(s := skipped.s.(status := Failed, compensationIndex := -1)), false);
  }

  /**
   * Everything but the time limit is as ResumeIsTransparent asks, and resuming is not transparent:
   * the uncut run goes on to call "y", the resumed one rolls back.
   */
  lemma LimitExpires()
    ensures History(LATE, TIMED, []) && Steady(LATE) && !InTime(LATE, TIMED)
    ensures var r := Run(LATE, TIMED, INITIAL, []);
      && |r.m.log| > 4 && r.m.log[3] == Saved(AFTER_X) && WentOn(r, 3)
      && !SameFromHere(LATE, TIMED, r, 3, r.m.log[..4])
  {
    hide Valid, Run, Calls;
    TimedValid();
    Uncut();
    StartedLate();
    TooShort();
    var r := Run(LATE, TIMED, INITIAL, []);
    var seen := BEFORE + [DID_Y];
    assert r.m.log[..5] == seen && r.m.log[..4] == seen[..4] == BEFORE;
    assert r.m.log[3] == seen[3];
    CallsGrow(seen, r.m.log);
    CallsSeen();
  }

  lemma TooShort()
    ensures !InTime(LATE, TIMED)
  {
    var late := BEFORE + [Saved(AGAIN)];
    assert LATE.now(late) - LATE.now([]) == 20;
    assert !Ample(LATE, 10);
    assert !StepInTime(LATE, TIMED[0]);
  }

  lemma CallsSeen()
    ensures |Calls(BEFORE)| == 1 && |Calls(BEFORE + [DID_Y])| == 2
  {
    var a, b, c := [Saved(STARTED)], [Saved(STARTED), Saved(TIMING)], [Saved(STARTED), Saved(TIMING), DID_X];
    assert Calls([]) == [];
    assert a[..0] == [] && Calls(a) == [];
    assert b[..1] == a && Calls(b) == [];
    assert c[..2] == b && Calls(c) == [DID_X];
    assert BEFORE[..3] == c && Calls(BEFORE) == [DID_X];
    assert (BEFORE + [DID_Y])[..4] == BEFORE;
  }
}
