/**
 * Two runs that were cancelled and started again from the state they returned. The program promises
 * that a run then continues from the interrupted step; here one loses a step, and one does a
 * completed step again. Modules Returned and Promise say exactly when the promise holds.
 */
module Cancellation {
  import opened Options
  import opened Decimal
  import opened Definition
  import opened State
  import opened Executor
  import opened Journal
  import opened Runs
  import opened NextCalls
  import opened CutRollback
  import opened CutForward
  import opened FirstCalls
  import opened Scenarios

  const X := Step("x", Action(true, None))
  const Y := Step("y", Action(true, None))
  const CHILDREN := [X, Y]

  /** All callbacks succeed and all snapshots are saved; cancellation arrives after so many events. */
  function Calm(events: nat): Env {
    Env((log, call, data) => Outcome(data, Ok(true, "k")), (log, s) => true, log => |log| >= events, log => 0)
  }

  /** And here it never does. */
  const QUIET := Env((log, call, data) => Outcome(data, Ok(true, "k")), (log, s) => true, log => false, log => 0)

  // ---------- a lost step ----------

  const BRANCH := [Step("b", Branch([BranchPath("k", CHILDREN)]))]

  const DECIDED := Called(Decide(["b"]), YES)
  const DID_X := Called(Do(["b", "k", "x"]), YES)
  const IN_BRANCH := STARTED.(currentPath := ["b", "k"], completedSteps := [CompletedStep(["b"], false)], revision := 2)
  const AFTER_X := IN_BRANCH.(currentPath := ["b", "k", "x"], revision := 3,
    completedSteps := [CompletedStep(["b"], false), CompletedStep(["b", "k", "x"], true)])
  const SAVED_X := [Saved(STARTED), DECIDED, Saved(IN_BRANCH), DID_X, Saved(AFTER_X)]
  const RETURNED := AFTER_X.(currentPath := ["b"])

  lemma BranchValid()
    ensures Valid(BRANCH)
  {
    assert ValidSteps(CHILDREN);
    assert ValidStep(BRANCH[0]);
  }

  /** Cancelled after "x", inside the branch. */
  lemma BranchCancelled()
    ensures var m := Machine(IN_BRANCH, map[], [Saved(STARTED), DECIDED, Saved(IN_BRANCH)]);
      ExecSteps(Calm(5), BRANCH, CHILDREN, 0, ["b", "k"], m, ["b", "k"], true)
        == Result(Machine(AFTER_X.(currentPath := ["b", "k", "y"]), map[], SAVED_X), Cancelled)
  {
    hide ExecSteps, ExecAction;
    var env := Calm(5);
    var m := Machine(IN_BRANCH, map[], [Saved(STARTED), DECIDED, Saved(IN_BRANCH)]);
    var x: Path := ["b", "k"] + [CHILDREN[0].name];
    assert x == ["b", "k", "x"];
    ScopeTurn(env, BRANCH, CHILDREN, 0, ["b", "k"], m, ["b", "k"], true);
    var e := Enter(m, x, ["b", "k"], true);
    DoesAction(env, true, x, e.s, e.log);
    var r := ExecStep(env, BRANCH, X, x, e);
    assert r.m.s == AFTER_X && r.m.log == SAVED_X;
    assert ["b", "k"] + [CHILDREN[1].name] == ["b", "k", "y"];
    ScopeTurn(env, BRANCH, CHILDREN, 1, ["b", "k"], r.m, ["b", "k"], false);
  }

  /** The run that is cancelled after "x" was saved returns the path of the branch alone. */
  lemma BranchReturned()
    ensures Run(Calm(5), BRANCH, INITIAL, []) == Result(Machine(RETURNED, map[], SAVED_X), Cancelled)
  {
    hide ExecSteps, Valid, EnterCompensation, Run;
    BranchValid();
    var env := Calm(5);
    var m := Machine(STARTED, map[], [Saved(STARTED)]);
    Launches(env, BRANCH, INITIAL, []);
    assert [] + [Saved(STARTED)] == [Saved(STARTED)];
    ScopeTurn(env, BRANCH, BRANCH, 0, [], m, [], true);
    var path: Path := [] + [BRANCH[0].name];
    assert path == ["b"];
    Decides(env, path, Enter(m, path, [], true));
    BranchCancelled();
    var r := ExecStep(env, BRANCH, BRANCH[0], path, Enter(m, path, [], true));
    assert r.err == Cancelled && r.m.log == SAVED_X;
    assert HandleError(env, BRANCH, r.m, r.err, path) == Result(Machine(RETURNED, map[], SAVED_X), Cancelled);
  }

  lemma Decides(env: Env, path: Path, m: Machine)
    requires Obliging(env) && path == ["b"]
    requires m == Machine(STARTED.(currentPath := ["b"]), map[], [Saved(STARTED)])
    ensures DecideBranch(env, [BranchPath("k", CHILDREN)], path, m)
         == Entered(Machine(IN_BRANCH, map[], [Saved(STARTED), DECIDED, Saved(IN_BRANCH)]), 0)
  {
    var a := Invoke(env, m, Decide(path));
    assert a.m.log == [Saved(STARTED), DECIDED] && a.reply == YES;
    assert path + ["k"] == ["b", "k"];
    assert FindKey([BranchPath("k", CHILDREN)], "k") == Some(0);
    var chosen := a.m.(s := Complete(a.m.s, path, false).(currentPath := path + ["k"]));
    assert chosen.s.completedSteps == [CompletedStep(["b"], false)];
    assert SnapshotData(env, chosen).m.log == [Saved(STARTED), DECIDED] + [Saved(IN_BRANCH)];
  }

  const RESUMED := RETURNED.(revision := 4)

  /** From the saved state "y" comes next; from the returned one nothing does, and it completes: "y" is lost. */
  lemma BranchLosesY()
    ensures Durable(SAVED_X) == AFTER_X && NextCall(BRANCH, AFTER_X) == Some(Do(["b", "k", "y"]))
    ensures Run(QUIET, BRANCH, RETURNED, [])
         == Result(Machine(RESUMED.(status := Completed, revision := 5), map[],
                           [Saved(RESUMED), Saved(RESUMED.(status := Completed, revision := 5))]), NoError)
  {
    hide ExecSteps, Valid, Run;
    BranchValid();
    BranchNext();
    var m := Machine(RESUMED, map[], [Saved(RESUMED)]);
    Launches(QUIET, BRANCH, RETURNED, []);
    assert [] + [Saved(RESUMED)] == [Saved(RESUMED)];
    assert [] + [BRANCH[0].name] == ["b"];
    assert IsCompleted(RESUMED, ["b"]) by { assert RESUMED.completedSteps[0].path == ["b"]; }
    ScopeTurn(QUIET, BRANCH, BRANCH, 0, [], m, ["b"], true);
    ScopeTurn(QUIET, BRANCH, BRANCH, 1, [], m, ["b"], false);
    assert StartIndex(BRANCH, "b") == 0;
    var done := RESUMED.(status := Completed, revision := 5);
    assert [Saved(RESUMED)] + [Saved(done)] == [Saved(RESUMED), Saved(done)];
  }

  lemma BranchNext()
    ensures NextCall(BRANCH, AFTER_X) == Some(Do(["b", "k", "y"]))
  {
    var scope: Path := ["b", "k"];
    assert [] + ["b"] == ["b"] && ["b"] + ["k"] == scope;
    assert scope + [CHILDREN[0].name] == ["b", "k", "x"] && scope + [CHILDREN[1].name] == ["b", "k", "y"];
    assert IsCompleted(AFTER_X, ["b", "k", "x"]) by { assert AFTER_X.completedSteps[1].path == ["b", "k", "x"]; }
    assert NextOfStep(X, ["b", "k", "x"], AFTER_X) == None;
    assert NextOfScope(CHILDREN, scope, AFTER_X) == Some(Do(["b", "k", "y"]));
    assert FindKey([BranchPath("k", CHILDREN)], "k") == Some(0);
    assert NextOfStep(BRANCH[0], ["b"], AFTER_X) == Some(Do(["b", "k", "y"]));
  }

  // ---------- a step done twice ----------

  const LOOP := [Step("r", Repeat(CHILDREN, 0, 0, false))]

  const DID_FIRST := Called(Do(["r", "0", "x"]), YES)
  const AFTER_FIRST := STARTED.(currentPath := ["r", "0", "x"], revision := 2,
    completedSteps := [CompletedStep(["r", "0", "x"], true)], repeatStates := map[["r"] := NO_REPEAT])
  const SAVED_FIRST := [Saved(STARTED), DID_FIRST, Saved(AFTER_FIRST)]
  const HALFWAY := AFTER_FIRST.(currentPath := ["r"])

  lemma LoopValid()
    ensures Valid(LOOP)
  {
    assert ValidSteps(CHILDREN);
    assert ValidStep(LOOP[0]);
  }

  lemma Zero()
    ensures Itoa(0) == "0" && Atoi("0") == Some(0)
  {
    assert Digit(0) == '0';
    AtoiItoa(0);
  }

  /** The first iteration, entered at the repeat itself. */
  lemma LoopStep(env: Env, m: Machine)
    requires m.s.currentPath == ["r"] && RepeatAt(m.s, ["r"]) == NO_REPEAT
    ensures var r := ExecStep(env, LOOP, LOOP[0], ["r"], m);
      var c := ExecSteps(env, LOOP, CHILDREN, 0, ["r", "0"], WithRepeat(m, ["r"], NO_REPEAT), ["r"], true);
      && c.m.log <= r.m.log
      && (c.err != NoError ==> r == c)
  {
    hide ExecSteps, FinishIteration;
    Zero();
    assert ["r"] + [Itoa(0)] == ["r", "0"];
    assert ExecStep(env, LOOP, LOOP[0], ["r"], m) == RunIteration(env, LOOP, LOOP[0], ["r"], m, NO_REPEAT);
    var c := ExecSteps(env, LOOP, CHILDREN, 0, ["r", "0"], WithRepeat(m, ["r"], NO_REPEAT), ["r"], true);
    var due := NO_REPEAT.(awaitingCondition := true);
    FinishLogs(env, LOOP[0], ["r"], WithRepeat(c.m, ["r"], due), due);
  }

  /** The run that is cancelled between "x" and "y" returns the path of the repeat alone. */
  lemma LoopReturned()
    ensures Run(Calm(3), LOOP, INITIAL, []) == Result(Machine(HALFWAY, map[], SAVED_FIRST), Cancelled)
  {
    hide ExecSteps, ExecStep, Valid, EnterCompensation, Run, ExecAction;
    LoopValid();
    var env := Calm(3);
    var m := Machine(STARTED, map[], [Saved(STARTED)]);
    Launches(env, LOOP, INITIAL, []);
    assert [] + [Saved(STARTED)] == [Saved(STARTED)];
    ScopeTurn(env, LOOP, LOOP, 0, [], m, [], true);
    var path: Path := [] + [LOOP[0].name];
    assert path == ["r"];
    var e := Enter(m, path, [], true);
    LoopStep(env, e);
    LoopCancelled();
    assert WithRepeat(e, path, NO_REPEAT).s == IN_LOOP;
    var r := ExecStep(env, LOOP, LOOP[0], path, e);
    assert r.err == Cancelled && r.m.log == SAVED_FIRST;
    assert HandleError(env, LOOP, r.m, r.err, path) == Result(Machine(HALFWAY, map[], SAVED_FIRST), Cancelled);
  }

  const IN_LOOP := STARTED.(currentPath := ["r"], repeatStates := map[["r"] := NO_REPEAT])

  lemma LoopCancelled()
    ensures var m := Machine(IN_LOOP, map[], [Saved(STARTED)]);
      ExecSteps(Calm(3), LOOP, CHILDREN, 0, ["r", "0"], m, ["r"], true)
        == Result(Machine(AFTER_FIRST.(currentPath := ["r", "0", "y"]), map[], SAVED_FIRST), Cancelled)
  {
    hide ExecSteps, ExecAction;
    var env := Calm(3);
    var m := Machine(IN_LOOP, map[], [Saved(STARTED)]);
    var x: Path := ["r", "0"] + [CHILDREN[0].name];
    assert x == ["r", "0", "x"];
    ScopeTurn(env, LOOP, CHILDREN, 0, ["r", "0"], m, ["r"], true);
    var e := Enter(m, x, ["r"], true);
    DoesAction(env, true, x, e.s, e.log);
    var r := ExecStep(env, LOOP, X, x, e);
    assert r.m.s == AFTER_FIRST && r.m.log == SAVED_FIRST;
    assert ["r", "0"] + [CHILDREN[1].name] == ["r", "0", "y"];
    ScopeTurn(env, LOOP, CHILDREN, 1, ["r", "0"], r.m, ["r"], false);
  }

  /** The first child is executed afresh. */
  lemma LoopAgain(m: Machine, log: Log)
    requires m == Machine(HALFWAY.(revision := 3), map[], [Saved(HALFWAY.(revision := 3))])
    requires log == [Saved(HALFWAY.(revision := 3)), DID_FIRST, Saved(TWICE)]
    ensures log <= ExecScope(QUIET, LOOP, LOOP, 0, [], m).m.log
  {
    hide ExecSteps, ExecStep, ExecAction, FinishIteration;
    var path: Path := [] + [LOOP[0].name];
    assert path == ["r"];
    assert !IsCompleted(m.s, path);
    assert Enter(m, path, ["r"], true) == m;
    assert WithRepeat(m, path, NO_REPEAT) == m;
    ChildAgain(m, log);
    var c := ExecSteps(QUIET, LOOP, CHILDREN, 0, ["r", "0"], m, ["r"], true);
    LoopStep(QUIET, m);
    var r := ExecStep(QUIET, LOOP, LOOP[0], path, m);
    LogsGrow(log, c.m.log, r.m.log);
    StepsLogs(QUIET, LOOP, LOOP, 0, [], m, ["r"], true);
    LogsGrow(log, r.m.log, ExecSteps(QUIET, LOOP, LOOP, 0, [], m, ["r"], true).m.log);
  }

  lemma ChildAgain(m: Machine, log: Log)
    requires m == Machine(HALFWAY.(revision := 3), map[], [Saved(HALFWAY.(revision := 3))])
    requires log == [Saved(HALFWAY.(revision := 3)), DID_FIRST, Saved(TWICE)]
    ensures log <= ExecSteps(QUIET, LOOP, CHILDREN, 0, ["r", "0"], m, ["r"], true).m.log
  {
    hide ExecSteps, ExecAction;
    var x: Path := ["r", "0"] + [CHILDREN[0].name];
    assert x == ["r", "0", "x"];
    var e := Enter(m, x, ["r"], true);
    DoesAction(QUIET, true, x, e.s, e.log);
    var r := ExecStep(QUIET, LOOP, X, x, e);
    assert r.m.s == TWICE && r.m.log == log;
    StepsLogs(QUIET, LOOP, CHILDREN, 0, ["r", "0"], m, ["r"], true);
  }

  const TWICE := HALFWAY.(currentPath := ["r", "0", "x"], revision := 4,
    completedSteps := [CompletedStep(["r", "0", "x"], true), CompletedStep(["r", "0", "x"], true)])

  /**
   * From the returned state the iteration starts over: "x", which is recorded as completed, is done
   * again and listed twice, so that a rollback will compensate it twice.
   */
  lemma LoopRepeatsX()
    ensures IsCompleted(HALFWAY, ["r", "0", "x"])
    ensures [Saved(HALFWAY.(revision := 3)), DID_FIRST, Saved(TWICE)] <= Run(QUIET, LOOP, HALFWAY, []).m.log
    ensures Undo(TWICE.completedSteps) == [["r", "0", "x"], ["r", "0", "x"]]
  {
    hide ExecSteps, Valid, Run, ExecAction, FinishIteration;
    LoopValid();
    var again := HALFWAY.(revision := 3);
    assert HALFWAY.completedSteps[0].path == ["r", "0", "x"];
    Launches(QUIET, LOOP, HALFWAY, []);
    assert [] + [Saved(again)] == [Saved(again)];
    var m := Machine(again, map[], [Saved(again)]);
    assert StartIndex(LOOP, "r") == 0;
    var log := [Saved(again), DID_FIRST, Saved(TWICE)];
    LoopAgain(m, log);
    var e := ExecScope(QUIET, LOOP, LOOP, 0, [], m);
    SavesNoCall(QUIET, e.m.(s := e.m.s.(status := Completed)), false);
    LogsGrow(log, e.m.log, Going(QUIET, LOOP, m).m.log);
    var cs := TWICE.completedSteps;
    assert cs[..1] == [CompletedStep(["r", "0", "x"], true)] && cs[..1][..0] == [];
  }
}
