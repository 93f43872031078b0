/**
 * The order of things over a whole history, through every crash: each forward call is the one that
 * the last durable state leads to, and a run completes only when nothing is left to call.
 */
module Sequence {
  import opened Options
  import opened Decimal
  import opened Definition
  import opened State
  import opened Frames
  import opened Guarantees
  import opened Courses
  import opened Lifecycle
  import opened Executor
  import opened Journal
  import opened Footprint
  import opened Effects
  import opened Reentry
  import opened NextCalls

  /**
   * Which call is made next is settled by the last durable state alone: not by callbacks, retries,
   * refused snapshots, the clock, or how many runs it took to get there.
   */
  lemma NextIsDurable(env: Env, top: seq<Step>, log: Log, k: nat)
    requires History(env, top, log) && k < |log| && log[k].Called? && !log[k].call.Compensate?
    ensures NextCall(top, Durable(log[..k])) == Some(log[k].call)
  {
    HistoryIsSound(env, top, log);
    assert Follows(env, top, log[..k], log[k]);
  }

  /** Nothing is skipped: what was durable before a run completed had nothing left to call. */
  lemma CompletesWhenDone(env: Env, top: seq<Step>, log: Log, k: nat)
    requires History(env, top, log) && k < |log| && log[k].Saved? && log[k].state.status == Completed
    ensures NextCall(top, Durable(log[..k])) == None
  {
    HistoryIsSound(env, top, log);
    assert Follows(env, top, log[..k], log[k]);
  }

  // ---------- a simple interpreter ----------

  /**
   * Over any history, through every crash, the durable states go the way of a simple interpreter:
   * from one to the next either nothing was done, or the next call was made once more and succeeded,
   * and the state is what that answer leads to.
   */
  lemma FollowsInterpreter(env: Env, top: seq<Step>, log: Log, k: nat)
    requires History(env, top, log) && k < |log| && log[k].Saved? && GoesForward(log[k].state)
    ensures var d, s := Durable(log[..k]), log[k].state;
      || Agrees(top, d, s)
      || (&& k > 0 && log[k - 1].Called? && log[k - 1].reply.Ok? && NextCall(top, d) == Some(log[k - 1].call)
          && Agrees(top, Effect(top, d, log[k - 1].call, log[k - 1].reply), s))
  {
    hide Agrees, Effect, NextCall;
    HistoryIsSound(env, top, log);
    assert Follows(env, top, log[..k], log[k]);
    assert k > 0 ==> log[..k][k - 1] == log[k - 1];
  }

  // ---------- nothing is skipped ----------

  predicate TopDone(top: seq<Step>, s: RunState, j: nat)
    requires j < |top|
  {
    IsCompleted(s, [top[j].name])
  }

  /** Every step of the top level before the next call is completed, and a branch once it is decided. */
  ghost predicate InOrder(top: seq<Step>, s: RunState) {
    var c := NextCall(top, s);
    && (c.None? ==> forall j :: 0 <= j < |top| ==> TopDone(top, s, j))
    && (c.Some? ==> forall i :: 0 <= i < |top| && [top[i].name] <= c.value.path ==>
          && (forall j :: 0 <= j < i ==> TopDone(top, s, j))
          && (top[i].kind.Branch? && c.value != Decide([top[i].name]) ==> TopDone(top, s, i)))
  }

  lemma AgreesInOrder(top: seq<Step>, a: RunState, b: RunState)
    requires InOrder(top, a) && Agrees(top, a, b)
    ensures InOrder(top, b)
  {
    hide NextCall;
    assert forall q :: IsCompleted(b, q) == IsCompleted(a, q);
    assert forall j :: 0 <= j < |top| ==> TopDone(top, b, j) == TopDone(top, a, j);
  }

  lemma FirstInOrder(top: seq<Step>, s: RunState)
    requires top != [] && s.currentPath == [] && DistinctNames(top)
    ensures InOrder(top, s)
  {
    OpeningAtBelow(top, 0, [], s);
    var c := OpeningAt(top, 0, [], s).value;
    forall i | 0 <= i < |top| && [top[i].name] <= c.path ensures i == 0 {
      assert [] + [top[i].name] == [top[i].name];
      SameStep(top, 0, i, [], c.path);
    }
    assert [] + [top[0].name] == [top[0].name];
  }

  /** The answer to a call of the step at i keeps what was completed at the top, and stays at that step. */
  lemma EffectKeeps(top: seq<Step>, d: RunState, call: Call, reply: Reply, i: nat)
    requires reply.Ok? && i < |top| && [top[i].name] <= call.path
    ensures var s := Effect(top, d, call, reply);
      && (s == d || [top[i].name] <= s.currentPath)
      && forall j :: 0 <= j < |top| && TopDone(top, d, j) ==> TopDone(top, s, j)
  {
    hide Retained, FindStep;
    var s, path := Effect(top, d, call, reply), call.path;
    var f := FindStep(top, path);
    if f.Some? && f.value.kind.Repeat? {
      var rs := RepeatAt(d, path);
      DoneAt(f.value, path, d, rs);
      PrefixTransitive([top[i].name], path, path + [Itoa(rs.iteration + 1)]);
      forall j | 0 <= j < |top| && TopDone(top, d, j) ensures TopDone(top, s, j) {
        RetainedKept(f.value, d, path, rs.iteration, [top[j].name]);
        RepeatEffect(f.value, path, d, rs, [top[j].name]);
      }
    } else {
      forall j | 0 <= j < |top| && TopDone(top, d, j) ensures TopDone(top, s, j) {
        CompleteHas(d, path, [top[j].name]);
      }
      if f.Some? && f.value.kind.Branch? {
        forall key: string ensures [top[i].name] <= path + [key] {
          PrefixTransitive([top[i].name], path, path + [key]);
        }
      }
    }
  }

  lemma CompleteHas(d: RunState, path: Path, q: Path)
    ensures IsCompleted(d, q) ==> forall has, at: Path :: IsCompleted(Complete(d, path, has).(currentPath := at), q)
  {
    if IsCompleted(d, q) {
      var k :| 0 <= k < |d.completedSteps| && d.completedSteps[k].path == q;
      forall has, at: Path ensures IsCompleted(Complete(d, path, has).(currentPath := at), q) {
        assert Complete(d, path, has).(currentPath := at).completedSteps[k].path == q;
      }
    }
  }

  lemma RepeatEffect(step: Step, path: Path, d: RunState, rs: RepeatState, q: Path)
    requires step.kind.Repeat? && IsCompleted(Retained(step, d, path, rs.iteration), q)
    ensures IsCompleted(DoneState(step, path, d, rs), q) && IsCompleted(NextState(step, path, d, rs), q)
  {
    hide Retained;
    var kept := Retained(step, d, path, rs.iteration);
    var k :| 0 <= k < |kept.completedSteps| && kept.completedSteps[k].path == q;
    assert DoneState(step, path, d, rs).completedSteps[k].path == q;
    assert NextState(step, path, d, rs).completedSteps[k].path == q;
  }

  lemma StandsAt(top: seq<Step>, i: nat, s: RunState)
    requires DistinctNames(top) && i < |top| && [top[i].name] <= s.currentPath
    ensures var inside := NextOfStep(top[i], [top[i].name], s);
      NextCall(top, s) == if inside.Some? then inside else OpeningAt(top, i + 1, [], s)
  {
    hide NextOfStep, Opening;
    assert s.currentPath[0] == [top[i].name][0];
    assert [] + [top[i].name] == [top[i].name];
    FindSelf(top, i);
  }

  /** The next call of an action or a poll of the top level is its own. */
  lemma LeafCall(top: seq<Step>, d: RunState, call: Call, i: nat)
    requires DistinctNames(top) && NextCall(top, d) == Some(call) && i < |top| && [top[i].name] <= call.path
    requires top[i].kind.Action? || top[i].kind.Poll?
    ensures call.path == [top[i].name]
  {
    assert forall j :: 0 <= j < |top| ==> [] + [top[j].name] == [top[j].name];
    if d.currentPath == [] {
      OpeningAtBelow(top, 0, [], d);
      SameStep(top, 0, i, [], call.path);
    } else {
      var f := Find(top, d.currentPath[0]).value;
      NextOfStepBelow(top[f], [top[f].name], d);
      if NextOfStep(top[f], [top[f].name], d).Some? {
        SameStep(top, f, i, [], call.path);
      } else {
        OpeningAtBelow(top, f + 1, [], d);
        SameStep(top, f + 1, i, [], call.path);
      }
    }
  }

  /** With nothing left to call in the step at i, that step is completed. */
  lemma StepDone(top: seq<Step>, d: RunState, call: Call, reply: Reply, i: nat)
    requires DistinctNames(top) && InOrder(top, d) && NextCall(top, d) == Some(call) && reply.Ok?
    requires i < |top| && [top[i].name] <= call.path
    ensures var s := Effect(top, d, call, reply);
      && (s != d && top[i].kind.Branch? ==> TopDone(top, s, i))
      && (s != d && NextOfStep(top[i], [top[i].name], s) == None ==> TopDone(top, s, i))
  {
    hide NextCall, Retained, DoneState, NextState;
    var s, path := Effect(top, d, call, reply), [top[i].name];
    EffectKeeps(top, d, call, reply, i);
    if top[i].kind.Action? || top[i].kind.Poll? {
      LeafCall(top, d, call, i);
      FindSelf(top, i);
    } else if top[i].kind.Branch? && call == Decide(path) {
      FindSelf(top, i);
      var at := s.currentPath;
      assert s != d ==> s == Complete(d, path, false).(currentPath := at);
      assert Complete(d, path, false).completedSteps[|d.completedSteps|].path == path;
    }
  }

  /** The interpreter completes the steps of the top level one after the other. */
  lemma EffectInOrder(top: seq<Step>, d: RunState, call: Call, reply: Reply)
    requires DistinctNames(top) && InOrder(top, d) && NextCall(top, d) == Some(call) && reply.Ok?
    ensures InOrder(top, Effect(top, d, call, reply))
  {
    hide NextOfStep, Opening, Effect, NextCall, InOrder, IsCompleted;
    var s := Effect(top, d, call, reply);
    assert forall j :: 0 <= j < |top| ==> [] + [top[j].name] == [top[j].name];
    CallHasStep(top, d);
    var i :| 0 <= i < |top| && [top[i].name] <= call.path;
    OrderedAt(top, d, call, i);
    if s != d {
      EffectKeeps(top, d, call, reply, i);
      StepDone(top, d, call, reply, i);
      StandsAt(top, i, s);
      NextOfStepBelow(top[i], [top[i].name], s);
      if NextOfStep(top[i], [top[i].name], s).Some? {
        OrderAt(top, s, i);
      } else if i + 1 < |top| {
        OpeningAtBelow(top, i + 1, [], s);
        BranchOpens(top[i + 1], [top[i + 1].name], s);
        OrderAt(top, s, i + 1);
      } else {
        AllDone(top, s);
      }
    }
  }

  lemma OrderedAt(top: seq<Step>, d: RunState, call: Call, i: nat)
    requires InOrder(top, d) && NextCall(top, d) == Some(call) && i < |top| && [top[i].name] <= call.path
    ensures forall j :: 0 <= j < i ==> TopDone(top, d, j)
    ensures top[i].kind.Branch? && call != Decide([top[i].name]) ==> TopDone(top, d, i)
  {
  }

  lemma AllDone(top: seq<Step>, s: RunState)
    requires NextCall(top, s).None? && forall j :: 0 <= j < |top| ==> TopDone(top, s, j)
    ensures InOrder(top, s)
  {
  }

  lemma OrderAt(top: seq<Step>, s: RunState, i: nat)
    requires DistinctNames(top) && i < |top| && NextCall(top, s).Some? && [top[i].name] <= NextCall(top, s).value.path
    requires forall j :: 0 <= j < i ==> TopDone(top, s, j)
    requires top[i].kind.Branch? && NextCall(top, s).value != Decide([top[i].name]) ==> TopDone(top, s, i)
    ensures InOrder(top, s)
  {
    hide NextCall;
    var c := NextCall(top, s).value;
    forall k | 0 <= k < |top| && [top[k].name] <= c.path ensures k == i {
      assert [] + [top[i].name] == [top[i].name] && [] + [top[k].name] == [top[k].name];
      SameStep(top, i, k, [], c.path);
    }
  }

  lemma BranchOpens(step: Step, path: Path, s: RunState)
    ensures step.kind.Branch? ==> Opening(step, path, s) == Decide(path)
  {
  }

  lemma CallHasStep(top: seq<Step>, d: RunState)
    requires NextCall(top, d).Some?
    ensures exists i :: 0 <= i < |top| && [top[i].name] <= NextCall(top, d).value.path
  {
    NextOfScopeBelow(top, [], d);
    var i :| 0 <= i < |top| && [] + [top[i].name] <= NextCall(top, d).value.path;
    assert [] + [top[i].name] == [top[i].name];
  }

  /** Every durable state that goes forward has the top level done in order. */
  lemma {:induction false} DurableInOrder(env: Env, top: seq<Step>, log: Log, k: nat)
    requires History(env, top, log) && k <= |log|
    requires Durable(log[..k]) == INITIAL || GoesForward(Durable(log[..k]))
    ensures InOrder(top, Durable(log[..k]))
    decreases k
  {
    hide History, InOrder, Agrees, Effect, NextCall;
    assert Valid(top) && DistinctNames(top) by { ValidHistory(env, top, log); }
    if k == 0 {
      FirstInOrder(top, INITIAL);
    } else {
      assert log[..k][..k - 1] == log[..k - 1];
      if log[k - 1].Saved? {
        var before, s := Durable(log[..k - 1]), log[k - 1].state;
        ForwardBefore(env, top, log, k - 1);
        DurableInOrder(env, top, log, k - 1);
        FollowsInterpreter(env, top, log, k - 1);
        if Agrees(top, before, s) {
          AgreesInOrder(top, before, s);
        } else {
          var e := log[k - 2];
          EffectInOrder(top, before, e.call, e.reply);
          AgreesInOrder(top, Effect(top, before, e.call, e.reply), s);
        }
      } else {
        DurableInOrder(env, top, log, k - 1);
      }
    }
  }

  lemma ValidHistory(env: Env, top: seq<Step>, log: Log)
    requires History(env, top, log)
    ensures Valid(top) && DistinctNames(top)
  {
  }

  /** What a forward state follows was going forward too, or the very beginning. */
  lemma ForwardBefore(env: Env, top: seq<Step>, log: Log, k: nat)
    requires History(env, top, log) && k < |log| && log[k].Saved?
    requires log[k].state == INITIAL || GoesForward(log[k].state)
    ensures GoesForward(log[k].state)
    ensures Durable(log[..k]) == INITIAL || GoesForward(Durable(log[..k]))
  {
    hide LogGood, JournalOK, TopPos, RollbackOK;
    HistoryIsGood(env, top, log);
    EventAllowed(top, log, k);
    DurableOK(top, log[..k]);
  }

  /**
   * A run that was saved as completed has every step of the top level in its journal: none was
   * skipped, however often the run crashed on the way.
   */
  lemma CompletedIsDone(env: Env, top: seq<Step>, log: Log, k: nat)
    requires History(env, top, log) && k < |log| && log[k].Saved? && log[k].state.status == Completed
    ensures forall j :: 0 <= j < |top| ==> IsCompleted(log[k].state, [top[j].name])
  {
    hide History, Agrees, Effect, NextCall, GoesForward;
    assert GoesForward(log[k].state) by { CompletedForward(log[k].state); }
    ForwardBefore(env, top, log, k);
    CompletesWhenDone(env, top, log, k);
    DurableInOrder(env, top, log, k);
    FollowsInterpreter(env, top, log, k);
    AgreesInOrder(top, Durable(log[..k]), log[k].state);
    AgreesNext(top, Durable(log[..k]), log[k].state);
    forall j | 0 <= j < |top| ensures IsCompleted(log[k].state, [top[j].name]) {
      assert TopDone(top, log[k].state, j);
    }
  }

  lemma CompletedForward(s: RunState)
    ensures s.status == Completed ==> GoesForward(s)
  {
  }

  lemma AgreesNext(top: seq<Step>, a: RunState, b: RunState)
    requires Agrees(top, a, b)
    ensures NextCall(top, b) == NextCall(top, a)
  {
  }

  // ---------- the step a call belongs to ----------

  /** How the executor builds the path of a step: names, chosen keys, decimal iterations. */
  ghost predicate Addresses(steps: seq<Step>, path: Path, step: Step)
    decreases |path|, 1
  {
    && path != []
    && exists i :: 0 <= i < |steps| && steps[i].name == path[0]
                   && if |path| == 1 then steps[i] == step else AddressesIn(steps[i], path, step)
  }

  ghost predicate AddressesIn(outer: Step, path: Path, step: Step)
    requires path != []
    decreases |path|, 0
  {
    && |path| >= 3
    && match outer.kind
       case Action(_, _) => false
       case Poll(_) => false
       case Branch(paths) =>
         exists k :: 0 <= k < |paths| && paths[k].key == path[1] && Addresses(paths[k].steps, path[2..], step)
       case Repeat(steps, _, _, _) => (exists n: nat :: path[1] == Itoa(n)) && Addresses(steps, path[2..], step)
  }

  lemma KeySelf(paths: seq<BranchPath>, k: nat)
    requires k < |paths| && forall i, j :: 0 <= i < j < |paths| ==> paths[i].key != paths[j].key
    ensures FindKey(paths, paths[k].key) == Some(k)
  {
  }

  /** Looking up a path that was built this way gives back the very step. */
  lemma {:induction false} AddressFound(steps: seq<Step>, path: Path, step: Step)
    requires ValidSteps(steps) && Addresses(steps, path, step)
    ensures FindStep(steps, path) == Some(step)
    decreases |path|
  {
    var i :| 0 <= i < |steps| && steps[i].name == path[0]
             && if |path| == 1 then steps[i] == step else AddressesIn(steps[i], path, step);
    FindSelf(steps, i);
    if |path| > 1 {
      assert ValidStep(steps[i]);
      hide Find, ValidSteps;
      if steps[i].kind.Branch? {
        var paths := steps[i].kind.paths;
        var k :| 0 <= k < |paths| && paths[k].key == path[1] && Addresses(paths[k].steps, path[2..], step);
        KeySelf(paths, k);
        AddressFound(paths[k].steps, path[2..], step);
      } else {
        var n: nat :| path[1] == Itoa(n);
        AtoiItoa(n);
        AddressFound(steps[i].kind.steps, path[2..], step);
      }
    }
  }

  /** step is in a scope of outer that this part of a path stands for. */
  ghost predicate ChildOf(outer: Step, part: string, step: Step) {
    match outer.kind
    case Action(_, _) => false
    case Poll(_) => false
    case Branch(paths) => exists k :: 0 <= k < |paths| && paths[k].key == part && step in paths[k].steps
    case Repeat(steps, _, _, _) => (exists n: nat :: part == Itoa(n)) && step in steps
  }

  lemma {:induction false} AddressChild(steps: seq<Step>, path: Path, outer: Step, part: string, step: Step)
    requires Addresses(steps, path, outer) && ChildOf(outer, part, step)
    ensures Addresses(steps, path + [part] + [step.name], step)
    decreases |path|
  {
    var deeper := path + [part] + [step.name];
    var i :| 0 <= i < |steps| && steps[i].name == path[0]
             && if |path| == 1 then steps[i] == outer else AddressesIn(steps[i], path, outer);
    assert deeper[0] == path[0];
    if |path| == 1 {
      assert deeper[1] == part && deeper[2..] == [step.name];
      OwnAddress(outer, part, step);
    } else {
      assert deeper[1] == path[1] && deeper[2..] == path[2..] + [part] + [step.name];
      if steps[i].kind.Branch? {
        var paths := steps[i].kind.paths;
        var k :| 0 <= k < |paths| && paths[k].key == path[1] && Addresses(paths[k].steps, path[2..], outer);
        AddressChild(paths[k].steps, path[2..], outer, part, step);
      } else {
        AddressChild(steps[i].kind.steps, path[2..], outer, part, step);
      }
    }
    assert AddressesIn(steps[i], deeper, step);
  }

  lemma OwnAddress(outer: Step, part: string, step: Step)
    requires ChildOf(outer, part, step)
    ensures outer.kind.Branch? ==> exists k :: 0 <= k < |outer.kind.paths| && outer.kind.paths[k].key == part
                                                && Addresses(outer.kind.paths[k].steps, [step.name], step)
    ensures outer.kind.Repeat? ==> Addresses(outer.kind.steps, [step.name], step)
  {
    if outer.kind.Branch? {
      var paths := outer.kind.paths;
      var k :| 0 <= k < |paths| && paths[k].key == part && step in paths[k].steps;
      var j :| 0 <= j < |paths[k].steps| && paths[k].steps[j] == step;
      assert Addresses(paths[k].steps, [step.name], step);
    }
  }

  predicate CallOf(call: Call, step: Step) {
    match call
    case Do(_) => step.kind.Action?
    case Check(_) => step.kind.Poll?
    case Decide(_) => step.kind.Branch?
    case Until(_, _) => step.kind.Repeat?
    case Compensate(_) => false
  }

  /** The call is made for a step by the path that addresses it. */
  ghost predicate Names(top: seq<Step>, call: Call) {
    exists step :: Addresses(top, call.path, step) && CallOf(call, step)
  }

  lemma {:induction false} OpeningNames(top: seq<Step>, step: Step, path: Path, s: RunState)
    requires Addresses(top, path, step)
    ensures Names(top, Opening(step, path, s))
    decreases step
  {
    if step.kind.Repeat? && step.kind.steps != [] {
      var child, n := step.kind.steps[0], RepeatAt(s, path).iteration;
      AddressChild(top, path, step, Itoa(n), child);
      OpeningNames(top, child, path + [Itoa(n)] + [child.name], s);
    }
  }

  /** Every step of the scope is addressed by its name after the path of the scope. */
  ghost predicate Addressed(top: seq<Step>, steps: seq<Step>, scope: Path) {
    forall i :: 0 <= i < |steps| ==> Addresses(top, scope + [steps[i].name], steps[i])
  }

  lemma OpeningAtNames(top: seq<Step>, steps: seq<Step>, i: nat, scope: Path, s: RunState)
    requires Addressed(top, steps, scope)
    ensures var c := OpeningAt(steps, i, scope, s); c.Some? ==> Names(top, c.value)
  {
    if i < |steps| {
      OpeningNames(top, steps[i], scope + [steps[i].name], s);
    }
  }

  lemma ChildrenAddressed(top: seq<Step>, path: Path, step: Step, part: string, steps: seq<Step>)
    requires Addresses(top, path, step) && forall i :: 0 <= i < |steps| ==> ChildOf(step, part, steps[i])
    ensures Addressed(top, steps, path + [part])
  {
    forall i | 0 <= i < |steps| ensures Addresses(top, path + [part] + [steps[i].name], steps[i]) {
      AddressChild(top, path, step, part, steps[i]);
    }
  }

  lemma {:induction false} NextOfStepNames(top: seq<Step>, step: Step, path: Path, s: RunState)
    requires Addresses(top, path, step)
    ensures var c := NextOfStep(step, path, s); c.Some? ==> Names(top, c.value)
    decreases step, 0
  {
    hide Addresses;
    OpeningNames(top, step, path, s);
    if |s.currentPath| > |path| {
      match step.kind
      case Action(_, _) =>
      case Poll(_) =>
      case Branch(paths) =>
        var f := FindKey(paths, s.currentPath[|path|]);
        if f.Some? {
          ChildrenAddressed(top, path, step, paths[f.value].key, paths[f.value].steps);
          NextOfScopeNames(top, paths[f.value].steps, path + [paths[f.value].key], s);
        }
      case Repeat(steps, _, _, _) =>
        var n := RepeatAt(s, path).iteration;
        ChildrenAddressed(top, path, step, Itoa(n), steps);
        NextOfScopeNames(top, steps, path + [Itoa(n)], s);
    }
  }

  lemma {:induction false} NextOfScopeNames(top: seq<Step>, steps: seq<Step>, scope: Path, s: RunState)
    requires Addressed(top, steps, scope)
    ensures var c := NextOfScope(steps, scope, s); c.Some? ==> Names(top, c.value)
    decreases steps, 1
  {
    hide Addresses;
    OpeningAtNames(top, steps, 0, scope, s);
    if |s.currentPath| > |scope| {
      var f := Find(steps, s.currentPath[|scope|]);
      if f.Some? {
        NextOfStepNames(top, steps[f.value], scope + [steps[f.value].name], s);
        OpeningAtNames(top, steps, f.value + 1, scope, s);
      }
    }
  }

  /** From any state, what comes next is a call of the very step that its path addresses. */
  lemma NextNames(top: seq<Step>, s: RunState)
    ensures NextCall(top, s).Some? ==> Names(top, NextCall(top, s).value)
  {
    forall i | 0 <= i < |top| ensures Addresses(top, [] + [top[i].name], top[i]) {
      assert ([] + [top[i].name])[0] == top[i].name;
    }
    NextOfScopeNames(top, top, [], s);
  }
}
