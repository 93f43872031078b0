/** What a valid definition is, said of the steps by their addresses rather than by recursion. */
module Wellformed {
  import opened Options
  import opened Decimal
  import opened Definition
  import opened Journal
  import opened Sequence

  /** What validation asks of a step, wherever it stands. */
  ghost predicate Proper(step: Step) {
    && step.name != ""
    && match step.kind
       case Action(_, retry) => retry.Some? ==> retry.value.initialDelay >= 0
       case Poll(maxDuration) => maxDuration >= 0
       case Branch(paths) =>
         && paths != []
         && (forall i, j :: 0 <= i < j < |paths| ==> paths[i].key != paths[j].key)
         && forall k :: 0 <= k < |paths| ==> DistinctNames(paths[k].steps)
       case Repeat(steps, maxIterations, maxDuration, compact) =>
         && maxIterations >= 0 && maxDuration >= 0 && DistinctNames(steps)
         && (compact ==> NoneCompensated(steps))
  }

  /** No address below these steps is that of a compensated action. */
  ghost predicate NoneCompensated(steps: seq<Step>) {
    forall path, step :: Addresses(steps, path, step) ==> !Compensable(step)
  }

  ghost predicate AllProper(steps: seq<Step>) {
    DistinctNames(steps) && forall path, step :: Addresses(steps, path, step) ==> Proper(step)
  }

  // ---------- addresses ----------

  lemma TopAddress(steps: seq<Step>, i: nat)
    requires i < |steps|
    ensures Addresses(steps, [steps[i].name], steps[i])
  {
  }

  /** An address inside a scope of steps[i] is one from the outside, two components longer. */
  lemma InnerAddress(steps: seq<Step>, i: nat, part: string, inner: seq<Step>, path: Path, step: Step)
    requires i < |steps| && Addresses(inner, path, step)
    requires match steps[i].kind
             case Branch(paths) => exists k :: 0 <= k < |paths| && paths[k].key == part && paths[k].steps == inner
             case Repeat(below, _, _, _) => below == inner && part == Itoa(0)
             case _ => false
    ensures Addresses(steps, [steps[i].name, part] + path, step)
  {
    var whole := [steps[i].name, part] + path;
    assert whole[2..] == path && whole[1] == part && whole[0] == steps[i].name;
    assert AddressesIn(steps[i], whole, step);
  }

  // ---------- the compact check ----------

  lemma {:induction false} UncompensatedBelow(steps: seq<Step>, path: Path, step: Step)
    requires NoCompensators(steps) && Addresses(steps, path, step)
    ensures !Compensable(step)
    decreases |path|
  {
    var i :| 0 <= i < |steps| && steps[i].name == path[0]
             && if |path| == 1 then steps[i] == step else AddressesIn(steps[i], path, step);
    assert UncompensatedStep(steps[i]);
    if |path| > 1 {
      match steps[i].kind
      case Branch(paths) =>
        var k :| 0 <= k < |paths| && paths[k].key == path[1] && Addresses(paths[k].steps, path[2..], step);
        UncompensatedBelow(paths[k].steps, path[2..], step);
      case Repeat(inner, _, _, _) => UncompensatedBelow(inner, path[2..], step);
    }
  }

  lemma InnerUncompensated(steps: seq<Step>, i: nat, part: string, inner: seq<Step>)
    requires NoneCompensated(steps) && i < |steps|
    requires match steps[i].kind
             case Branch(paths) => exists k :: 0 <= k < |paths| && paths[k].key == part && paths[k].steps == inner
             case Repeat(below, _, _, _) => below == inner && part == Itoa(0)
             case _ => false
    ensures NoneCompensated(inner)
  {
    forall path, step | Addresses(inner, path, step) ensures !Compensable(step) {
      InnerAddress(steps, i, part, inner, path, step);
    }
  }

  lemma {:induction false} NoneIsNo(steps: seq<Step>)
    requires NoneCompensated(steps)
    ensures NoCompensators(steps)
    decreases steps
  {
    forall i | 0 <= i < |steps| ensures UncompensatedStep(steps[i]) {
      TopAddress(steps, i);
      match steps[i].kind
      case Action(_, _) =>
      case Poll(_) =>
      case Branch(paths) =>
        forall k | 0 <= k < |paths| ensures NoCompensators(paths[k].steps) {
          InnerUncompensated(steps, i, paths[k].key, paths[k].steps);
          NoneIsNo(paths[k].steps);
        }
      case Repeat(inner, _, _, _) =>
        InnerUncompensated(steps, i, Itoa(0), inner);
        NoneIsNo(inner);
    }
  }

  /** The recursive check finds no compensated action exactly when there is none at any address. */
  lemma CompactCheck(steps: seq<Step>)
    ensures NoCompensators(steps) <==> NoneCompensated(steps)
  {
    if NoCompensators(steps) {
      forall path, step | Addresses(steps, path, step) ensures !Compensable(step) {
        UncompensatedBelow(steps, path, step);
      }
    }
    if NoneCompensated(steps) {
      NoneIsNo(steps);
    }
  }

  // ---------- validation ----------

  lemma {:induction false} ProperBelow(steps: seq<Step>, path: Path, step: Step)
    requires ValidSteps(steps) && Addresses(steps, path, step)
    ensures Proper(step)
    decreases |path|
  {
    hide NoneCompensated, NoCompensators;
    var i :| 0 <= i < |steps| && steps[i].name == path[0]
             && if |path| == 1 then steps[i] == step else AddressesIn(steps[i], path, step);
    assert ValidStep(steps[i]);
    if |path| > 1 {
      match steps[i].kind
      case Branch(paths) =>
        var k :| 0 <= k < |paths| && paths[k].key == path[1] && Addresses(paths[k].steps, path[2..], step);
        ProperBelow(paths[k].steps, path[2..], step);
      case Repeat(inner, _, _, _) => ProperBelow(inner, path[2..], step);
    } else if step.kind.Repeat? {
      CompactCheck(step.kind.steps);
    }
  }

  lemma InnerProper(steps: seq<Step>, i: nat, part: string, inner: seq<Step>)
    requires AllProper(steps) && i < |steps| && DistinctNames(inner)
    requires match steps[i].kind
             case Branch(paths) => exists k :: 0 <= k < |paths| && paths[k].key == part && paths[k].steps == inner
             case Repeat(below, _, _, _) => below == inner && part == Itoa(0)
             case _ => false
    ensures AllProper(inner)
  {
    hide Proper;
    forall path, step | Addresses(inner, path, step) ensures Proper(step) {
      InnerAddress(steps, i, part, inner, path, step);
    }
  }

  lemma {:induction false} ProperIsValid(steps: seq<Step>)
    requires AllProper(steps)
    ensures ValidSteps(steps)
    decreases steps
  {
    hide NoneCompensated, NoCompensators;
    forall i | 0 <= i < |steps| ensures steps[i].name != "" && ValidStep(steps[i]) {
      TopAddress(steps, i);
      assert Proper(steps[i]);
      match steps[i].kind
      case Action(_, _) =>
      case Poll(_) =>
      case Branch(paths) =>
        forall k | 0 <= k < |paths| ensures ValidSteps(paths[k].steps) {
          InnerProper(steps, i, paths[k].key, paths[k].steps);
          ProperIsValid(paths[k].steps);
        }
      case Repeat(inner, _, _, _) =>
        CompactCheck(inner);
        InnerProper(steps, i, Itoa(0), inner);
        ProperIsValid(inner);
    }
  }

  /**
   * A definition is valid exactly if it has steps, the names in every scope are distinct, and every step,
   * at whatever depth, has a name, limits that are not negative, a branch some paths, and a compact repeat
   * no compensated action at any address below it.
   */
  lemma ValidMeans(top: seq<Step>)
    ensures Valid(top) <==> top != [] && AllProper(top)
  {
    hide Proper;
    if ValidSteps(top) {
      forall path, step | Addresses(top, path, step) ensures Proper(step) {
        ProperBelow(top, path, step);
      }
    }
    if AllProper(top) {
      ProperIsValid(top);
    }
  }
}
