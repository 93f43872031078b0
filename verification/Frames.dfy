/**
 * Positions under change: work below one path leaves the rest of a position as it was, so a good
 * position of an inner scope plugs into a good position of the whole tree.
 */
module Frames {
  import opened Options
  import opened Decimal
  import opened Definition
  import opened State
  import opened Executor
  import opened Journal

  lemma PrefixTransitive(outer: Path, inner: Path, q: Path)
    requires outer <= inner
    ensures IsPrefix(inner, q) ==> IsPrefix(outer, q)
  {
    if IsPrefix(inner, q) {
      assert q[..|outer|] == q[..|inner|][..|outer|] == outer;
    }
  }

  lemma PrefixExtend(path: Path, a: string, q: Path)
    ensures path < q && q[|path|] == a ==> IsPrefix(path + [a], q)
  {
    if path < q && q[|path|] == a {
      assert q[..|path| + 1] == path + [a];
    }
  }

  /** From (ever, s) to (ever', s') everything new lies at or below path. */
  ghost predicate FramedBy(path: Path, ever: iset<Path>, s: RunState, ever': iset<Path>, s': RunState) {
    && ever <= ever'
    && (forall q :: q in ever' && q !in ever ==> IsPrefix(path, q))
    && (forall q :: !IsPrefix(path, q) ==>
          && (q in s'.repeatStates <==> q in s.repeatStates)
          && (q in s.repeatStates ==> s'.repeatStates[q] == s.repeatStates[q]))
    && (forall e :: e in s'.completedSteps ==> e in s.completedSteps || IsPrefix(path, e.path))
  }

  /** The same for a scope, whose own path is never recorded. */
  ghost predicate FramedScope(scope: Path, ever: iset<Path>, s: RunState, ever': iset<Path>, s': RunState) {
    FramedBy(scope, ever, s, ever', s') && (scope in ever' ==> scope in ever)
  }

  lemma FrameTransitive(path: Path, e0: iset<Path>, s0: RunState, e1: iset<Path>, s1: RunState,
                        e2: iset<Path>, s2: RunState)
    requires FramedBy(path, e0, s0, e1, s1) && FramedBy(path, e1, s1, e2, s2)
    ensures FramedBy(path, e0, s0, e2, s2)
  {
  }

  lemma FrameWeaken(outer: Path, inner: Path, e0: iset<Path>, s0: RunState, e1: iset<Path>, s1: RunState)
    requires outer <= inner && FramedBy(inner, e0, s0, e1, s1)
    ensures FramedBy(outer, e0, s0, e1, s1)
  {
    forall q | IsPrefix(inner, q) ensures IsPrefix(outer, q) {
      PrefixTransitive(outer, inner, q);
    }
  }

  lemma Component(base: Path, a: string, q: Path)
    requires IsPrefix(base + [a], q)
    ensures |base| < |q| && q[|base|] == a
  {
    assert q[|base|] == (base + [a])[|base|];
  }

  lemma UntouchedKept(base: Path, a: string, b: string, e0: iset<Path>, s0: RunState,
                      e1: iset<Path>, s1: RunState)
    requires a != b && Untouched(e0, s0, base + [b])
    requires FramedBy(base + [a], e0, s0, e1, s1)
    ensures Untouched(e1, s1, base + [b])
  {
    forall p | IsPrefix(base + [b], p) ensures p !in e1 && p !in s1.repeatStates {
      Component(base, b, p);
      if IsPrefix(base + [a], p) {
        Component(base, a, p);
        assert false;
      }
    }
  }

  /** Work at one step leaves the later steps of its scope untouched. */
  lemma LaterKept(steps: seq<Step>, i: nat, parent: Path, e0: iset<Path>, s0: RunState,
                  e1: iset<Path>, s1: RunState)
    requires DistinctNames(steps) && i < |steps|
    requires Later(e0, steps, i + 1, parent, s0)
    requires FramedBy(parent + [steps[i].name], e0, s0, e1, s1)
    ensures Later(e1, steps, i + 1, parent, s1)
  {
    forall j | i + 1 <= j < |steps| ensures Untouched(e1, s1, parent + [steps[j].name]) {
      UntouchedKept(parent, steps[i].name, steps[j].name, e0, s0, e1, s1);
    }
  }

  lemma IterationsKept(path: Path, n: nat, e0: iset<Path>, s0: RunState, e1: iset<Path>, s1: RunState)
    requires LaterIterations(e0, path, n, s0)
    requires FramedBy(path + [Itoa(n)], e0, s0, e1, s1)
    ensures LaterIterations(e1, path, n, s1)
  {
    forall k: nat | n < k ensures Untouched(e1, s1, path + [Itoa(k)]) {
      ItoaInjective(n, k);
      UntouchedKept(path, Itoa(n), Itoa(k), e0, s0, e1, s1);
    }
  }

  lemma UntouchedBelow(ever: iset<Path>, s: RunState, outer: Path, inner: Path)
    requires outer <= inner && Untouched(ever, s, outer)
    ensures Untouched(ever, s, inner)
  {
    forall p | IsPrefix(inner, p) ensures IsPrefix(outer, p) {
      PrefixTransitive(outer, inner, p);
    }
  }

  // ---------- plugs ----------

  /** Any good position of this scope, reached by work below it, is good for the whole tree. */
  ghost predicate ScopePlug(top: seq<Step>, ever: iset<Path>, s: RunState, steps: seq<Step>, scope: Path) {
    forall ever', s' :: FramedScope(scope, ever, s, ever', s') && ScopePos(ever', steps, scope, s')
                        ==> TopPos(ever', top, s')
  }

  ghost predicate StepPlug(top: seq<Step>, ever: iset<Path>, s: RunState, step: Step, path: Path) {
    forall ever', s' :: FramedBy(path, ever, s, ever', s') && path <= s'.currentPath
                        && StepPos(ever', step, path, s')
                        ==> TopPos(ever', top, s')
  }

  lemma ScopePlugKept(top: seq<Step>, steps: seq<Step>, scope: Path, e0: iset<Path>, s0: RunState,
                      e1: iset<Path>, s1: RunState)
    requires ScopePlug(top, e0, s0, steps, scope) && FramedScope(scope, e0, s0, e1, s1)
    ensures ScopePlug(top, e1, s1, steps, scope)
  {
    forall e2, s2 | FramedScope(scope, e1, s1, e2, s2) && ScopePos(e2, steps, scope, s2)
      ensures TopPos(e2, top, s2)
    {
      FrameTransitive(scope, e0, s0, e1, s1, e2, s2);
    }
  }

  lemma StepPlugKept(top: seq<Step>, step: Step, path: Path, e0: iset<Path>, s0: RunState,
                     e1: iset<Path>, s1: RunState)
    requires StepPlug(top, e0, s0, step, path) && FramedBy(path, e0, s0, e1, s1)
    ensures StepPlug(top, e1, s1, step, path)
  {
    forall e2, s2 | FramedBy(path, e1, s1, e2, s2) && path <= s2.currentPath && StepPos(e2, step, path, s2)
      ensures TopPos(e2, top, s2)
    {
      FrameTransitive(path, e0, s0, e1, s1, e2, s2);
    }
  }

  lemma FindSelf(steps: seq<Step>, i: nat)
    requires DistinctNames(steps) && i < |steps|
    ensures Find(steps, steps[i].name) == Some(i)
  {
  }

  lemma StepOfScope(top: seq<Step>, ever: iset<Path>, s: RunState, steps: seq<Step>, i: nat, scope: Path)
    requires DistinctNames(steps) && i < |steps|
    requires ScopePlug(top, ever, s, steps, scope) && Later(ever, steps, i + 1, scope, s)
    ensures StepPlug(top, ever, s, steps[i], scope + [steps[i].name])
  {
    var path := scope + [steps[i].name];
    forall e, s' | FramedBy(path, ever, s, e, s') && path <= s'.currentPath && StepPos(e, steps[i], path, s')
      ensures TopPos(e, top, s')
    {
      FrameWeaken(scope, path, ever, s, e, s');
      LaterKept(steps, i, scope, ever, s, e, s');
      FindSelf(steps, i);
      assert s'.currentPath[|scope|] == path[|scope|];
      assert scope == path[..|scope|] == s'.currentPath[..|path|][..|scope|] == s'.currentPath[..|scope|];
      assert ScopePos(e, steps, scope, s');
    }
  }

  lemma BranchScope(top: seq<Step>, ever: iset<Path>, s: RunState, step: Step, path: Path, k: nat)
    requires step.kind.Branch? && ValidStep(step) && k < |step.kind.paths|
    requires StepPlug(top, ever, s, step, path) && path in ever
    ensures ScopePlug(top, ever, s, step.kind.paths[k].steps, path + [step.kind.paths[k].key])
  {
    var key := step.kind.paths[k].key;
    var scope := path + [key];
    forall e, s' | FramedScope(scope, ever, s, e, s') && ScopePos(e, step.kind.paths[k].steps, scope, s')
      ensures TopPos(e, top, s')
    {
      FrameWeaken(path, scope, ever, s, e, s');
      assert s'.currentPath[|path|] == scope[|path|] == key;
      assert path == scope[..|path|] == s'.currentPath[..|scope|][..|path|] == s'.currentPath[..|path|];
      assert FindKey(step.kind.paths, key) == Some(k);
      assert StepPos(e, step, path, s');
    }
  }

  /** While iteration n runs: the repeat's own record, and where later iterations stand. */
  ghost predicate Iterating(ever: iset<Path>, step: Step, path: Path, s: RunState, n: nat) {
    && step.kind.Repeat?
    && path !in ever
    && path in s.repeatStates && s.repeatStates[path].iteration == n && !s.repeatStates[path].completed
    && path + [Itoa(n)] !in ever
    && LaterIterations(ever, path, n, s)
    && (step.kind.maxIterations > 0 ==> n < step.kind.maxIterations)
    && (step.kind.compact ==> OnlyIteration(s, path, n))
  }

  lemma OnlyIterationKept(path: Path, n: nat, e0: iset<Path>, s0: RunState, e1: iset<Path>, s1: RunState)
    requires OnlyIteration(s0, path, n) && FramedBy(path + [Itoa(n)], e0, s0, e1, s1)
    ensures OnlyIteration(s1, path, n)
  {
    var scope := path + [Itoa(n)];
    forall i | 0 <= i < |s1.completedSteps| && path < s1.completedSteps[i].path
      ensures s1.completedSteps[i].path[|path|] == Itoa(n)
    {
      var e := s1.completedSteps[i];
      assert e in s1.completedSteps;
      if IsPrefix(scope, e.path) {
        assert e.path[|path|] == scope[|path|];
      }
    }
    forall p | p in s1.repeatStates && path < p ensures p[|path|] == Itoa(n) {
      if IsPrefix(scope, p) {
        assert p[|path|] == scope[|path|];
      }
    }
  }

  lemma IteratingKept(step: Step, path: Path, n: nat, e0: iset<Path>, s0: RunState, e1: iset<Path>, s1: RunState)
    requires Iterating(e0, step, path, s0, n) && FramedBy(path + [Itoa(n)], e0, s0, e1, s1)
    requires path + [Itoa(n)] !in e1
    ensures Iterating(e1, step, path, s1, n)
    ensures s1.repeatStates[path] == s0.repeatStates[path]
  {
    IterationsKept(path, n, e0, s0, e1, s1);
    assert !IsPrefix(path + [Itoa(n)], path);
    if step.kind.compact {
      OnlyIterationKept(path, n, e0, s0, e1, s1);
    }
  }

  lemma RepeatScope(top: seq<Step>, ever: iset<Path>, s: RunState, step: Step, path: Path, n: nat)
    requires StepPlug(top, ever, s, step, path) && Iterating(ever, step, path, s, n)
    ensures ScopePlug(top, ever, s, step.kind.steps, path + [Itoa(n)])
  {
    var scope := path + [Itoa(n)];
    forall e, s' | FramedScope(scope, ever, s, e, s') && ScopePos(e, step.kind.steps, scope, s')
      ensures TopPos(e, top, s')
    {
      FrameWeaken(path, scope, ever, s, e, s');
      IteratingKept(step, path, n, ever, s, e, s');
      assert s'.currentPath[|path|] == scope[|path|];
      assert path == scope[..|path|] == s'.currentPath[..|scope|][..|path|] == s'.currentPath[..|path|];
      assert StepPos(e, step, path, s');
    }
  }
}
