/**
 * What the records of repeats look like in any state an execution can reach: an unfinished one lies
 * on the saved path, nothing below a waiting one is unfinished, and the repeats around anything
 * recorded are recorded too.
 */
module Records {
  import opened Options
  import opened Decimal
  import opened Definition
  import opened State
  import opened Executor
  import opened Frames
  import opened Footprint
  import opened Lockstep

  predicate RepeatPath(top: seq<Step>, p: Path) {
    var f := FindStep(top, p);
    f.Some? && f.value.kind.Repeat?
  }

  /** The repeat at p is recorded and not finished. */
  predicate Unfinished(s: RunState, p: Path) {
    p in s.repeatStates && !s.repeatStates[p].completed
  }

  predicate Present(s: RunState, q: Path) {
    IsCompleted(s, q) || q in s.repeatStates
  }

  ghost predicate OnPath(s: RunState) {
    forall p :: Unfinished(s, p) ==> p <= s.currentPath
  }

  /** While a repeat waits for its condition nothing below it is unfinished. */
  ghost predicate Idle(s: RunState) {
    forall p, q :: RepeatAt(s, p).awaitingCondition && p < q ==> !Unfinished(s, q)
  }

  /** With anything at or below a repeat, the repeat is recorded. */
  ghost predicate Rooted(top: seq<Step>, s: RunState) {
    forall p, q :: Present(s, q) && RepeatPath(top, p) && IsPrefix(p, q) ==> p in s.repeatStates
  }

  ghost predicate OnlyRepeats(top: seq<Step>, s: RunState) {
    && (forall p :: p in s.repeatStates ==> RepeatPath(top, p))
    && (forall p :: Unfinished(s, p) ==> !IsCompleted(s, p))
  }

  ghost predicate Sound(env: Env, top: seq<Step>, s: RunState) {
    Clocked(env, s) && OnPath(s) && Idle(s) && Rooted(top, s) && OnlyRepeats(top, s)
  }

  /** The record may have been finished since; until then a started clock is kept. */
  predicate Continues(was: RepeatState, now: RepeatState) {
    was.startedAt.Some? && !now.completed ==> now.startedAt == was.startedAt
  }

  /** Unfinished repeats are still recorded. */
  ghost predicate Remembers(d: RunState, s: RunState) {
    forall p :: Unfinished(d, p) ==> p in s.repeatStates && Continues(d.repeatStates[p], s.repeatStates[p])
  }

  /** In memory no repeat is finished or started before that is saved. */
  ghost predicate Linked(d: RunState, s: RunState) {
    && (forall p :: Unfinished(d, p) ==> Unfinished(s, p))
    && (forall p :: RepeatAt(s, p).startedAt == RepeatAt(d, p).startedAt)
  }

  /** The repeat at p is running the children of the iteration that path leads through. */
  predicate Hosts(s: RunState, p: Path, path: Path)
    requires p < path
  {
    && p in s.repeatStates && !s.repeatStates[p].awaitingCondition
    && path[|p|] == Itoa(s.repeatStates[p].iteration)
  }

  ghost predicate Inside(top: seq<Step>, path: Path, s: RunState) {
    forall p :: p < path && RepeatPath(top, p) ==> Hosts(s, p, path)
  }

  /** The same for a scope, whose own path names no step. */
  ghost predicate Around(top: seq<Step>, scope: Path, s: RunState) {
    Inside(top, scope, s) && !RepeatPath(top, scope)
  }

  ghost predicate NoneBelow(s: RunState, scope: Path) {
    forall p :: Unfinished(s, p) ==> p <= scope
  }

  // ---------- places ----------

  lemma AroundInside(top: seq<Step>, scope: Path, name: string, s: RunState)
    requires Around(top, scope, s)
    ensures Inside(top, scope + [name], s)
  {
    hide RepeatPath;
    var path := scope + [name];
    forall p | p < path && RepeatPath(top, p) ensures Hosts(s, p, path) {
      assert p <= scope && p != scope;
      assert Hosts(s, p, scope) && path[|p|] == scope[|p|];
    }
  }

  lemma InsideAround(top: seq<Step>, scope: Path, part: string, s: RunState)
    requires Inside(top, scope + [part], s)
    ensures Inside(top, scope, s)
  {
    hide RepeatPath;
    var path := scope + [part];
    forall p | p < scope && RepeatPath(top, p) ensures Hosts(s, p, scope) {
      PrefixTransitive(p, scope, path);
      assert Hosts(s, p, path) && path[|p|] == scope[|p|];
    }
  }

  // ---------- states ----------

  lemma LinkedRemembers(d: RunState, s: RunState)
    requires Linked(d, s)
    ensures Remembers(d, s)
  {
    forall p | Unfinished(d, p) ensures p in s.repeatStates && Continues(d.repeatStates[p], s.repeatStates[p]) {
      assert Unfinished(s, p) && RepeatAt(s, p).startedAt == RepeatAt(d, p).startedAt;
    }
  }

  predicate SameFields(s: RunState, s': RunState) {
    && s'.currentPath == s.currentPath && s'.completedSteps == s.completedSteps
    && s'.repeatStates == s.repeatStates && s'.pollStartedAt == s.pollStartedAt
  }

  lemma SameSound(env: Env, top: seq<Step>, d: RunState, s: RunState, s': RunState)
    requires SameFields(s, s')
    ensures Sound(env, top, s) == Sound(env, top, s')
    ensures Remembers(d, s) == Remembers(d, s') && Linked(d, s) == Linked(d, s')
  {
    hide Reading;
    assert forall q :: IsCompleted(s', q) == IsCompleted(s, q) && RepeatAt(s', q) == RepeatAt(s, q)
                       && Unfinished(s', q) == Unfinished(s, q) && Present(s', q) == Present(s, q);
    assert Clocked(env, s) == Clocked(env, s');
    assert OnPath(s) == OnPath(s') && Idle(s) == Idle(s');
    assert Rooted(top, s) == Rooted(top, s') && OnlyRepeats(top, s) == OnlyRepeats(top, s');
  }

  lemma WaitSound(env: Env, top: seq<Step>, d: RunState, s: RunState, started: Option<int>)
    requires Sound(env, top, s) && (started.Some? ==> Reading(env, started.value))
    ensures Sound(env, top, s.(pollStartedAt := started))
    ensures Remembers(d, s) ==> Remembers(d, s.(pollStartedAt := started))
  {
    hide Reading;
    var s' := s.(pollStartedAt := started);
    assert forall q :: IsCompleted(s', q) == IsCompleted(s, q) && RepeatAt(s', q) == RepeatAt(s, q)
                       && Unfinished(s', q) == Unfinished(s, q) && Present(s', q) == Present(s, q);
  }

  /** The saved path moves where all unfinished repeats still lie on it. */
  lemma MoveSound(env: Env, top: seq<Step>, d: RunState, s: RunState, at: Path)
    requires Sound(env, top, s) && NoneBelow(s, at)
    ensures Sound(env, top, s.(currentPath := at))
    ensures Linked(d, s) ==> Linked(d, s.(currentPath := at))
    ensures Remembers(d, s) ==> Remembers(d, s.(currentPath := at))
  {
    hide Reading;
    var s' := s.(currentPath := at);
    assert forall q :: IsCompleted(s', q) == IsCompleted(s, q) && RepeatAt(s', q) == RepeatAt(s, q)
                       && Unfinished(s', q) == Unfinished(s, q) && Present(s', q) == Present(s, q);
  }

  lemma CompleteSound(env: Env, top: seq<Step>, d: RunState, s: RunState, path: Path, has: bool)
    requires Sound(env, top, s) && Inside(top, path, s) && !Unfinished(s, path)
    requires RepeatPath(top, path) ==> path in s.repeatStates
    ensures Sound(env, top, Complete(s, path, has))
    ensures Remembers(d, s) ==> Remembers(d, Complete(s, path, has))
  {
    hide Reading;
    var s' := Complete(s, path, has);
    forall q ensures IsCompleted(s', q) ==> IsCompleted(s, q) || q == path {
      if IsCompleted(s', q) && q != path {
        CompleteKept(q, s, path, has);
      }
    }
    assert forall q :: RepeatAt(s', q) == RepeatAt(s, q) && Unfinished(s', q) == Unfinished(s, q);
    forall p, q | Present(s', q) && RepeatPath(top, p) && IsPrefix(p, q) ensures p in s'.repeatStates {
      assert Present(s, q) || q == path;
      assert p == path || p < path || Present(s, q);
    }
  }

  /** A record for the repeat at path. */
  function Record(s: RunState, path: Path, rs: RepeatState): RunState {
    s.(repeatStates := s.repeatStates[path := rs])
  }

  lemma RecordRooted(top: seq<Step>, s: RunState, path: Path, rs: RepeatState)
    requires Rooted(top, s) && Inside(top, path, s)
    ensures Rooted(top, Record(s, path, rs))
  {
    hide RepeatPath;
    var s' := Record(s, path, rs);
    assert forall q :: IsCompleted(s', q) == IsCompleted(s, q);
    forall p, q | Present(s', q) && RepeatPath(top, p) && IsPrefix(p, q) ensures p in s'.repeatStates {
      assert Present(s, q) || q == path;
      assert q == path ==> p == path || p < path;
    }
  }

  lemma RecordIdle(top: seq<Step>, s: RunState, path: Path, rs: RepeatState)
    requires Idle(s) && OnlyRepeats(top, s) && Inside(top, path, s)
    requires rs.awaitingCondition ==> NoneBelow(s, path)
    ensures Idle(Record(s, path, rs))
  {
    hide RepeatPath;
    var s' := Record(s, path, rs);
    forall p, q | RepeatAt(s', p).awaitingCondition && p < q ensures !Unfinished(s', q) {
      assert q != path ==> Unfinished(s', q) == Unfinished(s, q);
      if p != path {
        assert RepeatAt(s, p).awaitingCondition && p in s.repeatStates;
        assert q == path ==> RepeatPath(top, p);
      }
    }
  }

  lemma RecordSound(env: Env, top: seq<Step>, d: RunState, s: RunState, path: Path, rs: RepeatState)
    requires Sound(env, top, s) && Inside(top, path, s) && RepeatPath(top, path) && path <= s.currentPath
    requires ClockedRecord(env, rs) && (IsCompleted(s, path) ==> rs.completed)
    requires rs.awaitingCondition ==> NoneBelow(s, path)
    requires rs.completed || (!RepeatAt(s, path).completed && Continues(RepeatAt(s, path), rs))
    ensures var s' := Record(s, path, rs);
      && Sound(env, top, s') && Inside(top, path, s')
      && (Remembers(d, s) ==> Remembers(d, s'))
  {
    hide Reading, RepeatPath, Idle, Rooted;
    var s' := Record(s, path, rs);
    RecordRooted(top, s, path, rs);
    RecordIdle(top, s, path, rs);
    assert forall q :: IsCompleted(s', q) == IsCompleted(s, q);
    assert forall q :: q != path ==> RepeatAt(s', q) == RepeatAt(s, q) && Unfinished(s', q) == Unfinished(s, q);
  }

  lemma RecordLinked(d: RunState, s: RunState, path: Path, rs: RepeatState)
    requires Linked(d, s) && rs.startedAt == RepeatAt(s, path).startedAt && !rs.completed
    ensures Linked(d, Record(s, path, rs))
  {
    var s' := Record(s, path, rs);
    assert forall q :: q != path ==> RepeatAt(s', q) == RepeatAt(s, q) && Unfinished(s', q) == Unfinished(s, q);
  }

  lemma RecordBelow(s: RunState, path: Path, rs: RepeatState)
    requires NoneBelow(s, path)
    ensures var s' := Record(s, path, rs);
      NoneBelow(s', path) && (rs.completed ==> forall p :: Unfinished(s', p) ==> p < path)
  {
    var s' := Record(s, path, rs);
    forall q | Unfinished(s', q) ensures q <= path && (rs.completed ==> q < path) {
      assert q != path ==> Unfinished(s, q);
    }
  }

  lemma MovedSame(top: seq<Step>, s: RunState, at: Path, scope: Path)
    ensures var s' := s.(currentPath := at);
      && Inside(top, scope, s') == Inside(top, scope, s) && NoneBelow(s', scope) == NoneBelow(s, scope)
      && forall p :: Unfinished(s', p) == Unfinished(s, p) && IsCompleted(s', p) == IsCompleted(s, p)
  {
    var s' := s.(currentPath := at);
    assert forall p :: Unfinished(s', p) == Unfinished(s, p);
  }

  /** Everything at or below prefix is dropped, and nothing there was unfinished. */
  ghost predicate Trimmed(prefix: Path, s: RunState, s': RunState) {
    && s'.currentPath == s.currentPath && s'.pollStartedAt == s.pollStartedAt
    && (forall q :: !IsPrefix(prefix, q) ==> Kept(q, s, s'))
    && (forall q :: IsPrefix(prefix, q) ==> !Present(s', q) && !Unfinished(s, q))
  }

  lemma TrimmedAt(prefix: Path, s: RunState, s': RunState)
    requires Trimmed(prefix, s, s')
    ensures forall q :: Unfinished(s', q) <==> Unfinished(s, q)
    ensures forall q :: Present(s', q) ==> Present(s, q) && !IsPrefix(prefix, q)
    ensures forall q :: RepeatAt(s', q) == RepeatAt(s, q) || RepeatAt(s', q) == NO_REPEAT
    ensures forall q :: q in s'.repeatStates ==> q in s.repeatStates
    ensures forall q :: IsCompleted(s', q) ==> IsCompleted(s, q)
  {
    forall q
      ensures (Unfinished(s', q) <==> Unfinished(s, q)) && (Present(s', q) ==> Present(s, q) && !IsPrefix(prefix, q))
      ensures RepeatAt(s', q) == RepeatAt(s, q) || RepeatAt(s', q) == NO_REPEAT
      ensures (q in s'.repeatStates ==> q in s.repeatStates) && (IsCompleted(s', q) ==> IsCompleted(s, q))
    {
      if IsPrefix(prefix, q) {
        assert !Present(s', q) && !Unfinished(s, q);
      } else {
        assert Kept(q, s, s');
      }
    }
  }

  lemma TrimmedSound(env: Env, top: seq<Step>, prefix: Path, s: RunState, s': RunState)
    requires Sound(env, top, s) && Trimmed(prefix, s, s')
    ensures Sound(env, top, s')
  {
    hide Reading, RepeatPath;
    TrimmedAt(prefix, s, s');
    TrimmedRooted(top, prefix, s, s');
    hide Trimmed, Present, IsCompleted, Unfinished, RepeatAt;
    assert Clocked(env, s');
    assert Idle(s');
  }

  lemma TrimmedRooted(top: seq<Step>, prefix: Path, s: RunState, s': RunState)
    requires Rooted(top, s) && Trimmed(prefix, s, s')
    ensures Rooted(top, s')
  {
    hide RepeatPath, IsCompleted;
    forall p, q | Present(s', q) && RepeatPath(top, p) && IsPrefix(p, q) ensures p in s'.repeatStates {
      if IsPrefix(prefix, p) {
        PrefixTransitive(prefix, p, q);
      } else {
        assert Kept(q, s, s') && Kept(p, s, s');
        assert Present(s, q);
      }
    }
  }

  lemma RetainedRemembers(step: Step, d: RunState, s: RunState, path: Path, n: nat)
    requires step.kind.Repeat? && NoneBelow(s, path) && Linked(d, s) && Remembers(d, s)
    ensures Remembers(d, Retained(step, s, path, n))
  {
    var prefix := path + [Itoa(n)];
    forall p | Unfinished(d, p) ensures var s' := Retained(step, s, path, n);
      p in s'.repeatStates && Continues(d.repeatStates[p], s'.repeatStates[p])
    {
      assert Unfinished(s, p);
      assert p <= path && |path| < |prefix|;
      RetainedKept(step, s, path, n, p);
    }
  }

  /** Forgetting an iteration in which nothing is unfinished. */
  lemma RetainedSound(env: Env, top: seq<Step>, step: Step, d: RunState, s: RunState, path: Path, n: nat)
    requires step.kind.Repeat? && Sound(env, top, s) && NoneBelow(s, path)
    ensures var s' := Retained(step, s, path, n);
      && Sound(env, top, s') && NoneBelow(s', path) && IsCompleted(s', path) == IsCompleted(s, path)
      && (Inside(top, path, s) ==> Inside(top, path, s'))
      && RepeatAt(s', path) == RepeatAt(s, path) && (path in s'.repeatStates <==> path in s.repeatStates)
      && (Linked(d, s) ==> Remembers(d, s'))
  {
    hide Sound, RepeatPath, Linked;
    if Linked(d, s) {
      LinkedRemembers(d, s);
      RetainedRemembers(step, d, s, path, n);
    }
    var s', prefix := Retained(step, s, path, n), path + [Itoa(n)];
    if step.kind.compact {
      forall q | !IsPrefix(prefix, q) ensures Kept(q, s, s') {
        RetainedKept(step, s, path, n, q);
      }
      forall q | IsPrefix(prefix, q) ensures !Present(s', q) && !Unfinished(s, q) {
        OutsideNone(s.completedSteps, prefix);
        assert |prefix| <= |q| && (Unfinished(s, q) ==> q <= path);
      }
      assert Trimmed(prefix, s, s');
      TrimmedSound(env, top, prefix, s, s');
      TrimmedAt(prefix, s, s');
      assert Kept(path, s, s');
      forall p | p < path ensures Kept(p, s, s') {}
    }
  }

  lemma {:induction false} OutsideNone(cs: seq<CompletedStep>, prefix: Path)
    ensures forall i :: 0 <= i < |Outside(cs, prefix)| ==> !IsPrefix(prefix, Outside(cs, prefix)[i].path)
  {
    if cs != [] {
      OutsideNone(cs[..|cs| - 1], prefix);
    }
  }

  /** The repeat finished: its record is closed and its completion entered. */
  lemma DoneSound(env: Env, top: seq<Step>, step: Step, path: Path, d: RunState, s: RunState, rs: RepeatState)
    requires step.kind.Repeat? && Sound(env, top, s) && NoneBelow(s, path) && Inside(top, path, s)
    requires RepeatPath(top, path) && path <= s.currentPath && path in s.repeatStates
    ensures var s' := DoneState(step, path, s, rs);
      && Sound(env, top, s') && (forall p :: Unfinished(s', p) ==> p < path)
      && (Linked(d, s) ==> Remembers(d, s'))
  {
    hide Sound, Retained, Inside, Linked, Remembers, RepeatPath;
    var kept := Retained(step, s, path, rs.iteration);
    var done := rs.(awaitingCondition := false, completed := true, startedAt := None);
    RetainedSound(env, top, step, d, s, path, rs.iteration);
    DoneAt(step, path, s, rs);
    RecordSound(env, top, d, kept, path, done);
    var closed := Record(kept, path, done);
    RecordBelow(kept, path, done);
    MovedSame(top, closed, path, path);
    MoveSound(env, top, d, closed, path);
    var placed := closed.(currentPath := path);
    assert Unfinished(placed, path) ==> path < path;
    CompleteUnfinished(placed, path);
    CompleteSound(env, top, d, placed, path, false);
  }

  lemma CompleteUnfinished(s: RunState, path: Path)
    ensures forall p :: Unfinished(Complete(s, path, false), p) == Unfinished(s, p)
  {
  }

  lemma NextSound(env: Env, top: seq<Step>, step: Step, path: Path, d: RunState, s: RunState, rs: RepeatState)
    requires step.kind.Repeat? && Sound(env, top, s) && NoneBelow(s, path) && Inside(top, path, s)
    requires RepeatPath(top, path) && path <= s.currentPath && Unfinished(s, path) && rs == s.repeatStates[path]
    ensures var s' := NextState(step, path, s, rs);
      Sound(env, top, s') && (Linked(d, s) ==> Remembers(d, s'))
  {
    hide Sound, Retained, Inside, Linked, Remembers, RepeatPath;
    var kept := Retained(step, s, path, rs.iteration);
    var next := rs.(iteration := rs.iteration + 1, awaitingCondition := false);
    RetainedSound(env, top, step, d, s, path, rs.iteration);
    DoneAt(step, path, s, rs);
    SoundRecord(env, top, s, path);
    RecordSound(env, top, d, kept, path, next);
    var moved := Record(kept, path, next);
    RecordBelow(kept, path, next);
    MoveSound(env, top, d, moved, path + [Itoa(rs.iteration + 1)]);
  }

  lemma SoundRecord(env: Env, top: seq<Step>, s: RunState, path: Path)
    requires Sound(env, top, s)
    ensures ClockedRecord(env, RepeatAt(s, path)) && (Unfinished(s, path) ==> !IsCompleted(s, path))
    ensures path in s.repeatStates ==> RepeatPath(top, path)
  {
  }
}
