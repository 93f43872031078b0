/**
 * What a log must look like, event by event: which call may be made after which history, and
 * which state may become durable after which. Every clause looks only backwards, so a log cut
 * anywhere - a crash - still satisfies it.
 */
module Journal {
  import opened Options
  import opened Decimal
  import opened Definition
  import opened State
  import opened Executor

  // ---------- durable progress ----------

  /** s records q as done: a completed step, or a finished iteration of a repeat. */
  ghost predicate Marked(s: RunState, q: Path) {
    || IsCompleted(s, q)
    || (q != [] && q[..|q| - 1] in s.repeatStates
        && exists n: nat :: n < s.repeatStates[q[..|q| - 1]].iteration && q[|q| - 1] == Itoa(n))
  }

  ghost function Marks(s: RunState): iset<Path> {
    iset q | Marked(s, q)
  }

  /** Everything any durable state ever recorded as done, even if compaction dropped it since. */
  ghost function Ever(log: Log): iset<Path> {
    if log == [] then iset{}
    else Ever(log[..|log| - 1])
         + if log[|log| - 1].Saved? then Marks(log[|log| - 1].state) else iset{}
  }

  // ---------- position ----------

  /** Nothing at or below q was ever recorded. */
  ghost predicate Untouched(ever: iset<Path>, s: RunState, q: Path) {
    forall p :: IsPrefix(q, p) ==> p !in ever && p !in s.repeatStates
  }

  ghost predicate Later(ever: iset<Path>, steps: seq<Step>, i: nat, parent: Path, s: RunState) {
    forall j :: i <= j < |steps| ==> Untouched(ever, s, parent + [steps[j].name])
  }

  ghost predicate LaterIterations(ever: iset<Path>, path: Path, n: nat, s: RunState) {
    forall k: nat {:trigger Untouched(ever, s, path + [Itoa(k)])} ::
      n < k ==> Untouched(ever, s, path + [Itoa(k)])
  }

  /** A repeat that has not finished an iteration, with nothing recorded below it. */
  predicate JustEntered(step: Step, rs: RepeatState) {
    && step.kind.Repeat?
    && rs.iteration == 0 && !rs.completed
    && (rs.awaitingCondition ==> step.kind.steps == [])
  }

  ghost predicate Virgin(ever: iset<Path>, step: Step, path: Path, s: RunState) {
    forall p :: IsPrefix(path, p) ==>
      && p !in ever
      && (p in s.repeatStates ==> p == path && JustEntered(step, s.repeatStates[p]))
  }

  /** Below a compact repeat the journal holds only entries of iteration n. */
  ghost predicate OnlyIteration(s: RunState, path: Path, n: nat) {
    && (forall i :: 0 <= i < |s.completedSteps| && path < s.completedSteps[i].path
          ==> s.completedSteps[i].path[|path|] == Itoa(n))
    && (forall p :: p in s.repeatStates && path < p ==> p[|path|] == Itoa(n))
  }

  ghost predicate NothingBelow(s: RunState, path: Path) {
    && (forall i :: 0 <= i < |s.completedSteps| ==> !(path < s.completedSteps[i].path))
    && (forall p :: p in s.repeatStates ==> !(path < p))
  }

  /** The saved path leads into one of these steps, and all later steps are untouched. */
  ghost predicate ScopePos(ever: iset<Path>, steps: seq<Step>, parent: Path, s: RunState)
    decreases steps, 1
  {
    && parent < s.currentPath
    && var f := Find(steps, s.currentPath[|parent|]);
    && f.Some?
    && Later(ever, steps, f.value + 1, parent, s)
    && StepPos(ever, steps[f.value], parent + [steps[f.value].name], s)
  }

  ghost predicate StepPos(ever: iset<Path>, step: Step, path: Path, s: RunState)
    decreases step, 0
  {
    if |s.currentPath| <= |path| then
      if IsCompleted(s, path) then
        step.kind.Repeat? && step.kind.compact ==> NothingBelow(s, path)
      else Virgin(ever, step, path, s)
    else
      match step.kind
      case Action(_, _) => false
      case Poll(_) => false
      case Branch(paths) =>
        && path in ever
        && var k := FindKey(paths, s.currentPath[|path|]);
        && k.Some?
        && ChildPos(ever, paths[k.value].steps, path + [paths[k.value].key], s)
      case Repeat(steps, maxIterations, _, compact) =>
        && path !in ever
        && path in s.repeatStates
        && InProgress(ever, step, path, s, s.repeatStates[path])
        && (s.repeatStates[path].awaitingCondition
            || ChildPos(ever, steps, path + [Itoa(s.repeatStates[path].iteration)], s))
  }

  ghost predicate InProgress(ever: iset<Path>, step: Step, path: Path, s: RunState, rs: RepeatState)
    requires step.kind.Repeat?
    requires |s.currentPath| > |path|
  {
    && !rs.completed
    && s.currentPath[|path|] == Itoa(rs.iteration)
    && path + [Itoa(rs.iteration)] !in ever
    && LaterIterations(ever, path, rs.iteration, s)
    && (step.kind.maxIterations > 0 ==> rs.iteration < step.kind.maxIterations)
    && (step.kind.compact ==> OnlyIteration(s, path, rs.iteration))
  }

  ghost predicate ChildPos(ever: iset<Path>, steps: seq<Step>, scope: Path, s: RunState)
    decreases steps, 2
  {
    if |s.currentPath| <= |scope| then Untouched(ever, s, scope) else ScopePos(ever, steps, scope, s)
  }

  ghost predicate TopPos(ever: iset<Path>, top: seq<Step>, s: RunState) {
    if s.currentPath == [] then Later(ever, top, 0, [], s) else ScopePos(ever, top, [], s)
  }

  // ---------- durable states ----------

  predicate Compensable(step: Step) {
    step.kind.Action? && step.kind.compensated
  }

  /** Each entry names a step of the definition, at most once, with the right compensator flag. */
  ghost predicate JournalOK(top: seq<Step>, cs: seq<CompletedStep>) {
    && (forall i, j :: 0 <= i < j < |cs| ==> cs[i].path != cs[j].path)
    && (forall i :: 0 <= i < |cs| ==> EntryOK(top, cs[i]))
  }

  ghost predicate EntryOK(top: seq<Step>, e: CompletedStep) {
    && FindStep(top, e.path).Some?
    && (e.hasCompensator <==> Compensable(FindStep(top, e.path).value))
  }

  ghost predicate StateOK(top: seq<Step>, ever: iset<Path>, s: RunState) {
    && s.status != New
    && JournalOK(top, s.completedSteps)
    && (s.status == Running || s.status == Polling ==> TopPos(ever, top, s))
    && (s.status == Compensating ==> -1 <= s.compensationIndex < |s.completedSteps|)
    && (s.status == Failed ==> s.compensationIndex == -1)
  }

  /** The compensator paths of a journal, latest completion first: the rollback order. */
  function Undo(cs: seq<CompletedStep>): seq<Path> {
    if cs == [] then []
    else (if cs[|cs| - 1].hasCompensator then [cs[|cs| - 1].path] else []) + Undo(cs[..|cs| - 1])
  }

  /** What is still to be compensated in s. */
  function Pending(s: RunState): seq<Path> {
    if s.status == Compensating && -1 <= s.compensationIndex < |s.completedSteps| then
      Undo(s.completedSteps[..s.compensationIndex + 1])
    else []
  }

  /** Compensations whose success was made durable, in order: the snapshot after the call drops it. */
  function Recorded(log: Log): seq<Path> {
    if log == [] then []
    else
      var before, e := log[..|log| - 1], log[|log| - 1];
      Recorded(before) + if e.Saved? then Records(before, e.state) else []
  }

  function Records(before: Log, s: RunState): seq<Path> {
    if before != [] && before[|before| - 1].Called? && before[|before| - 1].call.Compensate?
       && before[|before| - 1].reply.Ok? && |Pending(s)| < |Pending(Durable(before))|
    then [before[|before| - 1].call.path]
    else []
  }

  /** Recorded compensations followed by the pending ones are the whole rollback; none before. */
  predicate RollbackOK(recorded: seq<Path>, s: RunState) {
    if s.status == Compensating || s.status == Failed then
      recorded + Pending(s) == Undo(s.completedSteps)
    else recorded == []
  }

  predicate CompactAt(top: seq<Step>, path: Path) {
    var f := FindStep(top, path);
    f.Some? && f.value.kind.Repeat? && f.value.kind.compact
  }

  /**
   * One durable repeat position after another: the iteration rises by one, and only on a not-done
   * answer; the clock is kept until completion; a compact repeat leaves nothing behind.
   */
  ghost predicate RepeatStep(top: seq<Step>, before: RunState, s: RunState, log: Log, p: Path)
    requires p in s.repeatStates
  {
    var was, now := RepeatAt(before, p), s.repeatStates[p];
    && (now.iteration == was.iteration || NotDoneStep(top, was, s, log, p))
    && (was.startedAt.Some? && !now.completed ==> now.startedAt == was.startedAt)
    && (now.completed && !was.completed ==> CompletesRepeat(top, s, log, p))
  }

  ghost predicate CompletesRepeat(top: seq<Step>, s: RunState, log: Log, p: Path)
    requires p in s.repeatStates
  {
    && s.repeatStates[p].startedAt == None && s.currentPath == p
    && s.completedSteps != [] && s.completedSteps[|s.completedSteps| - 1] == CompletedStep(p, false)
    && log != [] && log[|log| - 1].Called? && log[|log| - 1].call.Until? && log[|log| - 1].call.path == p
    && (CompactAt(top, p) ==> NothingBelow(s, p))
  }

  ghost predicate NotDoneStep(top: seq<Step>, was: RepeatState, s: RunState, log: Log, p: Path)
    requires p in s.repeatStates
  {
    && s.repeatStates[p].iteration == was.iteration + 1
    && log != [] && log[|log| - 1].Called? && log[|log| - 1].call == Until(p, was.iteration)
    && log[|log| - 1].reply.Ok? && !log[|log| - 1].reply.done
    && (CompactAt(top, p) ==> NothingBelow(s, p) && !IsCompleted(s, p))
  }

  /** The saved path is at or below p, where p is one of the places that can hold others. */
  predicate Encloses(s: RunState, p: Path) {
    p < s.currentPath || (p == s.currentPath && p in s.repeatStates)
  }

  /** Around the saved path the journal is what it was. */
  ghost predicate SameOutside(cs: seq<CompletedStep>, s: RunState) {
    forall p :: Encloses(s, p) ==> Outside(s.completedSteps, p) == Outside(cs, p)
  }

  /** Which state may become durable after before; log is the history up to the snapshot. */
  ghost predicate Successor(top: seq<Step>, before: RunState, s: RunState, log: Log) {
    && s.revision == before.revision + 1
    && !before.IsTerminal()
    && (before.status == Compensating ==>
          && (s.status == Compensating || s.status == Failed)
          && s.completedSteps == before.completedSteps
          && s.compensationIndex <= before.compensationIndex)
    && (s.status == Failed ==> before.status == Compensating)
    && (s.status == Running || s.status == Polling || s.status == Completed ==>
          && SameOutside(before.completedSteps, s)
          && (forall p :: p in s.repeatStates ==> RepeatStep(top, before, s, log, p)))
  }

  // ---------- calls ----------

  /** Since the last successful snapshot only the step at path called anything. */
  predicate Ahead(log: Log, path: Path) {
    log != []
    && var e := log[|log| - 1];
    (e.Saved?
     || ((e.Slept? || (e.Called? && e.call.path == path)) && Ahead(log[..|log| - 1], path)))
  }

  predicate RightKind(call: Call, step: Step) {
    match call
    case Do(_) => step.kind.Action?
    case Check(_) => step.kind.Poll?
    case Decide(_) => step.kind.Branch?
    case Until(_, n) =>
      step.kind.Repeat? && (step.kind.maxIterations > 0 ==> n < step.kind.maxIterations)
    case Compensate(_) => Compensable(step)
  }

  ghost predicate CallOK(top: seq<Step>, log: Log, call: Call) {
    var d := Durable(log);
    && Ahead(log, call.path)
    && FindStep(top, call.path).Some? && RightKind(call, FindStep(top, call.path).value)
    && if call.Compensate? then
         d.status == Compensating && Pending(d) != [] && Pending(d)[0] == call.path
       else
         && d.status == Running && call.path !in Ever(log)
         && (call.Until? ==>
               && call.iteration == RepeatAt(d, call.path).iteration
               && call.path + [Itoa(call.iteration)] !in Ever(log))
  }

  ghost predicate Allowed(top: seq<Step>, log: Log, e: Event) {
    match e
    case Called(call, _) => CallOK(top, log, call)
    case Saved(s) =>
      && StateOK(top, Ever(log + [e]), s)
      && Successor(top, Durable(log), s, log)
      && RollbackOK(Recorded(log + [e]), s)
    case Refused(_) => true
    case Slept(_) => true
  }

  ghost predicate LogGood(top: seq<Step>, log: Log) {
    log == [] || (LogGood(top, log[..|log| - 1]) && Allowed(top, log[..|log| - 1], log[|log| - 1]))
  }

  // ---------- logs grow at the end ----------

  lemma LogsGrow(a: Log, b: Log, c: Log)
    requires a <= b && b <= c
    ensures a <= c
  {
    assert a == b[..|a|] == c[..|b|][..|a|] == c[..|a|];
  }

  lemma Append(log: Log, e: Event)
    ensures Durable(log + [e]) == if e.Saved? then e.state else Durable(log)
    ensures Ever(log + [e]) == if e.Saved? then Ever(log) + Marks(e.state) else Ever(log)
    ensures Recorded(log + [e]) == Recorded(log) + if e.Saved? then Records(log, e.state) else []
  {
    assert (log + [e])[..|log|] == log;
  }

  lemma AppendGood(top: seq<Step>, log: Log, e: Event)
    requires LogGood(top, log) && Allowed(top, log, e)
    ensures LogGood(top, log + [e])
  {
    assert (log + [e])[..|log|] == log;
  }

  lemma {:induction false} PrefixGood(top: seq<Step>, log: Log, cut: nat)
    requires LogGood(top, log) && cut <= |log|
    ensures LogGood(top, log[..cut])
  {
    if cut < |log| {
      PrefixGood(top, log[..|log| - 1], cut);
      assert log[..|log| - 1][..cut] == log[..cut];
    } else {
      assert log[..cut] == log;
    }
  }

  /** Every event of a good log was allowed when it happened. */
  lemma EventAllowed(top: seq<Step>, log: Log, k: nat)
    requires LogGood(top, log) && k < |log|
    ensures LogGood(top, log[..k]) && Allowed(top, log[..k], log[k])
  {
    PrefixGood(top, log, k + 1);
    assert log[..k + 1][..k] == log[..k];
  }

  lemma {:induction false} EverMonotone(log: Log, cut: nat)
    requires cut <= |log|
    ensures Ever(log[..cut]) <= Ever(log)
  {
    if cut < |log| {
      EverMonotone(log[..|log| - 1], cut);
      assert log[..|log| - 1][..cut] == log[..cut];
    } else {
      assert log[..cut] == log;
    }
  }

  /** What a good log says about the state a restart would load. */
  lemma {:induction false} DurableOK(top: seq<Step>, log: Log)
    requires LogGood(top, log)
    ensures RollbackOK(Recorded(log), Durable(log))
    ensures Marks(Durable(log)) <= Ever(log)
    ensures (Durable(log) == INITIAL && Ever(log) == iset{}) || StateOK(top, Ever(log), Durable(log))
  {
    hide Records, TopPos, JournalOK, Successor, CallOK;
    if log != [] {
      var before, e := log[..|log| - 1], log[|log| - 1];
      DurableOK(top, before);
      assert log == before + [e];
      Append(before, e);
    } else {
      assert Marks(INITIAL) == iset{} by {
        forall q ensures !Marked(INITIAL, q) {}
      }
    }
  }
}
