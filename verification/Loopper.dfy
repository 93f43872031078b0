/**
 * The periodic loop as interleaved steps: calls of tryRun from ticks, Trigger and a leading run, the
 * goroutines they launch, Start, Stop and Wait. A compare-and-swap flag, a mutex and a WaitGroup
 * keep tasks from overlapping and from slipping in after a shutdown.
 */
module Loopper {

  /** A call of tryRun that won the flag, and then the goroutine it launched. */
  datatype Attempt =
    | Claimed      // won the flag, before the mutex
    | Rejected     // saw stopped under the mutex, before giving the flag back
    | Launched     // counted in the WaitGroup, goroutine not yet in the task
    | InTask
    | Finished     // task over, before the flag is given back
    | Released     // flag given back, before Done
    | Over

  /** The ticker goroutine of Start. */
  datatype Ticker = NoTicker | Counted | Ticking | Ended

  /** The Stop call that won: it marked the loop under the mutex, and then cancels what Start had made. */
  datatype Stopping = NotStopped | Marked(cancels: bool) | Returned

  datatype State = State(
    running: bool,
    started: bool,
    stopped: bool,
    cancelled: bool,
    wg: int,
    ticker: Ticker,
    stopping: Stopping,
    attempts: seq<Attempt>)

  const INIT := State(false, false, false, false, 0, NoTicker, NotStopped, [])

  datatype Step =
    | Claims                    // CompareAndSwap(false, true)
    | Enters(k: nat)            // the mutex section of tryRun
    | GivesBack(k: nat)
    | Begins(k: nat)
    | Returns(k: nat)
    | Releases(k: nat)
    | CountsDown(k: nat)
    | Starts                    // the mutex section of Start
    | Ticks                     // the ticker goroutine begins
    | TickerEnds                // it sees the cancelled context
    | Stops                     // the mutex section of Stop
    | StopCancels               // after the mutex, if there was a context to cancel
    | Cancels                   // by the parent context

  predicate At(b: State, k: nat, pc: Attempt) {
    k < |b.attempts| && b.attempts[k] == pc
  }

  predicate Enabled(b: State, step: Step) {
    match step
    case Claims => !b.running
    case Enters(k) => At(b, k, Claimed)
    case GivesBack(k) => At(b, k, Rejected)
    case Begins(k) => At(b, k, Launched)
    case Returns(k) => At(b, k, InTask)
    case Releases(k) => At(b, k, Finished)
    case CountsDown(k) => At(b, k, Released)
    case Starts => !b.started && !b.stopped
    case Ticks => b.ticker.Counted?
    case TickerEnds => b.ticker.Ticking? && b.cancelled
    case Stops => !b.stopped
    case StopCancels => b.stopping.Marked?
    case Cancels => true
  }

  function Move(b: State, k: nat, pc: Attempt): State
    requires k < |b.attempts|
  {
    b.(attempts := b.attempts[k := pc])
  }

  function Apply(b: State, step: Step): State
    requires Enabled(b, step)
  {
    match step
    case Claims => b.(running := true, attempts := b.attempts + [Claimed])
    case Enters(k) => if b.stopped then Move(b, k, Rejected) else Move(b, k, Launched).(wg := b.wg + 1)
    case GivesBack(k) => Move(b, k, Over).(running := false)
    case Begins(k) => Move(b, k, InTask)
    case Returns(k) => Move(b, k, Finished)
    case Releases(k) => Move(b, k, Released).(running := false)
    case CountsDown(k) => Move(b, k, Over).(wg := b.wg - 1)
    case Starts => b.(started := true, wg := b.wg + 1, ticker := Counted)
    case Ticks => b.(ticker := Ticking)
    case TickerEnds => b.(ticker := Ended, wg := b.wg - 1)
    case Stops => b.(stopped := true, stopping := Marked(b.started))
    case StopCancels => b.(stopping := Returned, cancelled := b.cancelled || b.stopping.cancels)
    case Cancels => b.(cancelled := true)
  }

  predicate Execution(states: seq<State>, steps: seq<Step>) {
    && |states| == |steps| + 1 && states[0] == INIT
    && forall n :: 0 <= n < |steps| ==> Enabled(states[n], steps[n]) && states[n + 1] == Apply(states[n], steps[n])
  }

  // ---------- the invariant ----------

  predicate HoldsFlag(pc: Attempt) {
    pc.Claimed? || pc.Rejected? || pc.Launched? || pc.InTask? || pc.Finished?
  }

  predicate InGroup(pc: Attempt) {
    pc.Launched? || pc.InTask? || pc.Finished? || pc.Released?
  }

  function Live(attempts: seq<Attempt>): nat {
    if attempts == [] then 0
    else Live(attempts[..|attempts| - 1]) + if InGroup(attempts[|attempts| - 1]) then 1 else 0
  }

  function TickerLive(b: State): nat {
    if b.ticker.Counted? || b.ticker.Ticking? then 1 else 0
  }

  /** The flag is set exactly while one call holds it, and only one ever does. */
  ghost predicate FlagOK(b: State) {
    && (forall j, k :: 0 <= j < k < |b.attempts| ==> !(HoldsFlag(b.attempts[j]) && HoldsFlag(b.attempts[k])))
    && (b.running <==> exists k :: 0 <= k < |b.attempts| && HoldsFlag(b.attempts[k]))
  }

  /** The WaitGroup counts exactly the live goroutines. */
  predicate GroupOK(b: State) {
    b.wg == Live(b.attempts) + TickerLive(b) && (b.ticker.NoTicker? <==> !b.started)
  }

  lemma {:induction false} LiveMoved(attempts: seq<Attempt>, k: nat, pc: Attempt)
    requires k < |attempts|
    ensures Live(attempts[k := pc])
         == Live(attempts) - (if InGroup(attempts[k]) then 1 else 0) + (if InGroup(pc) then 1 else 0)
  {
    var last := |attempts| - 1;
    if k < last {
      assert attempts[k := pc][..last] == attempts[..last][k := pc];
      LiveMoved(attempts[..last], k, pc);
    } else {
      assert attempts[k := pc][..last] == attempts[..last];
    }
  }

  lemma FlagKept(b: State, step: Step)
    requires FlagOK(b) && Enabled(b, step)
    ensures FlagOK(Apply(b, step))
  {
    var now := Apply(b, step);
    if step.Claims? {
      assert HoldsFlag(now.attempts[|b.attempts|]);
    } else if k :| 0 <= k < |b.attempts| && HoldsFlag(b.attempts[k]) {
      assert HoldsFlag(now.attempts[k]) || now.attempts[k].Over? || now.attempts[k].Released?;
    }
  }

  lemma GroupKept(b: State, step: Step)
    requires GroupOK(b) && Enabled(b, step)
    ensures GroupOK(Apply(b, step))
  {
    match step
    case Claims => assert (b.attempts + [Claimed])[..|b.attempts|] == b.attempts;
    case Enters(k) =>
      LiveMoved(b.attempts, k, Launched);
      LiveMoved(b.attempts, k, Rejected);
    case GivesBack(k) => LiveMoved(b.attempts, k, Over);
    case Begins(k) => LiveMoved(b.attempts, k, InTask);
    case Returns(k) => LiveMoved(b.attempts, k, Finished);
    case Releases(k) => LiveMoved(b.attempts, k, Released);
    case CountsDown(k) => LiveMoved(b.attempts, k, Over);
    case _ =>
  }

  lemma {:induction false} ExecutionInv(states: seq<State>, steps: seq<Step>, n: nat)
    requires Execution(states, steps) && n < |states|
    ensures FlagOK(states[n]) && GroupOK(states[n])
    decreases n
  {
    hide FlagOK, GroupOK, Apply, Enabled;
    if n == 0 {
      InitInv();
    } else {
      ExecutionInv(states, steps, n - 1);
      assert states[n - 1 + 1] == Apply(states[n - 1], steps[n - 1]);
      FlagKept(states[n - 1], steps[n - 1]);
      GroupKept(states[n - 1], steps[n - 1]);
    }
  }

  lemma InitInv()
    ensures FlagOK(INIT) && GroupOK(INIT)
  {
  }

  // ---------- what follows for every interleaving ----------

  /** At most one task body runs at a time. */
  lemma NoOverlap(states: seq<State>, steps: seq<Step>, n: nat, j: nat, k: nat)
    requires Execution(states, steps) && n < |states|
    requires At(states[n], j, InTask) && At(states[n], k, InTask)
    ensures j == k
  {
    ExecutionInv(states, steps, n);
    assert HoldsFlag(states[n].attempts[j]) && HoldsFlag(states[n].attempts[k]);
  }

  /** The WaitGroup never goes negative and counts the launched tasks and the ticker. */
  lemma GroupCounts(states: seq<State>, steps: seq<Step>, n: nat)
    requires Execution(states, steps) && n < |states|
    ensures states[n].wg == Live(states[n].attempts) + TickerLive(states[n]) >= 0
  {
    ExecutionInv(states, steps, n);
  }

  lemma StopStays(b: State, step: Step)
    requires Enabled(b, step) && b.stopped
    ensures Apply(b, step).stopped && Apply(b, step).wg <= b.wg
  {
  }

  /** Once Stop has marked the loop stopped, nothing is added to the WaitGroup, however long it goes on. */
  lemma {:induction false} NoAddAfterStop(states: seq<State>, steps: seq<Step>, m: nat, n: nat)
    requires Execution(states, steps) && m <= n < |states| && states[m].stopped
    ensures states[n].stopped && states[n].wg <= states[m].wg
    decreases n
  {
    hide Apply, Enabled;
    if m < n {
      NoAddAfterStop(states, steps, m, n - 1);
      assert states[n - 1 + 1] == Apply(states[n - 1], steps[n - 1]);
      StopStays(states[n - 1], steps[n - 1]);
    }
  }

  lemma {:induction false} NoneLive(attempts: seq<Attempt>, k: nat)
    requires Live(attempts) == 0 && k < |attempts|
    ensures !InGroup(attempts[k])
  {
    if k < |attempts| - 1 {
      NoneLive(attempts[..|attempts| - 1], k);
    }
  }

  /**
   * A Wait that began after Stop returns at a moment when the loop is stopped and the WaitGroup is
   * at zero. From that moment on no task runs, whoever still calls Trigger or Start.
   */
  lemma QuietAfterWait(states: seq<State>, steps: seq<Step>, m: nat, n: nat, k: nat)
    requires Execution(states, steps) && m <= n < |states|
    requires states[m].stopped && states[m].wg == 0
    ensures states[n].stopped && states[n].wg == 0
    ensures !At(states[n], k, InTask) && !At(states[n], k, Launched)
  {
    hide Apply, Enabled;
    ExecutionInv(states, steps, n);
    NoAddAfterStop(states, steps, m, n);
    if k < |states[n].attempts| {
      NoneLive(states[n].attempts, k);
    }
  }

  /** A cancelled context stays cancelled. */
  lemma {:induction false} CancelledStays(states: seq<State>, steps: seq<Step>, m: nat, n: nat)
    requires Execution(states, steps) && m <= n < |states| && states[m].cancelled
    ensures states[n].cancelled
    decreases n
  {
    if m < n {
      CancelledStays(states, steps, m, n - 1);
      assert states[n - 1 + 1] == Apply(states[n - 1], steps[n - 1]);
    }
  }

  /** What the Stop call that won has marked, and done. */
  predicate StopOK(b: State) {
    && (b.stopping.NotStopped? <==> !b.stopped)
    && (b.stopping.Marked? ==> b.stopping.cancels == b.started)
    && (b.stopping.Returned? && b.started ==> b.cancelled)
  }

  lemma StopKept(b: State, step: Step)
    requires StopOK(b) && Enabled(b, step)
    ensures StopOK(Apply(b, step))
  {
  }

  /**
   * When Stop has returned, a loop that was ever started has its context cancelled, and it stays
   * cancelled: no Start can slip in behind the mark and leave a ticker running.
   */
  lemma {:induction false} StopHasCancelled(states: seq<State>, steps: seq<Step>, n: nat)
    requires Execution(states, steps) && n < |states|
    ensures StopOK(states[n]) && (states[n].stopping.Returned? && states[n].started ==> states[n].cancelled)
    decreases n
  {
    hide Apply, Enabled;
    if n > 0 {
      StopHasCancelled(states, steps, n - 1);
      assert states[n - 1 + 1] == Apply(states[n - 1], steps[n - 1]);
      StopKept(states[n - 1], steps[n - 1]);
    }
  }

  /**
   * A ticker whose context has been cancelled can always end, whatever else goes on; once it has, it
   * never ticks again.
   */
  lemma TickerCanEnd(states: seq<State>, steps: seq<Step>, m: nat, n: nat)
    requires Execution(states, steps) && m <= n < |states| && states[m].cancelled && states[n].ticker.Ticking?
    ensures Enabled(states[n], TickerEnds) && Apply(states[n], TickerEnds).ticker.Ended?
    ensures Apply(states[n], TickerEnds).wg == states[n].wg - 1
  {
    CancelledStays(states, steps, m, n);
  }

  /** A second Start, or one after Stop, does nothing: at most one ticker is ever counted. */
  lemma {:induction false} OneTicker(states: seq<State>, steps: seq<Step>, m: nat, n: nat)
    requires Execution(states, steps) && m < n < |states|
    requires steps[m].Starts?
    ensures n < |steps| ==> !steps[n].Starts?
    ensures states[n].started
    decreases n
  {
    if m + 1 < n {
      OneTicker(states, steps, m, n - 1);
      assert states[n - 1 + 1] == Apply(states[n - 1], steps[n - 1]);
    } else {
      assert states[m + 1] == Apply(states[m], steps[m]);
    }
    assert n < |steps| ==> Enabled(states[n], steps[n]);
  }

  // ---------- the object ----------

  /** The loop's fields, changed by the atomic sections of its methods. */
  class Loop {
    var running: bool
    var started: bool
    var stopped: bool
    var wg: int
    var cancelled: bool
    ghost var history: State

    ghost predicate Valid()
      reads this
    {
      && history.running == running && history.started == started && history.stopped == stopped
      && history.wg == wg && history.cancelled == cancelled
      && FlagOK(history) && GroupOK(history)
    }

    constructor ()
      ensures Valid() && history == INIT
    {
      running, started, stopped, wg, cancelled := false, false, false, 0, false;
      history := INIT;
      new;
      InitInv();
    }

    /** The compare-and-swap that opens tryRun. */
    method Claim() returns (won: bool)
      requires Valid()
      modifies this
      ensures Valid()
      ensures won == !old(running) && running && wg == old(wg) && stopped == old(stopped)
      ensures history == if won then Apply(old(history), Claims) else old(history)
    {
      hide FlagOK, GroupOK;
      won := !running;
      if won {
        running := true;
        FlagKept(history, Claims);
        GroupKept(history, Claims);
        history := Apply(history, Claims);
      }
    }

    /** The rest of tryRun up to the launch: rejected when stopped, else counted. */
    method Enter(ghost k: nat) returns (launched: bool)
      requires Valid() && Enabled(history, Enters(k))
      modifies this
      ensures Valid()
      ensures launched == !old(stopped) && stopped == old(stopped)
      ensures launched ==> running == old(running) && wg == old(wg) + 1
      ensures history == if launched then Apply(old(history), Enters(k))
                         else Apply(Apply(old(history), Enters(k)), GivesBack(k))
      ensures !launched ==> !running && wg == old(wg)
    {
      FlagKept(history, Enters(k));
      GroupKept(history, Enters(k));
      history := Apply(history, Enters(k));
      launched := !stopped;
      if stopped {
        running := false;
        FlagKept(history, GivesBack(k));
        GroupKept(history, GivesBack(k));
        history := Apply(history, GivesBack(k));
      } else {
        wg := wg + 1;
      }
    }

    /** The deferred end of a task goroutine: the flag first, then the WaitGroup. */
    method Finish(ghost k: nat)
      requires Valid() && Enabled(history, Releases(k))
      modifies this
      ensures Valid() && !running && wg == old(wg) - 1
      ensures history == Apply(Apply(old(history), Releases(k)), CountsDown(k))
    {
      FlagKept(history, Releases(k));
      GroupKept(history, Releases(k));
      history := Apply(history, Releases(k));
      running := false;
      FlagKept(history, CountsDown(k));
      GroupKept(history, CountsDown(k));
      history := Apply(history, CountsDown(k));
      wg := wg - 1;
    }

    method Start() returns (first: bool)
      requires Valid()
      modifies this
      ensures Valid()
      ensures first == (!old(started) && !old(stopped)) && stopped == old(stopped) && cancelled == old(cancelled)
      ensures started == (old(started) || first) && wg == old(wg) + if first then 1 else 0
      ensures history == if first then Apply(old(history), Starts) else old(history)
    {
      first := !started && !stopped;
      if first {
        started := true;
        wg := wg + 1;
        FlagKept(history, Starts);
        GroupKept(history, Starts);
        history := Apply(history, Starts);
      }
    }

    /** The context exists once Start has made it; a loop stopped before that has nothing to cancel. */
    method Stop()
      requires Valid()
      modifies this
      ensures Valid() && stopped && started == old(started) && running == old(running) && wg == old(wg)
      ensures cancelled == (old(cancelled) || (started && !old(stopped)))
      ensures history == if old(stopped) then old(history)
                         else Apply(Apply(old(history), Stops), StopCancels)
    {
      if stopped {
        return;
      }
      stopped := true;
      FlagKept(history, Stops);
      GroupKept(history, Stops);
      history := Apply(history, Stops);
      if started {
        cancelled := true;
      }
      FlagKept(history, StopCancels);
      GroupKept(history, StopCancels);
      history := Apply(history, StopCancels);
    }
  }
}
