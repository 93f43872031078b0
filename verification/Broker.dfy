/**
 * The broker as interleaved steps: any number of goroutines inside Subscribe, Unsubscribe, Publish
 * and Stop, consumers that receive, and the one goroutine inside Start. A step is what happens
 * between two points where another goroutine may come in between.
 */
module Broker {

  /** Subscriber channels are named by the order in which they were made, Publish calls likewise. */
  type Chan = nat
  type CallId = nat

  const SUBSCRIBER_BUFFER := 8
  const QUEUE_BUFFER := 16

  /** Messages are named by their position in the publish queue; put is all that ever went in. */
  datatype Channel = Channel(closes: nat, buffered: seq<nat>, put: seq<nat>)

  const FRESH_CHANNEL := Channel(0, [], [])

  datatype Envelope = Envelope(call: CallId, recipients: seq<Chan>)

  /**
   * A Publish call that passed the closed check: the recipients it has ranged over so far. Who was
   * present when the range began and has not left is ranged over before it ends.
   */
  datatype Publishing = Publishing(recipients: seq<Chan>, returned: bool, present: set<Chan>)

  /** Where the Start goroutine is. */
  datatype Loop = Selecting | Broadcasting(position: nat, next: nat) | Sweeping(present: set<Chan>) | Exited

  /** Where the Stop call that won the flag is. */
  datatype Stopping = NotStopped | Flagged | Signalled | Returned

  /**
   * subs, unsubCh, closed as in the program; publishCh is enqueued[taken..]. The history: which
   * channels were ever stored, and which before the closed flag was set.
   */
  datatype State = State(
    chans: seq<Channel>,
    subs: set<Chan>,
    unstored: set<Chan>,
    calls: seq<Publishing>,
    enqueued: seq<Envelope>,
    taken: nat,
    unsubCh: seq<Chan>,
    loop: Loop,
    stopping: Stopping,
    stored: set<Chan>,
    early: set<Chan>)
  {
    predicate Closed() { stopping != NotStopped }
    predicate StopClosed() { stopping == Signalled || stopping == Returned }
    predicate Done() { loop == Exited }
  }

  const INIT := State([], {}, {}, [], [], 0, [], Selecting, NotStopped, {}, {})

  datatype Step =
    | SubscribeMakes                            // passed the closed check, made its channel
    | SubscribeStores(ch: Chan)
    | UnsubscribeQueues(ch: Chan)
    | PublishChecks                             // passed the closed check
    | PublishCollects(call: CallId, ch: Chan)   // the range over subs reaches ch
    | PublishSends(call: CallId)
    | PublishDrops(call: CallId)
    | LoopUnsubscribes
    | LoopTakes
    | LoopSends
    | LoopSelectsStop
    | LoopSweeps(ch: Chan)
    | LoopExits
    | StopFlags
    | StopSignals
    | StopReturns
    | Receives(ch: Chan)

  predicate Ranged(b: State, p: Publishing) {
    forall ch :: ch in p.present ==> ch in p.recipients || ch !in b.subs
  }

  predicate Enabled(b: State, step: Step) {
    match step
    case SubscribeMakes => !b.Closed()
    case SubscribeStores(ch) => ch in b.unstored
    case UnsubscribeQueues(_) => |b.unsubCh| < QUEUE_BUFFER
    case PublishChecks => !b.Closed()
    case PublishCollects(call, ch) =>
      call < |b.calls| && !b.calls[call].returned && ch in b.subs && ch !in b.calls[call].recipients
    case PublishSends(call) =>
      call < |b.calls| && !b.calls[call].returned && b.calls[call].recipients != []
      && Ranged(b, b.calls[call]) && |b.enqueued| - b.taken < QUEUE_BUFFER
    case PublishDrops(call) =>
      && call < |b.calls| && !b.calls[call].returned
      && Ranged(b, b.calls[call]) && (b.calls[call].recipients == [] || b.StopClosed())
    case LoopUnsubscribes => b.loop.Selecting? && b.unsubCh != []
    case LoopTakes => b.loop.Selecting? && b.taken < |b.enqueued|
    case LoopSends => b.loop.Broadcasting?
    case LoopSelectsStop => b.loop.Selecting? && b.StopClosed()
    case LoopSweeps(ch) => b.loop.Sweeping? && ch in b.subs
    case LoopExits => b.loop.Sweeping? && b.loop.present !! b.subs
    case StopFlags => !b.Closed()
    case StopSignals => b.stopping.Flagged?
    case StopReturns => b.stopping.Signalled? && b.Done()
    case Receives(ch) => ch < |b.chans| && b.chans[ch].buffered != []
  }

  /** Claims ch by deleting it, and closes it if that succeeded. */
  function RemoveAndClose(b: State, ch: Chan): State {
    if ch in b.subs && ch < |b.chans| then
      b.(subs := b.subs - {ch}, chans := b.chans[ch := b.chans[ch].(closes := b.chans[ch].closes + 1)])
    else b
  }

  /** Sends without blocking: skipped when the buffer is full; on a closed channel it is forgotten. */
  function SafeSend(b: State, ch: Chan, position: nat): State {
    if ch >= |b.chans| then b
    else if b.chans[ch].closes > 0 then b.(subs := b.subs - {ch})
    else if |b.chans[ch].buffered| < SUBSCRIBER_BUFFER then
      var c := b.chans[ch];
      b.(chans := b.chans[ch := c.(buffered := c.buffered + [position], put := c.put + [position])])
    else b
  }

  function Apply(b: State, step: Step): State
    requires Enabled(b, step)
  {
    match step
    case SubscribeMakes => b.(chans := b.chans + [FRESH_CHANNEL], unstored := b.unstored + {|b.chans|})
    case SubscribeStores(ch) =>
      b.(subs := b.subs + {ch}, unstored := b.unstored - {ch}, stored := b.stored + {ch})
    case UnsubscribeQueues(ch) => b.(unsubCh := b.unsubCh + [ch])
    case PublishChecks => b.(calls := b.calls + [Publishing([], false, b.subs)])
    case PublishCollects(call, ch) =>
      var p := b.calls[call];
      b.(calls := b.calls[call := p.(recipients := p.recipients + [ch])])
    case PublishSends(call) =>
      b.(calls := b.calls[call := b.calls[call].(returned := true)],
         enqueued := b.enqueued + [Envelope(call, b.calls[call].recipients)])
    case PublishDrops(call) => b.(calls := b.calls[call := b.calls[call].(returned := true)])
    case LoopUnsubscribes => RemoveAndClose(b.(unsubCh := b.unsubCh[1..]), b.unsubCh[0])
    case LoopTakes => b.(loop := Broadcasting(b.taken, 0), taken := b.taken + 1)
    case LoopSends =>
      var position, next := b.loop.position, b.loop.next;
      if position < |b.enqueued| && next < |b.enqueued[position].recipients| then
        SafeSend(b, b.enqueued[position].recipients[next], position).(loop := Broadcasting(position, next + 1))
      else b.(loop := Selecting)
    case LoopSelectsStop => b.(loop := Sweeping(b.subs))
    case LoopSweeps(ch) => RemoveAndClose(b, ch)
    case LoopExits => b.(loop := Exited)
    case StopFlags => b.(stopping := Flagged, early := b.stored)
    case StopSignals => b.(stopping := Signalled)
    case StopReturns => b.(stopping := Returned)
    case Receives(ch) => b.(chans := b.chans[ch := b.chans[ch].(buffered := b.chans[ch].buffered[1..])])
  }

  predicate Execution(states: seq<State>, steps: seq<Step>) {
    && |states| == |steps| + 1 && states[0] == INIT
    && forall n :: 0 <= n < |steps| ==> Enabled(states[n], steps[n]) && states[n + 1] == Apply(states[n], steps[n])
  }

  // ---------- the invariant ----------

  predicate Distinct(chs: seq<Chan>) {
    forall i, j :: 0 <= i < j < |chs| ==> chs[i] != chs[j]
  }

  predicate Recipients(b: State, chs: seq<Chan>) {
    Distinct(chs) && forall i :: 0 <= i < |chs| ==> chs[i] in b.stored
  }

  predicate Increasing(s: seq<nat>) {
    forall i, j :: 0 <= i < j < |s| ==> s[i] < s[j]
  }

  predicate IsSuffix(tail: seq<nat>, s: seq<nat>) {
    |tail| <= |s| && tail == s[|s| - |tail|..]
  }

  /** A stored channel is in subs exactly as long as it is open; an unstored one is open. */
  ghost predicate ChannelsOK(b: State) {
    && (forall ch :: ch in b.subs ==> ch in b.stored)
    && (forall ch :: ch in b.stored ==> ch < |b.chans| && b.chans[ch].closes == if ch in b.subs then 0 else 1)
    && (forall ch :: ch in b.unstored ==> ch < |b.chans| && ch !in b.stored && b.chans[ch].closes == 0)
    && (forall ch :: 0 <= ch < |b.chans| ==> ch in b.stored || ch in b.unstored)
  }

  predicate CallsOK(b: State) {
    && (forall k :: 0 <= k < |b.calls| ==> Recipients(b, b.calls[k].recipients))
    && (forall q :: 0 <= q < |b.enqueued| ==>
          && b.enqueued[q].call < |b.calls| && b.calls[b.enqueued[q].call].returned
          && Recipients(b, b.enqueued[q].recipients))
    && (forall q, r :: 0 <= q < r < |b.enqueued| ==> b.enqueued[q].call != b.enqueued[r].call)
    && b.taken <= |b.enqueued|
  }

  /** The message at position may already be in ch: its broadcast got past ch, or is over. */
  predicate MayHave(b: State, ch: Chan, position: nat) {
    && position < b.taken <= |b.enqueued|
    && (b.loop.Broadcasting? && b.loop.position == position ==>
          && b.loop.next <= |b.enqueued[position].recipients|
          && ch in b.enqueued[position].recipients[..b.loop.next])
    && ch in b.enqueued[position].recipients
  }

  /** What went into a channel went in in queue order, at most once, and only if addressed to it. */
  ghost predicate MessagesOK(b: State) {
    && (b.loop.Broadcasting? ==>
          b.loop.position + 1 == b.taken <= |b.enqueued|
          && b.loop.next <= |b.enqueued[b.loop.position].recipients|)
    && forall ch :: 0 <= ch < |b.chans| ==>
         && Increasing(b.chans[ch].put)
         && (forall i :: 0 <= i < |b.chans[ch].put| ==> MayHave(b, ch, b.chans[ch].put[i]))
         && IsSuffix(b.chans[ch].buffered, b.chans[ch].put)
         && |b.chans[ch].buffered| <= SUBSCRIBER_BUFFER
  }

  ghost predicate StopOK(b: State) {
    && (b.loop.Sweeping? || b.loop.Exited? ==> b.StopClosed())
    && (b.stopping.Returned? ==> b.Done())
    && b.early <= b.stored
    && (b.loop.Sweeping? ==> forall ch :: ch in b.early ==> ch in b.loop.present || ch !in b.subs)
    && (b.loop.Exited? ==> forall ch :: ch in b.early ==> ch !in b.subs)
  }

  ghost predicate Inv(b: State) {
    ChannelsOK(b) && CallsOK(b) && MessagesOK(b) && StopOK(b)
  }

  // ---------- every step keeps it ----------

  lemma ChannelsKept(b: State, step: Step)
    requires ChannelsOK(b) && Enabled(b, step)
    ensures ChannelsOK(Apply(b, step))
  {
  }

  /** More channels stored, more calls made, calls only ever returning: recipient lists stay sound. */
  lemma CallsGrow(b: State, now: State)
    requires CallsOK(b) && b.stored <= now.stored && now.enqueued == b.enqueued && b.taken <= now.taken <= |b.enqueued|
    requires |b.calls| <= |now.calls|
    requires forall k :: 0 <= k < |b.calls| ==>
      now.calls[k].recipients == b.calls[k].recipients && (b.calls[k].returned ==> now.calls[k].returned)
    requires forall k :: |b.calls| <= k < |now.calls| ==> now.calls[k].recipients == []
    ensures CallsOK(now)
  {
    forall k | 0 <= k < |now.calls| ensures Recipients(now, now.calls[k].recipients) {
      assert k < |b.calls| ==> Recipients(b, b.calls[k].recipients);
    }
    forall q | 0 <= q < |now.enqueued| ensures Recipients(now, now.enqueued[q].recipients) {
      assert Recipients(b, b.enqueued[q].recipients);
    }
  }

  lemma CollectKeeps(b: State, call: CallId, ch: Chan)
    requires CallsOK(b) && ch in b.stored && Enabled(b, PublishCollects(call, ch))
    ensures CallsOK(Apply(b, PublishCollects(call, ch)))
  {
    var now := Apply(b, PublishCollects(call, ch));
    assert Recipients(b, b.calls[call].recipients);
    forall q | 0 <= q < |now.enqueued| ensures Recipients(now, now.enqueued[q].recipients) {
      assert Recipients(b, b.enqueued[q].recipients);
    }
    forall k | 0 <= k < |now.calls| ensures Recipients(now, now.calls[k].recipients) {
      assert Recipients(b, b.calls[k].recipients);
    }
  }

  lemma SendsKeeps(b: State, call: CallId)
    requires CallsOK(b) && Enabled(b, PublishSends(call))
    ensures CallsOK(Apply(b, PublishSends(call)))
  {
    var now := Apply(b, PublishSends(call));
    assert Recipients(b, b.calls[call].recipients);
    forall k | 0 <= k < |now.calls| ensures Recipients(now, now.calls[k].recipients) {
      assert Recipients(b, b.calls[k].recipients);
    }
    forall q | 0 <= q < |now.enqueued| ensures Recipients(now, now.enqueued[q].recipients) {
      if q < |b.enqueued| {
        assert now.enqueued[q] == b.enqueued[q] && Recipients(b, b.enqueued[q].recipients);
      }
    }
  }

  lemma CallsKept(b: State, step: Step)
    requires ChannelsOK(b) && CallsOK(b) && Enabled(b, step)
    ensures CallsOK(Apply(b, step))
  {
    hide ChannelsOK, CallsOK;
    match step
    case PublishCollects(call, ch) =>
      SubsStored(b, ch);
      CollectKeeps(b, call, ch);
    case PublishSends(call) => SendsKeeps(b, call);
    case _ => 
      assert b.taken <= |b.enqueued| by { TakenInRange(b); }
      CallsGrow(b, Apply(b, step));
  }

  lemma TakenInRange(b: State)
    requires CallsOK(b)
    ensures b.taken <= |b.enqueued|
  {
  }

  lemma SubsStored(b: State, ch: Chan)
    requires ChannelsOK(b) && ch in b.subs
    ensures ch in b.stored
  {
  }

  lemma StopKept(b: State, step: Step)
    requires ChannelsOK(b) && StopOK(b) && Enabled(b, step)
    ensures StopOK(Apply(b, step))
  {
  }

  /** Nothing about messages changed. */
  lemma MessagesSame(b: State, now: State)
    requires MessagesOK(b) && now.enqueued == b.enqueued && now.taken == b.taken && now.loop == b.loop
    requires |now.chans| >= |b.chans|
    requires forall ch :: 0 <= ch < |b.chans| ==>
      now.chans[ch].put == b.chans[ch].put && now.chans[ch].buffered == b.chans[ch].buffered
    requires forall ch :: |b.chans| <= ch < |now.chans| ==> now.chans[ch] == FRESH_CHANNEL
    ensures MessagesOK(now)
  {
    forall ch, i | 0 <= ch < |now.chans| && 0 <= i < |now.chans[ch].put| ensures MayHave(now, ch, now.chans[ch].put[i]) {
      assert MayHave(b, ch, b.chans[ch].put[i]);
    }
  }

  /** The queue grew, or the loop moved on between two messages. */
  lemma MessagesMoved(b: State, now: State)
    requires MessagesOK(b) && CallsOK(b) && now.chans == b.chans && b.enqueued <= now.enqueued
    requires (now.taken == b.taken && now.loop == b.loop)
          || (b.loop.Selecting? && b.taken < |b.enqueued| && now.loop == Broadcasting(b.taken, 0) && now.taken == b.taken + 1)
          || (!now.loop.Broadcasting? && now.taken == b.taken)
    ensures MessagesOK(now)
  {
    forall ch, i | 0 <= ch < |now.chans| && 0 <= i < |now.chans[ch].put| ensures MayHave(now, ch, now.chans[ch].put[i]) {
      assert MayHave(b, ch, b.chans[ch].put[i]);
    }
  }

  lemma SuffixGrows(tail: seq<nat>, s: seq<nat>, x: nat)
    requires IsSuffix(tail, s)
    ensures IsSuffix(tail + [x], s + [x])
  {
  }

  lemma IncreasingGrows(s: seq<nat>, x: nat)
    requires Increasing(s) && forall i :: 0 <= i < |s| ==> s[i] < x
    ensures Increasing(s + [x])
  {
  }

  /** One channel during one send of a broadcast. */
  lemma SendsTo(b: State, ch: Chan)
    requires MessagesOK(b) && CallsOK(b) && b.loop.Broadcasting? && ch < |b.chans|
    requires b.loop.next < |b.enqueued[b.loop.position].recipients|
    ensures var now := Apply(b, LoopSends); var c := now.chans[ch];
      && Increasing(c.put) && (forall i :: 0 <= i < |c.put| ==> MayHave(now, ch, c.put[i]))
      && IsSuffix(c.buffered, c.put) && |c.buffered| <= SUBSCRIBER_BUFFER
  {
    hide Increasing, IsSuffix;
    var now := Apply(b, LoopSends);
    var position, next := b.loop.position, b.loop.next;
    var recipients := b.enqueued[position].recipients;
    assert Recipients(b, recipients);
    var to := recipients[next];
    assert recipients[..next + 1] == recipients[..next] + [to];
    var put, put' := b.chans[ch].put, now.chans[ch].put;
    forall i | 0 <= i < |put| ensures MayHave(now, ch, put[i]) && (ch == to ==> put[i] < position) {
      assert MayHave(b, ch, put[i]);
    }
    if put' != put {
      assert ch == to && put' == put + [position];
      assert to in recipients[..next + 1];
      assert MayHave(now, ch, position);
      SuffixGrows(b.chans[to].buffered, put, position);
      IncreasingGrows(put, position);
    }
  }

  /** One send of a broadcast: the message is new to the channel, and later than all before it. */
  lemma SendKeeps(b: State)
    requires MessagesOK(b) && CallsOK(b) && b.loop.Broadcasting?
    ensures MessagesOK(Apply(b, LoopSends))
  {
    hide CallsOK, MayHave, Increasing, IsSuffix;
    if b.loop.next < |b.enqueued[b.loop.position].recipients| {
      forall ch | 0 <= ch < |b.chans| {
        SendsTo(b, ch);
      }
    } else {
      MessagesMoved(b, Apply(b, LoopSends));
    }
  }

  lemma ReceiveKeeps(b: State, ch: Chan)
    requires MessagesOK(b) && Enabled(b, Receives(ch))
    ensures MessagesOK(Apply(b, Receives(ch)))
  {
    var now := Apply(b, Receives(ch));
    forall c, i | 0 <= c < |now.chans| && 0 <= i < |now.chans[c].put| ensures MayHave(now, c, now.chans[c].put[i]) {
      assert MayHave(b, c, b.chans[c].put[i]);
    }
    var before := b.chans[ch];
    assert before.buffered[1..] == before.put[|before.put| - |before.buffered| + 1..];
  }

  lemma MessagesKept(b: State, step: Step)
    requires MessagesOK(b) && CallsOK(b) && Enabled(b, step)
    ensures MessagesOK(Apply(b, step))
  {
    hide MessagesOK, CallsOK;
    match step
    case LoopSends => SendKeeps(b);
    case Receives(ch) => ReceiveKeeps(b, ch);
    case PublishSends(_) => MessagesMoved(b, Apply(b, step));
    case LoopTakes => MessagesMoved(b, Apply(b, step));
    case LoopSelectsStop => MessagesMoved(b, Apply(b, step));
    case LoopExits => MessagesMoved(b, Apply(b, step));
    case _ => MessagesSame(b, Apply(b, step));
  }

  lemma InvKept(b: State, step: Step)
    requires Inv(b) && Enabled(b, step)
    ensures Inv(Apply(b, step))
  {
    hide ChannelsOK, CallsOK, MessagesOK, StopOK, Apply;
    ChannelsKept(b, step);
    CallsKept(b, step);
    MessagesKept(b, step);
    StopKept(b, step);
  }

  lemma {:induction false} ExecutionInv(states: seq<State>, steps: seq<Step>, n: nat)
    requires Execution(states, steps) && n < |states|
    ensures Inv(states[n])
    decreases n
  {
    hide Inv, Apply, Enabled;
    if n == 0 {
      assert Inv(INIT) by { InitInv(); }
    } else {
      ExecutionInv(states, steps, n - 1);
      assert states[n - 1 + 1] == Apply(states[n - 1], steps[n - 1]);
      InvKept(states[n - 1], steps[n - 1]);
    }
  }

  lemma InitInv()
    ensures Inv(INIT)
  {
  }

  // ---------- what follows for every interleaving ----------

  /** Each subscriber channel is closed at most once, and never while it can still be sent to. */
  lemma ClosedAtMostOnce(states: seq<State>, steps: seq<Step>, n: nat, ch: Chan)
    requires Execution(states, steps) && n < |states| && ch < |states[n].chans|
    ensures states[n].chans[ch].closes <= 1
    ensures ch in states[n].subs ==> states[n].chans[ch].closes == 0
  {
    ExecutionInv(states, steps, n);
    assert ch in states[n].stored || ch in states[n].unstored;
  }

  lemma StepFreezes(b: State, step: Step, ch: Chan)
    requires Enabled(b, step) && ch < |b.chans| && b.chans[ch].closes > 0
    ensures var now := Apply(b, step);
      && ch < |now.chans| && now.chans[ch].closes > 0
      && now.chans[ch].put == b.chans[ch].put && |now.chans[ch].buffered| <= |b.chans[ch].buffered|
  {
  }

  /**
   * Once a channel is closed nothing is put into it any more, even while a recipient list frozen
   * earlier still names it.
   */
  lemma {:induction false} ClosedStaysFrozen(states: seq<State>, steps: seq<Step>, m: nat, n: nat, ch: Chan)
    requires Execution(states, steps) && m <= n < |states|
    requires ch < |states[m].chans| && states[m].chans[ch].closes > 0
    ensures ch < |states[n].chans| && states[n].chans[ch].closes > 0
    ensures states[n].chans[ch].put == states[m].chans[ch].put
    ensures |states[n].chans[ch].buffered| <= |states[m].chans[ch].buffered|
    decreases n
  {
    hide Apply, Enabled;
    if m < n {
      ClosedStaysFrozen(states, steps, m, n - 1, ch);
      assert states[n - 1 + 1] == Apply(states[n - 1], steps[n - 1]);
      StepFreezes(states[n - 1], steps[n - 1], ch);
    }
  }

  /** When Stop has returned, every channel stored before the closed flag was set is closed. */
  lemma StopClosesEarly(states: seq<State>, steps: seq<Step>, n: nat, ch: Chan)
    requires Execution(states, steps) && n < |states| && states[n].stopping.Returned?
    requires ch in states[n].early
    ensures ch < |states[n].chans| && states[n].chans[ch].closes == 1
  {
    ExecutionInv(states, steps, n);
  }

  lemma StepEarly(b: State, step: Step)
    requires Enabled(b, step)
    ensures b.stored <= Apply(b, step).stored
    ensures b.stopping.NotStopped? && !Apply(b, step).stopping.NotStopped? ==> Apply(b, step).early == b.stored
    ensures !b.stopping.NotStopped? ==> !Apply(b, step).stopping.NotStopped? && Apply(b, step).early == b.early
  {
  }

  /** A channel stored while the flag was not yet set counts as stored before it. */
  lemma {:induction false} StoredBeforeFlag(states: seq<State>, steps: seq<Step>, m: nat, n: nat, ch: Chan)
    requires Execution(states, steps) && m <= n < |states|
    requires ch in states[m].stored && states[m].stopping.NotStopped?
    ensures ch in states[n].stored
    ensures !states[n].stopping.NotStopped? ==> ch in states[n].early
    decreases n
  {
    hide Apply, Enabled;
    if m < n {
      StoredBeforeFlag(states, steps, m, n - 1, ch);
      assert states[n - 1 + 1] == Apply(states[n - 1], steps[n - 1]);
      StepEarly(states[n - 1], steps[n - 1]);
    }
  }

  /** Messages reach a channel in queue order, each at most once, and it was one of their recipients. */
  lemma DeliveredInOrder(states: seq<State>, steps: seq<Step>, n: nat, ch: Chan)
    requires Execution(states, steps) && n < |states| && ch < |states[n].chans|
    ensures var b := states[n]; var put := b.chans[ch].put;
      && (forall i, j :: 0 <= i < j < |put| ==> put[i] < put[j])
      && (forall i :: 0 <= i < |put| ==> put[i] < |b.enqueued| && ch in b.enqueued[put[i]].recipients)
      && IsSuffix(b.chans[ch].buffered, put)
  {
    ExecutionInv(states, steps, n);
    forall i | 0 <= i < |states[n].chans[ch].put| ensures MayHave(states[n], ch, states[n].chans[ch].put[i]) {}
  }

  lemma StepQueue(b: State, step: Step, call: CallId)
    requires CallsOK(b) && Enabled(b, step)
    ensures b.enqueued <= Apply(b, step).enqueued && |b.calls| <= |Apply(b, step).calls|
    ensures call < |b.calls| && b.calls[call].returned ==>
      && Apply(b, step).calls[call].returned
      && forall q :: |b.enqueued| <= q < |Apply(b, step).enqueued| ==> Apply(b, step).enqueued[q].call != call
  {
  }

  /** A Publish that has returned never enqueues anything any more. */
  lemma {:induction false} ReturnedIsQueued(states: seq<State>, steps: seq<Step>, m: nat, n: nat, call: CallId)
    requires Execution(states, steps) && m <= n < |states|
    requires call < |states[m].calls| && states[m].calls[call].returned
    ensures states[m].enqueued <= states[n].enqueued
    ensures call < |states[n].calls| && states[n].calls[call].returned
    ensures forall q :: |states[m].enqueued| <= q < |states[n].enqueued| ==> states[n].enqueued[q].call != call
    decreases n
  {
    hide Apply, Enabled, Inv;
    if m < n {
      ReturnedIsQueued(states, steps, m, n - 1, call);
      assert states[n - 1 + 1] == Apply(states[n - 1], steps[n - 1]);
      ExecutionInv(states, steps, n - 1);
      assert CallsOK(states[n - 1]) by { InvCalls(states[n - 1]); }
      StepQueue(states[n - 1], steps[n - 1], call);
      QueueGrows(states[m].enqueued, states[n - 1].enqueued, states[n].enqueued);
    }
  }

  lemma InvCalls(b: State)
    requires Inv(b)
    ensures CallsOK(b)
  {
  }

  lemma QueueGrows(a: seq<Envelope>, b: seq<Envelope>, c: seq<Envelope>)
    requires a <= b && b <= c
    ensures a <= c
  {
    assert a == b[..|a|] == c[..|b|][..|a|] == c[..|a|];
  }

  /**
   * A message whose Publish returned before a subscriber was stored is never put into that
   * subscriber's buffer.
   */
  lemma NoEarlierMessages(states: seq<State>, steps: seq<Step>, m: nat, n: nat, call: CallId, ch: Chan, i: nat)
    requires Execution(states, steps) && m <= n < |states|
    requires call < |states[m].calls| && states[m].calls[call].returned && ch !in states[m].stored
    requires ch < |states[n].chans| && i < |states[n].chans[ch].put|
    ensures states[n].chans[ch].put[i] < |states[n].enqueued|
    ensures states[n].enqueued[states[n].chans[ch].put[i]].call != call
  {
    var b, position := states[n], states[n].chans[ch].put[i];
    DeliveredInOrder(states, steps, n, ch);
    ReturnedIsQueued(states, steps, m, n, call);
    ExecutionInv(states, steps, m);
    forall q | 0 <= q < |states[m].enqueued| ensures ch !in b.enqueued[q].recipients {
      assert states[m].enqueued[q] == b.enqueued[q];
      assert Recipients(states[m], states[m].enqueued[q].recipients);
    }
  }

  /** Messages of one publisher, who publishes one after another, keep their order in the queue. */
  lemma PublisherOrder(states: seq<State>, steps: seq<Step>, m: nat, n: nat, first: nat, second: nat)
    requires Execution(states, steps) && m <= n < |states|
    requires first < |states[n].enqueued| && second < |states[n].enqueued|
    requires var a, b := states[n].enqueued[first].call, states[n].enqueued[second].call;
      a < |states[m].calls| && states[m].calls[a].returned && b >= |states[m].calls|
    ensures first < second
  {
    ReturnedIsQueued(states, steps, m, n, states[n].enqueued[first].call);
    ExecutionInv(states, steps, m);
    assert forall q :: 0 <= q < |states[m].enqueued| ==> states[m].enqueued[q] == states[n].enqueued[q];
  }

  // ---------- the object ----------

  /**
   * The broker's own fields, changed by the atomic sections of its methods. Each section is one step
   * of the state machine, so everything proved above holds whenever sections interleave.
   */
  class Hub {
    var subs: set<Chan>
    var chans: seq<Channel>
    var publishCh: seq<Envelope>
    var unsubCh: seq<Chan>
    var closed: bool
    var stopClosed: bool
    var doneClosed: bool
    var taken: nat        // messages are named by their position in the queue
    var calls: nat        // and Publish calls by the order in which they passed the closed check
    ghost var history: State

    ghost predicate Valid()
      reads this
    {
      && Inv(history)
      && history.subs == subs && history.chans == chans && history.unsubCh == unsubCh
      && taken == history.taken && publishCh == history.enqueued[taken..] && calls == |history.calls|
      && closed == history.Closed() && stopClosed == history.StopClosed() && doneClosed == history.Done()
    }

    constructor ()
      ensures Valid() && history == INIT
    {
      subs, chans, publishCh, unsubCh := {}, [], [], [];
      closed, stopClosed, doneClosed, taken, calls := false, false, false, 0, 0;
      history := INIT;
      new;
      InitInv();
    }

    /** Subscribe up to the new channel; none when the broker is closed. */
    method MakeChannel() returns (made: bool, ch: Chan)
      requires Valid()
      modifies this
      ensures Valid() && made == !old(closed) && ch == |old(chans)| && subs == old(subs)
      ensures chans == if made then old(chans) + [Channel(0, [], [])] else old(chans)
      ensures history == if made then Apply(old(history), SubscribeMakes) else old(history)
    {
      hide Inv, MessagesOK, CallsOK, ChannelsOK, StopOK;
      made, ch := !closed, |chans|;
      if made {
        chans := chans + [FRESH_CHANNEL];
        InvKept(history, SubscribeMakes);
        history := Apply(history, SubscribeMakes);
      }
    }

    method Store(ch: Chan)
      requires Valid() && ch in history.unstored
      modifies this
      ensures Valid() && subs == old(subs) + {ch}
      ensures history == Apply(old(history), SubscribeStores(ch))
    {
      hide Inv;
      subs := subs + {ch};
      InvKept(history, SubscribeStores(ch));
      history := Apply(history, SubscribeStores(ch));
    }

    /** Queues the message of a Publish call with the recipients it collected, or drops it. */
    method Send(call: CallId, recipients: seq<Chan>) returns (queued: bool)
      requires Valid() && call < |history.calls| && !history.calls[call].returned
      requires recipients == history.calls[call].recipients && Ranged(history, history.calls[call])
      requires |publishCh| < QUEUE_BUFFER
      modifies this
      ensures Valid() && queued == (recipients != [])
      ensures publishCh == if queued then old(publishCh) + [Envelope(call, recipients)] else old(publishCh)
      ensures subs == old(subs) && chans == old(chans) && closed == old(closed)
      ensures history == Apply(old(history), if queued then PublishSends(call) else PublishDrops(call))
    {
      hide Inv, MessagesOK, ChannelsOK, StopOK, CallsOK;
      assert history.taken <= |history.enqueued| by { InvCalls(history); TakenInRange(history); }
      queued := recipients != [];
      ghost var step := if queued then PublishSends(call) else PublishDrops(call);
      InvKept(history, step);
      history := Apply(history, step);
      if queued {
        publishCh := publishCh + [Envelope(call, recipients)];
      }
    }

    /**
     * Publish, if nobody interferes: unless the broker is closed or nobody is subscribed, the message is
     * queued for exactly those subscribed, each once.
     */
    method Publish() returns (queued: bool)
      requires Valid() && |publishCh| < QUEUE_BUFFER
      modifies this
      ensures Valid() && queued == (!old(closed) && old(subs) != {})
      ensures subs == old(subs) && chans == old(chans) && closed == old(closed)
      ensures if !queued then publishCh == old(publishCh)
              else
                && |publishCh| == |old(publishCh)| + 1 && publishCh[..|old(publishCh)|] == old(publishCh)
                && Distinct(publishCh[|old(publishCh)|].recipients)
                && forall ch :: ch in publishCh[|old(publishCh)|].recipients <==> ch in old(subs)
    {
      hide Valid, Apply;
      if closed {
        return false;
      }
      var call := PassCheck();
      var recipients: seq<Chan>, left := [], subs;
      while left != {}
        invariant Valid() && subs == old(subs) && chans == old(chans) && closed == old(closed) && publishCh == old(publishCh)
        invariant call < |history.calls| && history.calls[call] == Publishing(recipients, false, subs)
        invariant left <= subs && Distinct(recipients) && forall ch :: ch in recipients <==> ch in subs - left
        decreases |left|
      {
        var ch: Chan :| ch in left;
        Collect(call, ch);
        recipients, left := recipients + [ch], left - {ch};
      }
      assert forall ch :: ch in recipients <==> ch in subs;
      assert recipients != [] <==> subs != {} by {
        assert recipients != [] ==> recipients[0] in subs;
      }
      queued := Send(call, recipients);
    }

    /** The closed check of Publish was passed, and the range over the subscribers begins. */
    method PassCheck() returns (call: CallId)
      requires Valid() && !closed
      modifies this`history, this`calls
      ensures Valid() && history == Apply(old(history), PublishChecks)
      ensures call == |old(history).calls| && history.calls == old(history).calls + [Publishing([], false, subs)]
    {
      hide Inv;
      call, calls := calls, calls + 1;
      InvKept(history, PublishChecks);
      history := Apply(history, PublishChecks);
    }

    ghost method Collect(call: CallId, ch: Chan)
      requires Valid() && ch in subs && call < |history.calls|
      requires !history.calls[call].returned && ch !in history.calls[call].recipients
      modifies this`history
      ensures Valid() && history == Apply(old(history), PublishCollects(call, ch))
      ensures call < |history.calls|
      ensures var was := old(history).calls[call]; history.calls[call] == was.(recipients := was.recipients + [ch])
    {
      hide Inv;
      InvKept(history, PublishCollects(call, ch));
      history := Apply(history, PublishCollects(call, ch));
    }

    method Unsubscribe(ch: Chan)
      requires Valid() && |unsubCh| < QUEUE_BUFFER
      modifies this
      ensures Valid() && unsubCh == old(unsubCh) + [ch]
      ensures history == Apply(old(history), UnsubscribeQueues(ch))
    {
      hide Inv;
      unsubCh := unsubCh + [ch];
      InvKept(history, UnsubscribeQueues(ch));
      history := Apply(history, UnsubscribeQueues(ch));
    }

    /** The Start goroutine serves one request: the channel is closed if it was still subscribed. */
    method RemoveAndClose() returns (ch: Chan)
      requires Valid() && history.loop.Selecting? && unsubCh != []
      modifies this
      ensures Valid() && ch == old(unsubCh)[0] && unsubCh == old(unsubCh)[1..] && subs == old(subs) - {ch}
      ensures |chans| == |old(chans)| && forall c :: 0 <= c < |chans| ==>
        chans[c] == if c == ch && ch in old(subs) then old(chans)[c].(closes := 1) else old(chans)[c]
      ensures history == Apply(old(history), LoopUnsubscribes)
    {
      hide Inv, CallsOK, MessagesOK, StopOK;
      assert ChannelsOK(history) by { InvChannels(history); }
      ch := unsubCh[0];
      unsubCh := unsubCh[1..];
      if ch in subs {
        subs := subs - {ch};
        chans := chans[ch := chans[ch].(closes := chans[ch].closes + 1)];
      }
      InvKept(history, LoopUnsubscribes);
      history := Apply(history, LoopUnsubscribes);
    }

    /** The Start goroutine takes the next message off the queue. */
    method Take() returns (envelope: Envelope, position: nat)
      requires Valid() && history.loop.Selecting? && publishCh != []
      modifies this
      ensures Valid() && history == Apply(old(history), LoopTakes) && history.loop == Broadcasting(position, 0)
      ensures envelope == old(publishCh)[0] && publishCh == old(publishCh)[1..]
      ensures chans == old(chans) && subs == old(subs) && unsubCh == old(unsubCh) && closed == old(closed)
      ensures position < |history.enqueued| && history.enqueued[position] == envelope && Distinct(envelope.recipients)
    {
      hide Inv, CallsOK, MessagesOK, ChannelsOK, StopOK;
      assert taken <= |history.enqueued| by { InvCalls(history); TakenInRange(history); }
      position, envelope := taken, publishCh[0];
      publishCh, taken := publishCh[1..], taken + 1;
      EnvelopeOK(history, position);
      RecipientsDistinct(history, envelope.recipients);
      InvKept(history, LoopTakes);
      history := Apply(history, LoopTakes);
    }

    /** All recipients have been served. */
    ghost method EndBroadcast()
      requires Valid() && history.loop.Broadcasting?
      requires history.loop.position < |history.enqueued|
      requires history.loop.next == |history.enqueued[history.loop.position].recipients|
      modifies this`history
      ensures Valid() && history == Apply(old(history), LoopSends) && history.loop.Selecting?
    {
      hide Inv;
      InvKept(history, LoopSends);
      history := Apply(history, LoopSends);
    }

    /**
     * Takes one message and, if nobody interferes, sends it to each recipient in turn: it goes into
     * every recipient's channel that is open and has room, and nowhere else.
     */
    method Broadcast() returns (envelope: Envelope, position: nat)
      requires Valid() && history.loop.Selecting? && publishCh != []
      modifies this
      ensures Valid() && history.loop.Selecting? && |chans| == |old(chans)|
      ensures envelope == old(publishCh)[0] && publishCh == old(publishCh)[1..]
      ensures subs == old(subs) && unsubCh == old(unsubCh) && closed == old(closed)
      ensures forall ch :: 0 <= ch < |chans| ==>
        var was := old(chans)[ch];
        chans[ch] == if ch in envelope.recipients && was.closes == 0 && |was.buffered| < 8 then
                       Channel(0, was.buffered + [position], was.put + [position])
                     else was
    {
      hide Valid, Received, Apply;
      envelope, position := Take();
      var recipients := envelope.recipients;
      for i := 0 to |recipients|
        invariant Valid() && history.loop == Broadcasting(position, i)
        invariant position < |history.enqueued| && history.enqueued[position] == envelope
        invariant publishCh == old(publishCh)[1..] && |chans| == |old(chans)|
        invariant subs == old(subs) && unsubCh == old(unsubCh) && closed == old(closed)
        invariant forall ch :: 0 <= ch < |chans| ==>
          chans[ch] == if ch in recipients[..i] then Received(old(chans)[ch], position) else old(chans)[ch]
      {
        assert recipients[..i + 1] == recipients[..i] + [recipients[i]];
        assert recipients[i] !in recipients[..i];
        ghost var before := chans;
        SafeSend(recipients[i], position);
        ReceivedAt(before[recipients[i]], position);
      }
      assert recipients[..|recipients|] == recipients;
      EndBroadcast();
      forall ch | 0 <= ch < |chans|
        ensures Received(old(chans)[ch], position) ==
                  var was := old(chans)[ch];
                  if was.closes == 0 && |was.buffered| < 8 then Channel(0, was.buffered + [position], was.put + [position])
                  else was
      {
        ReceivedAt(old(chans)[ch], position);
      }
    }

    /** A send that never blocks; a closed channel is dropped from the subscribers. */
    method SafeSend(ch: Chan, position: nat)
      requires Valid() && history.loop.Broadcasting? && history.loop.position == position < |history.enqueued|
      requires history.loop.next < |history.enqueued[position].recipients|
      requires ch == history.enqueued[position].recipients[history.loop.next]
      modifies this
      ensures Valid() && history == Apply(old(history), LoopSends)
      ensures history.loop == Broadcasting(position, old(history).loop.next + 1) && history.enqueued == old(history).enqueued
      ensures ch < |old(chans)|
      ensures var was := old(chans)[ch];
        chans == if was.closes == 0 && |was.buffered| < 8 then
                   old(chans)[ch := Channel(0, was.buffered + [position], was.put + [position])]
                 else old(chans)
      ensures publishCh == old(publishCh) && taken == old(taken)
      ensures subs == old(subs) && unsubCh == old(unsubCh) && closed == old(closed)
    {
      hide Inv, CallsOK, MessagesOK, StopOK;
      assert ChannelsOK(history) by { InvChannels(history); }
      assert ch < |chans| by { EnvelopeOK(history, position); }
      if chans[ch].closes > 0 {
        subs := subs - {ch};
      } else if |chans[ch].buffered| < SUBSCRIBER_BUFFER {
        var c := chans[ch];
        chans := chans[ch := c.(buffered := c.buffered + [position], put := c.put + [position])];
      }
      InvKept(history, LoopSends);
      history := Apply(history, LoopSends);
    }

    method Sweep(ch: Chan)
      requires Valid() && history.loop.Sweeping? && ch in subs
      modifies this
      ensures Valid() && history == Apply(old(history), LoopSweeps(ch))
      ensures subs == old(subs) - {ch} && ch < |old(chans)| && history.loop == old(history).loop
      ensures chans == old(chans)[ch := old(chans)[ch].(closes := 1)]
    {
      hide Inv, CallsOK, MessagesOK, StopOK;
      assert ChannelsOK(history) by { InvChannels(history); }
      subs := subs - {ch};
      chans := chans[ch := chans[ch].(closes := chans[ch].closes + 1)];
      InvKept(history, LoopSweeps(ch));
      history := Apply(history, LoopSweeps(ch));
    }

    /** Closes every channel still subscribed, in any order, and ends the goroutine. */
    method CloseAllSubscribers()
      requires Valid() && history.loop.Selecting? && stopClosed
      modifies this
      ensures Valid() && doneClosed && subs == {} && |chans| == |old(chans)|
      ensures forall ch :: 0 <= ch < |chans| ==>
        chans[ch] == if ch in old(subs) then old(chans)[ch].(closes := 1) else old(chans)[ch]
    {
      hide Valid, Apply;
      BeginSweep();
      while subs != {}
        invariant Valid() && history.loop == Sweeping(old(subs)) && subs <= old(subs) && |chans| == |old(chans)|
        invariant forall ch :: 0 <= ch < |chans| ==>
          chans[ch] == if ch in old(subs) && ch !in subs then old(chans)[ch].(closes := 1) else old(chans)[ch]
        decreases |subs|
      {
        var ch: Chan :| ch in subs;
        Sweep(ch);
      }
      Exit();
    }

    ghost method BeginSweep()
      requires Valid() && history.loop.Selecting? && stopClosed
      modifies this`history
      ensures Valid() && history == Apply(old(history), LoopSelectsStop) && history.loop == Sweeping(subs)
    {
      hide Inv;
      InvKept(history, LoopSelectsStop);
      history := Apply(history, LoopSelectsStop);
    }

    /** The deferred close of doneCh, when the goroutine has nothing left to close. */
    method Exit()
      requires Valid() && history.loop.Sweeping? && history.loop.present !! subs
      modifies this`history, this`doneClosed
      ensures Valid() && doneClosed && history == Apply(old(history), LoopExits)
    {
      hide Inv;
      doneClosed := true;
      InvKept(history, LoopExits);
      history := Apply(history, LoopExits);
    }

    /** The compare-and-swap of Stop, and the signal to the goroutine. */
    method SignalStop() returns (won: bool)
      requires Valid()
      modifies this
      ensures Valid() && closed && won == !old(closed) && (won ==> stopClosed)
      ensures subs == old(subs) && chans == old(chans) && publishCh == old(publishCh)
      ensures history == if won then Apply(Apply(old(history), StopFlags), StopSignals) else old(history)
    {
      hide Inv;
      won := !closed;
      if won {
        closed := true;
        InvKept(history, StopFlags);
        history := Apply(history, StopFlags);
        stopClosed := true;
        InvKept(history, StopSignals);
        history := Apply(history, StopSignals);
      }
    }
  }

  /** A channel after a message was offered to it without blocking. */
  function Received(c: Channel, position: nat): Channel {
    if c.closes > 0 || |c.buffered| >= SUBSCRIBER_BUFFER then c
    else c.(buffered := c.buffered + [position], put := c.put + [position])
  }

  lemma ReceivedAt(c: Channel, position: nat)
    ensures Received(c, position) ==
      if c.closes == 0 && |c.buffered| < 8 then Channel(0, c.buffered + [position], c.put + [position]) else c
  {
  }

  lemma InvChannels(b: State)
    requires Inv(b)
    ensures ChannelsOK(b)
  {
  }

  lemma EnvelopeOK(b: State, q: nat)
    requires Inv(b) && q < |b.enqueued|
    ensures Recipients(b, b.enqueued[q].recipients)
  {
  }

  lemma RecipientsDistinct(b: State, chs: seq<Chan>)
    requires Recipients(b, chs)
    ensures Distinct(chs)
  {
  }
}
