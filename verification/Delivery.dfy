/**
 * What the broker delivers, in every interleaving: a message published while a subscriber was stored is
 * addressed to it, and what is addressed to a channel is put into it, unless the channel was closed or
 * full at the very send that was meant for it.
 */
module Delivery {
  import opened Broker

  // ---------- who is addressed ----------

  /** A Publish call remembers who was subscribed when it passed the closed check, and forgets no recipient. */
  lemma StepRemembers(b: State, step: Step, call: CallId)
    requires Enabled(b, step) && call < |b.calls|
    ensures call < |Apply(b, step).calls| && Apply(b, step).calls[call].present == b.calls[call].present
    ensures b.calls[call].recipients <= Apply(b, step).calls[call].recipients
  {
  }

  lemma {:induction false} Remembers(states: seq<State>, steps: seq<Step>, m: nat, n: nat, call: CallId)
    requires Execution(states, steps) && m <= n < |states| && call < |states[m].calls|
    ensures call < |states[n].calls| && states[n].calls[call].present == states[m].calls[call].present
    decreases n
  {
    hide Apply, Enabled;
    if m < n {
      Remembers(states, steps, m, n - 1, call);
      assert states[n - 1 + 1] == Apply(states[n - 1], steps[n - 1]);
      StepRemembers(states[n - 1], steps[n - 1], call);
    }
  }

  /** The call that passed the closed check at step m queued its message at step n. */
  predicate Queues(states: seq<State>, steps: seq<Step>, m: nat, n: nat)
    requires Execution(states, steps)
  {
    m < n < |steps| && steps[m] == PublishChecks && steps[n] == PublishSends(|states[m].calls|)
  }

  /**
   * Whoever was subscribed when Publish began and still is when it queues the message is one of its
   * recipients.
   */
  lemma Addressed(states: seq<State>, steps: seq<Step>, m: nat, n: nat, ch: Chan)
    requires Execution(states, steps) && Queues(states, steps, m, n) && ch in states[m].subs && ch in states[n].subs
    ensures var position := |states[n].enqueued|;
      && position < |states[n + 1].enqueued| && states[n + 1].enqueued[position].call == |states[m].calls|
      && ch in states[n + 1].enqueued[position].recipients
  {
    var call := |states[m].calls|;
    assert states[m + 1] == Apply(states[m], PublishChecks);
    Remembers(states, steps, m + 1, n, call);
    assert states[n + 1] == Apply(states[n], PublishSends(call)) && Enabled(states[n], PublishSends(call));
  }

  /** A Publish call that drops its message had no such subscriber, or the broker was stopping. */
  lemma DroppedForNobody(states: seq<State>, steps: seq<Step>, m: nat, n: nat, ch: Chan)
    requires Execution(states, steps) && m < n < |steps| && steps[m] == PublishChecks
    requires steps[n] == PublishDrops(|states[m].calls|) && ch in states[m].subs && ch in states[n].subs
    ensures states[n].StopClosed()
  {
    var call := |states[m].calls|;
    assert states[m + 1] == Apply(states[m], PublishChecks);
    Remembers(states, steps, m + 1, n, call);
    assert Enabled(states[n], PublishDrops(call));
  }

  /** At most sixteen messages wait, and with fewer a Publish that has ranged over its recipients can go on. */
  lemma {:induction false} QueueBounded(states: seq<State>, steps: seq<Step>, n: nat)
    requires Execution(states, steps) && n < |states|
    ensures var b := states[n];
      && |b.enqueued| - b.taken <= 16 && |b.unsubCh| <= 16
      && forall call :: 0 <= call < |b.calls| && !b.calls[call].returned && Ranged(b, b.calls[call]) ==>
           b.calls[call].recipients == [] || b.StopClosed() || |b.enqueued| - b.taken == 16 || Enabled(b, PublishSends(call))
    decreases n
  {
    hide Ranged;
    if n > 0 {
      QueueBounded(states, steps, n - 1);
      assert Enabled(states[n - 1], steps[n - 1]) && states[n - 1 + 1] == Apply(states[n - 1], steps[n - 1]);
    }
  }

  // ---------- leaving ----------

  /** Once the Start goroutine has served a request to unsubscribe, the channel is closed, once. */
  lemma UnsubscribeCloses(states: seq<State>, steps: seq<Step>, n: nat)
    requires Execution(states, steps) && n < |steps| && steps[n] == LoopUnsubscribes && states[n].unsubCh[0] in states[n].stored
    ensures var b, now, ch := states[n], states[n + 1], states[n].unsubCh[0];
      && ch < |now.chans| && ch !in now.subs && now.chans[ch].closes == 1
      && now.unsubCh == b.unsubCh[1..] && now.chans[ch].buffered == b.chans[ch].buffered
  {
    hide CallsOK, MessagesOK, StopOK;
    ExecutionInv(states, steps, n);
    assert states[n + 1] == Apply(states[n], steps[n]);
  }

  // ---------- a send ----------

  /** The Start goroutine is about to send the message at position to ch. */
  predicate Sending(b: State, position: nat, ch: Chan) {
    && b.loop.Broadcasting? && b.loop.position == position < |b.enqueued|
    && b.loop.next < |b.enqueued[position].recipients| && b.enqueued[position].recipients[b.loop.next] == ch
  }

  predicate ClosedOrFull(c: Channel) {
    c.closes > 0 || |c.buffered| >= 8
  }

  /**
   * A send into an open channel with fewer than eight buffered messages puts the message at the end of
   * the buffer; into any other channel it puts nothing. No other channel changes.
   */
  lemma SendDelivers(states: seq<State>, steps: seq<Step>, n: nat, position: nat, ch: Chan)
    requires Execution(states, steps) && n < |steps| && steps[n] == LoopSends && Sending(states[n], position, ch)
    ensures var b, now := states[n], states[n + 1];
      && ch < |b.chans| && now.loop == Broadcasting(position, b.loop.next + 1)
      && now.chans == (if ClosedOrFull(b.chans[ch]) then b.chans
                       else b.chans[ch := Channel(0, b.chans[ch].buffered + [position], b.chans[ch].put + [position])])
  {
    hide Inv;
    ExecutionInv(states, steps, n);
    RecipientExists(states[n], position, states[n].loop.next);
    assert states[n + 1] == Apply(states[n], steps[n]);
  }

  lemma RecipientExists(b: State, position: nat, i: nat)
    requires Inv(b) && position < |b.enqueued| && i < |b.enqueued[position].recipients|
    ensures b.enqueued[position].recipients[i] < |b.chans|
  {
    assert Recipients(b, b.enqueued[position].recipients);
  }

  // ---------- a broadcast ----------

  /** At step m the message at position was sent to ch, which was closed or full then. */
  predicate Missed(states: seq<State>, steps: seq<Step>, m: nat, position: nat, ch: Chan) {
    && m < |steps| && m < |states| && steps[m] == LoopSends && Sending(states[m], position, ch)
    && ch < |states[m].chans| && ClosedOrFull(states[m].chans[ch])
  }

  ghost predicate Served(states: seq<State>, steps: seq<Step>, n: nat, position: nat, ch: Chan)
    requires n < |states|
  {
    || (ch < |states[n].chans| && position in states[n].chans[ch].put)
    || exists m :: 0 <= m < n && Missed(states, steps, m, position, ch)
  }

  /** How many recipients of the message at position have had their send. */
  function Sent(b: State, position: nat): nat
    requires position < |b.enqueued|
  {
    if position >= b.taken then 0
    else if b.loop.Broadcasting? && b.loop.position == position then b.loop.next
    else |b.enqueued[position].recipients|
  }

  ghost predicate AllServed(states: seq<State>, steps: seq<Step>, n: nat)
    requires n < |states|
  {
    forall q, i :: 0 <= q < |states[n].enqueued| && 0 <= i < Sent(states[n], q) <= |states[n].enqueued[q].recipients| ==>
      Served(states, steps, n, q, states[n].enqueued[q].recipients[i])
  }

  /** What has been put into a channel stays in its history. */
  lemma PutStays(b: State, step: Step, ch: Chan)
    requires Enabled(b, step) && ch < |b.chans|
    ensures ch < |Apply(b, step).chans| && b.chans[ch].put <= Apply(b, step).chans[ch].put
  {
  }

  lemma ServedStays(states: seq<State>, steps: seq<Step>, n: nat, position: nat, ch: Chan)
    requires Execution(states, steps) && n < |steps| && Served(states, steps, n, position, ch)
    ensures Served(states, steps, n + 1, position, ch)
  {
    hide Apply, Enabled;
    if ch < |states[n].chans| && position in states[n].chans[ch].put {
      assert Enabled(states[n], steps[n]) && states[n + 1] == Apply(states[n], steps[n]);
      PutStays(states[n], steps[n], ch);
      var i :| 0 <= i < |states[n].chans[ch].put| && states[n].chans[ch].put[i] == position;
      assert states[n + 1].chans[ch].put[i] == position;
    } else {
      var m :| 0 <= m < n && Missed(states, steps, m, position, ch);
      assert 0 <= m < n + 1;
    }
  }

  /** A recipient more has had its send only by a send. */
  lemma SentBySend(b: State, step: Step, q: nat)
    requires Inv(b) && Enabled(b, step) && q < |Apply(b, step).enqueued|
    ensures var now := Apply(b, step);
      if q >= |b.enqueued| then Sent(now, q) == 0
      else
        && now.enqueued[q] == b.enqueued[q]
        && (Sent(now, q) <= Sent(b, q)
            || (step == LoopSends && Sent(b, q) < |b.enqueued[q].recipients| && Sending(b, q, b.enqueued[q].recipients[Sent(b, q)])
                && Sent(now, q) == Sent(b, q) + 1))
  {
    hide ChannelsOK, StopOK, Recipients, MayHave, Increasing, IsSuffix;
    if step == LoopSends {
      SendLoop(b);
    }
  }

  lemma SendLoop(b: State)
    requires Inv(b) && b.loop.Broadcasting?
    ensures var now := Apply(b, LoopSends); var position, next := b.loop.position, b.loop.next;
      && position + 1 == b.taken <= |b.enqueued| && next <= |b.enqueued[position].recipients|
      && now.enqueued == b.enqueued && now.taken == b.taken
      && now.loop == if next < |b.enqueued[position].recipients| then Broadcasting(position, next + 1) else Selecting
  {
    hide ChannelsOK, StopOK, CallsOK;
  }

  lemma {:induction false} ServedSoFar(states: seq<State>, steps: seq<Step>, n: nat)
    requires Execution(states, steps) && n < |states|
    ensures AllServed(states, steps, n)
    decreases n
  {
    hide Apply, Enabled, Inv, Served, Sending, Sent;
    if n > 0 {
      ServedSoFar(states, steps, n - 1);
      ExecutionInv(states, steps, n - 1);
      var b, now, step := states[n - 1], states[n], steps[n - 1];
      assert Enabled(b, step) && states[n - 1 + 1] == Apply(b, step);
      forall q, i | 0 <= q < |now.enqueued| && 0 <= i < Sent(now, q) <= |now.enqueued[q].recipients|
        ensures Served(states, steps, n, q, now.enqueued[q].recipients[i])
      {
        SentBySend(b, step, q);
        var ch := now.enqueued[q].recipients[i];
        if i < Sent(b, q) {
          SentInRange(b, q);
          assert Served(states, steps, n - 1, q, b.enqueued[q].recipients[i]);
          ServedStays(states, steps, n - 1, q, ch);
        } else {
          ServedNow(states, steps, n - 1, q, ch);
        }
      }
    }
  }

  lemma SentInRange(b: State, q: nat)
    requires Inv(b) && q < |b.enqueued|
    ensures Sent(b, q) <= |b.enqueued[q].recipients|
  {
    hide ChannelsOK, StopOK, CallsOK, MayHave;
  }

  lemma ServedNow(states: seq<State>, steps: seq<Step>, n: nat, position: nat, ch: Chan)
    requires Execution(states, steps) && n < |steps| && steps[n] == LoopSends && Sending(states[n], position, ch)
    ensures Served(states, steps, n + 1, position, ch)
  {
    hide Apply, Enabled, Sending;
    SendDelivers(states, steps, n, position, ch);
    if ClosedOrFull(states[n].chans[ch]) {
      assert Missed(states, steps, n, position, ch);
    } else {
      var put := states[n + 1].chans[ch].put;
      assert put[|put| - 1] == position;
    }
  }

  /** The message was taken off the queue, and its broadcast is not going on any more. */
  predicate Over(b: State, position: nat) {
    position < b.taken <= |b.enqueued| && !(b.loop.Broadcasting? && b.loop.position == position)
  }

  /**
   * Once the broadcast of a message is over, every one of its recipients has been given it, except
   * those that were closed or had eight messages waiting when their turn came.
   */
  lemma BroadcastDelivers(states: seq<State>, steps: seq<Step>, n: nat, position: nat, i: nat)
    requires Execution(states, steps) && n < |states| && Over(states[n], position)
    requires i < |states[n].enqueued[position].recipients|
    ensures Served(states, steps, n, position, states[n].enqueued[position].recipients[i])
  {
    hide Served;
    ServedSoFar(states, steps, n);
  }

  /**
   * From end to end: what is published while a channel is subscribed, from the beginning of Publish
   * until the message is queued, is put into that channel by the time its broadcast is over, unless the
   * channel was closed or full at its send.
   */
  lemma PublishedIsDelivered(states: seq<State>, steps: seq<Step>, m: nat, n: nat, k: nat, ch: Chan)
    requires Execution(states, steps) && Queues(states, steps, m, n) && n < k < |states|
    requires ch in states[m].subs && ch in states[n].subs && Over(states[k], |states[n].enqueued|)
    ensures Served(states, steps, k, |states[n].enqueued|, ch)
  {
    hide Served, Apply, Enabled, Inv;
    var position := |states[n].enqueued|;
    Addressed(states, steps, m, n, ch);
    var i :| 0 <= i < |states[n + 1].enqueued[position].recipients| && states[n + 1].enqueued[position].recipients[i] == ch;
    QueueStays(states, steps, n + 1, k);
    assert states[k].enqueued[position] == states[n + 1].enqueued[position];
    BroadcastDelivers(states, steps, k, position, i);
  }

  /** Who is still subscribed then can only have missed it by having eight messages waiting. */
  lemma SubscribedMissesFull(states: seq<State>, steps: seq<Step>, k: nat, position: nat, ch: Chan)
    requires Execution(states, steps) && k < |states| && ch in states[k].subs && Served(states, steps, k, position, ch)
    ensures ch < |states[k].chans|
    ensures position in states[k].chans[ch].put
         || exists m :: 0 <= m < k && Missed(states, steps, m, position, ch) && |states[m].chans[ch].buffered| >= 8
  {
    hide Apply, Enabled, Inv, Sending;
    ExecutionInv(states, steps, k);
    StoredExists(states[k], ch);
    ClosedAtMostOnce(states, steps, k, ch);
    if position !in states[k].chans[ch].put {
      var m :| 0 <= m < k && Missed(states, steps, m, position, ch);
      if states[m].chans[ch].closes > 0 {
        ClosedStaysFrozen(states, steps, m, k, ch);
      }
    }
  }

  lemma StoredExists(b: State, ch: Chan)
    requires Inv(b) && ch in b.subs
    ensures ch < |b.chans|
  {
  }

  lemma {:induction false} QueueStays(states: seq<State>, steps: seq<Step>, m: nat, n: nat)
    requires Execution(states, steps) && m <= n < |states|
    ensures states[m].enqueued <= states[n].enqueued
    decreases n
  {
    hide Apply, Enabled, Inv;
    if m < n {
      QueueStays(states, steps, m, n - 1);
      assert states[n - 1 + 1] == Apply(states[n - 1], steps[n - 1]);
      ExecutionInv(states, steps, n - 1);
      InvCalls(states[n - 1]);
      StepQueue(states[n - 1], steps[n - 1], 0);
      QueueGrows(states[m].enqueued, states[n - 1].enqueued, states[n].enqueued);
    }
  }
}
