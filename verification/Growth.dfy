/** What only grows: the logs of the run, and the calls that have returned. */
module Growth {
  import opened Base
  import opened Messages
  import opened Framing
  import opened Machine
  import opened Frames
  import opened Ids
  import opened Queues

  /** The message does not come from a call that had returned in `s`. */
  predicate NotFromReturned(s: State, m: Message) {
    m.origin.FromCall? && m.origin.c in s.calls ==> !s.calls[m.origin.c].Returned?
  }

  /** Nothing on record is taken back, calls stay, those that have returned stay as
      they are, and what is enqueued later comes from others. */
  ghost predicate Extends(s: State, t: State) {
    && s.notifs <= t.notifs && s.received <= t.received && s.issued <= t.issued && s.enqueued <= t.enqueued
    && (forall c | c in s.calls :: c in t.calls && (s.calls[c].Returned? ==> t.calls[c] == s.calls[c]))
    && (forall p | |s.enqueued| <= p < |t.enqueued| :: NotFromReturned(s, t.enqueued[p]))
  }

  lemma ExtendsOn(s: State, t: State, u: State)
    requires Extends(s, t) && Extends(t, u)
    ensures Extends(s, u)
  {
    forall p | |s.enqueued| <= p < |u.enqueued| ensures NotFromReturned(s, u.enqueued[p]) {
      if p < |t.enqueued| {
        assert NotFromReturned(s, t.enqueued[p]);
      } else {
        assert NotFromReturned(t, u.enqueued[p]);
      }
    }
  }

  // ----- steps

  /** The call `c`, which has not returned, changes, and perhaps enqueues. */
  lemma CallExtends(s: State, t: State, c: CallId)
    requires OnlyCall(s, t, c) && (c in s.calls ==> !s.calls[c].Returned?)
    requires t.notifs == s.notifs && t.received == s.received && s.issued <= t.issued && s.enqueued <= t.enqueued
    requires forall p | |s.enqueued| <= p < |t.enqueued| :: t.enqueued[p].origin == FromCall(c)
    ensures Extends(s, t)
  {
  }

  lemma OfferExtends(s: State, c: CallId, event: ClientEvent)
    requires c in s.calls && s.calls[c].Ready?
    ensures Extends(s, Offer(s, c, event))
  {
    OfferFrame(s, c, event);
    CallExtends(s, Offer(s, c, event), c);
  }

  lemma CallerExtends(s: State, step: Step)
    requires CallerEnabled(s, step)
    ensures Extends(s, ApplyCaller(s, step))
  {
    if step.TrySend? {
      OfferExtends(s, step.c, s.calls[step.c].sub.Event());
    } else {
      CallerFrame(s, step);
      CallerQuiet(s, step);
      CallerHasEffect(s, step);
      CallExtends(s, ApplyCaller(s, step), step.c);
    }
  }

  lemma ReceiverExtends(s: State, step: Step)
    requires ReceiverEnabled(s, step)
    ensures Extends(s, ApplyReceiver(s, step))
  {
    if step.ReceiveLine? {
      LineFrame(s, step.k, step.line, Effect(s.inventory, step.line));
    }
  }

  lemma StepExtends(s: State, step: Step)
    requires Enabled(s, step)
    ensures Extends(s, Apply(s, step))
  {
    if step.Caller() {
      CallerExtends(s, step);
    } else if step.Sender() {
      SenderFrame(s, step);
      SenderNotifs(s, step);
    } else if step.Receiver() {
      ReceiverExtends(s, step);
    } else {
      ControlFrame(s, step);
    }
  }

  lemma {:induction false} RunExtends(states: seq<State>, steps: seq<Step>, i: nat, j: nat)
    requires IsRun(states, steps) && i <= j < |states|
    ensures Extends(states[i], states[j])
  {
    if i < j {
      RunExtends(states, steps, i, j - 1);
      StepExtends(states[j - 1], steps[j - 1]);
      ExtendsOn(states[i], states[j - 1], states[j]);
    }
  }

  // ----- what every run keeps, bounded or not

  ghost predicate DrawersKnown(s: State) {
    forall k | 0 <= k < |s.issued| :: s.issued[k] in s.calls
  }

  ghost predicate SourcesOk(s: State) {
    DrawersKnown(s) && QueueOk(s) && ShapesOk(s)
  }

  lemma StepKeepsDrawers(s: State, step: Step)
    requires DrawersKnown(s) && Enabled(s, step)
    ensures DrawersKnown(Apply(s, step))
  {
    if step.Caller() {
      CallerHasEffect(s, step);
    } else if step.Sender() {
      SenderFrame(s, step);
    } else if step.Receiver() {
      ReceiverFrame(s, step);
    } else {
      ControlFrame(s, step);
    }
  }

  lemma {:induction false} RunKeepsSources(states: seq<State>, steps: seq<Step>, i: nat)
    requires IsRun(states, steps) && i < |states|
    ensures SourcesOk(states[i])
  {
    if i > 0 {
      RunKeepsSources(states, steps, i - 1);
      StepKeepsDrawers(states[i - 1], steps[i - 1]);
      StepKeepsQueue(states[i - 1], steps[i - 1]);
    }
  }

  // ----- earlier and later

  /** A call that is not there yet draws its ids later. */
  lemma NewCallDrawsLater(s: State, t: State, c: CallId, k: nat)
    requires DrawersKnown(s) && Extends(s, t) && c !in s.calls && k < |t.issued| && t.issued[k] == c
    ensures |s.issued| <= k
  {
  }

  /** What a call enqueued before it returned lies before what a later call enqueues. */
  lemma ReturnedIsBefore(s: State, t: State, h: CallId, c: CallId, p: nat, q: nat)
    requires AllMessagesOk(s) && Extends(s, t) && h in s.calls && s.calls[h].Returned? && c !in s.calls
    requires p < |t.enqueued| && t.enqueued[p].origin == FromCall(h)
    requires q < |t.enqueued| && t.enqueued[q].origin == FromCall(c)
    ensures p < q
  {
    assert |s.enqueued| <= p ==> NotFromReturned(s, t.enqueued[p]);
    forall j | 0 <= j < |s.enqueued| ensures t.enqueued[j].origin != FromCall(c) {
      assert MessageOk(s, s.enqueued[j]);
    }
  }
}
