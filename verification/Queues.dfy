/** What is in the queue, and where it came from. */
module Queues {
  import opened Base
  import opened Messages
  import opened Framing
  import opened Machine
  import opened Frames

  /** The call has handed its submission to the queue, or has been refused. */
  predicate Submitted(call: Call) {
    call.Waiting? || call.Returned?
  }

  predicate Waits(call: Call)
    requires Submitted(call)
  {
    call.Waiting? || call.waited
  }

  /** A message comes from one of three sources and says what that source had to say. */
  predicate MessageOk(s: State, m: Message) {
    match m.origin
    case FromCall(c) =>
      c in s.calls && Submitted(s.calls[c]) && m.event == s.calls[c].sub.Event() && m.waited == Waits(s.calls[c])
    case FromReceiver(k) =>
      m.event == ClientEvent.Close && !m.waited && k < |s.conns| && s.conns[k].receiver == Gone
    case FromStop => m.event == ClientEvent.Stop && !m.waited
  }

  ghost predicate AllMessagesOk(s: State) {
    forall p | 0 <= p < |s.enqueued| :: MessageOk(s, s.enqueued[p])
  }

  /** No call and no receiver enqueues twice. */
  ghost predicate OnceEach(s: State) {
    forall p, q | 0 <= p < q < |s.enqueued| ::
      s.enqueued[p].origin == s.enqueued[q].origin ==> s.enqueued[p].origin == FromStop
  }

  /** First in, first out, and never over capacity. */
  predicate Fifo(s: State) {
    s.enqueued == s.taken + s.queue && |s.queue| <= CAPACITY
  }

  ghost predicate QueueOk(s: State) {
    AllMessagesOk(s) && OnceEach(s) && Fifo(s)
  }

  /** What a submission needs to be to come from send_msg or send_batch_msg. */
  predicate SubmissionOk(sub: Submission) {
    sub.batch || |sub.items| == 1
  }

  predicate CallShape(call: Call) {
    match call
    case Ready(sub, _) => SubmissionOk(sub) && sub.items != []
    case Waiting(sub) => SubmissionOk(sub) && sub.items != []
    case Returned(sub, _, _) => SubmissionOk(sub)
    case _ => true
  }

  ghost predicate ShapesOk(s: State) {
    forall c | c in s.calls :: CallShape(s.calls[c])
  }

  // ----- a message stays what it is

  /** Submissions and departed receivers are final. */
  ghost predicate SourcesStay(s: State, t: State) {
    && (forall c | c in s.calls && Submitted(s.calls[c]) ::
          && c in t.calls && Submitted(t.calls[c])
          && t.calls[c].sub == s.calls[c].sub && Waits(t.calls[c]) == Waits(s.calls[c]))
    && |s.conns| <= |t.conns|
    && (forall k | 0 <= k < |s.conns| && s.conns[k].receiver == Gone :: t.conns[k].receiver == Gone)
  }

  lemma MessageStays(s: State, t: State, m: Message)
    requires SourcesStay(s, t) && MessageOk(s, m)
    ensures MessageOk(t, m)
  {
  }

  lemma NoNewMessage(s: State, t: State)
    requires AllMessagesOk(s) && OnceEach(s) && SourcesStay(s, t) && t.enqueued == s.enqueued
    ensures AllMessagesOk(t) && OnceEach(t)
  {
    forall p | 0 <= p < |t.enqueued| ensures MessageOk(t, t.enqueued[p]) {
      MessageStays(s, t, s.enqueued[p]);
    }
  }

  lemma OneNewMessage(s: State, t: State, m: Message)
    requires AllMessagesOk(s) && OnceEach(s) && SourcesStay(s, t) && t.enqueued == s.enqueued + [m]
    requires MessageOk(t, m)
    requires m.origin == FromStop || forall p | 0 <= p < |s.enqueued| :: s.enqueued[p].origin != m.origin
    ensures AllMessagesOk(t) && OnceEach(t)
  {
    forall p | 0 <= p < |t.enqueued| ensures MessageOk(t, t.enqueued[p]) {
      if p < |s.enqueued| { MessageStays(s, t, s.enqueued[p]); }
    }
  }

  lemma FifoPush(s: State, t: State, m: Message)
    requires Fifo(s) && Room(s) && t.taken == s.taken
    requires t.enqueued == s.enqueued + [m] && t.queue == s.queue + [m]
    ensures Fifo(t)
  {
  }

  // ----- steps

  lemma OfferKeepsQueue(s: State, c: CallId, event: ClientEvent)
    requires QueueOk(s) && c in s.calls && s.calls[c].Ready? && event == s.calls[c].sub.Event()
    ensures QueueOk(Offer(s, c, event))
  {
    var t := Offer(s, c, event);
    OfferFrame(s, c, event);
    if Room(s) {
      var m := Message(event, FromCall(c), s.calls[c].waited);
      forall p | 0 <= p < |s.enqueued| ensures s.enqueued[p].origin != FromCall(c) {
        assert MessageOk(s, s.enqueued[p]);
      }
      OneNewMessage(s, t, m);
      FifoPush(s, t, m);
    } else {
      NoNewMessage(s, t);
    }
  }

  /** A caller's step touches the queue only by an offer, and no call but its own. */
  lemma CallerQuiet(s: State, step: Step)
    requires CallerEnabled(s, step) && !step.TrySend?
    ensures var t := ApplyCaller(s, step);
      && t.enqueued == s.enqueued && t.queue == s.queue && t.taken == s.taken && t.conns == s.conns
      && step.c in t.calls && t.calls == s.calls[step.c := t.calls[step.c]]
  {
  }

  lemma CallerSubmitted(s: State, step: Step)
    requires CallerEnabled(s, step) && step.c in s.calls && Submitted(s.calls[step.c])
    ensures var call := ApplyCaller(s, step).calls[step.c];
      Submitted(call) && call.sub == s.calls[step.c].sub && Waits(call) == Waits(s.calls[step.c])
  {
  }

  /** Apart from the offer itself, a caller's step enqueues nothing. */
  lemma CallerSources(s: State, step: Step)
    requires CallerEnabled(s, step) && !step.TrySend?
    ensures var t := ApplyCaller(s, step);
      SourcesStay(s, t) && t.enqueued == s.enqueued && t.queue == s.queue && t.taken == s.taken
  {
    CallerQuiet(s, step);
    if step.c in s.calls && Submitted(s.calls[step.c]) {
      CallerSubmitted(s, step);
    }
  }

  lemma CallerKeepsQueue(s: State, step: Step)
    requires QueueOk(s) && CallerEnabled(s, step)
    ensures QueueOk(ApplyCaller(s, step))
  {
    if step.TrySend? {
      OfferKeepsQueue(s, step.c, s.calls[step.c].sub.Event());
    } else {
      CallerSources(s, step);
      NoNewMessage(s, ApplyCaller(s, step));
    }
  }

  lemma CallerKeepsShapes(s: State, step: Step)
    requires ShapesOk(s) && CallerEnabled(s, step)
    ensures ShapesOk(ApplyCaller(s, step))
  {
    if step.TrySend? {
      OfferFrame(s, step.c, s.calls[step.c].sub.Event());
    }
  }

  lemma SenderReceivers(s: State, step: Step)
    requires SenderEnabled(s, step)
    ensures var t := ApplySender(s, step);
      |t.conns| == |s.conns| && forall k | 0 <= k < |s.conns| :: t.conns[k].receiver == s.conns[k].receiver
  {
  }

  lemma SenderKeepsFifo(s: State, step: Step)
    requires Fifo(s) && SenderEnabled(s, step)
    ensures Fifo(ApplySender(s, step))
  {
    SenderFrame(s, step);
  }

  lemma SenderKeepsQueue(s: State, step: Step)
    requires QueueOk(s) && SenderEnabled(s, step)
    ensures QueueOk(ApplySender(s, step))
  {
    SenderFrame(s, step);
    SenderReceivers(s, step);
    SenderKeepsFifo(s, step);
    NoNewMessage(s, ApplySender(s, step));
  }

  lemma CloseKeepsQueue(s: State, k: nat)
    requires QueueOk(s) && ReceiverEnabled(s, ReceiverClose(k))
    ensures QueueOk(ApplyReceiver(s, ReceiverClose(k)))
  {
    var t := ApplyReceiver(s, ReceiverClose(k));
    if Room(s) {
      var m := Message(ClientEvent.Close, FromReceiver(k), false);
      forall p | 0 <= p < |s.enqueued| ensures s.enqueued[p].origin != FromReceiver(k) {
        assert MessageOk(s, s.enqueued[p]);
      }
      OneNewMessage(s, t, m);
      FifoPush(s, t, m);
    } else {
      NoNewMessage(s, t);
    }
  }

  lemma ReceiverKeepsQueue(s: State, step: Step)
    requires QueueOk(s) && ReceiverEnabled(s, step)
    ensures QueueOk(ApplyReceiver(s, step))
  {
    if step.ReceiverClose? {
      CloseKeepsQueue(s, step.k);
    } else {
      ReceiverSources(s, step);
      NoNewMessage(s, ApplyReceiver(s, step));
    }
  }

  lemma ReceiverSources(s: State, step: Step)
    requires ReceiverEnabled(s, step) && !step.ReceiverClose?
    ensures var t := ApplyReceiver(s, step);
      SourcesStay(s, t) && t.enqueued == s.enqueued && t.queue == s.queue && t.taken == s.taken
  {
    if step.ReceiveLine? {
      LineFrame(s, step.k, step.line, Effect(s.inventory, step.line));
    }
  }

  lemma ControlKeepsQueue(s: State, step: Step)
    requires QueueOk(s) && ControlEnabled(s, step)
    ensures QueueOk(ApplyControl(s, step))
  {
    var t := ApplyControl(s, step);
    if step.EnqueueStop? {
      var m := Message(ClientEvent.Stop, FromStop, false);
      OneNewMessage(s, t, m);
      FifoPush(s, t, m);
    } else {
      NoNewMessage(s, t);
    }
  }

  lemma StepKeepsQueue(s: State, step: Step)
    requires QueueOk(s) && ShapesOk(s) && Enabled(s, step)
    ensures QueueOk(Apply(s, step)) && ShapesOk(Apply(s, step))
  {
    if step.Caller() {
      CallerKeepsQueue(s, step);
      CallerKeepsShapes(s, step);
    } else if step.Sender() {
      SenderFrame(s, step);
      SenderKeepsQueue(s, step);
    } else if step.Receiver() {
      ReceiverFrame(s, step);
      ReceiverKeepsQueue(s, step);
    } else {
      ControlFrame(s, step);
      ControlKeepsQueue(s, step);
    }
  }

  // ----- the queue and the inventory agree

  /** The payload of a submission's event is its entries, message by message. */
  lemma EventPayload(sub: Submission)
    requires SubmissionOk(sub)
    ensures Payload(sub.Event()) == Msgs(sub.items)
  {
    if sub.batch || |sub.items| != 1 {
      assert sub.Event() == SendBatch(Msgs(sub.items));
    } else {
      assert OnlyRequests([Msgs(sub.items)[0]]) == [Msgs(sub.items)[0]];
      assert [Msgs(sub.items)[0]] == Msgs(sub.items);
    }
  }
}
