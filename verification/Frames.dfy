/** What each kind of step leaves alone. */
module Frames {
  import opened Base
  import opened Framing
  import opened Messages
  import opened Machine

  /** Everything that the callers and the receivers share about ids. */
  predicate SameCalls(s: State, t: State) {
    t.lastId == s.lastId && t.issued == s.issued && t.inserted == s.inserted && t.lock == s.lock && t.calls == s.calls
  }

  predicate SameStore(s: State, t: State) {
    t.inventory == s.inventory && t.retired == s.retired && t.received == s.received
  }

  predicate SameConns(s: State, t: State) {
    && t.conns == s.conns && t.holder == s.holder && t.turns == s.turns
    && t.taken == s.taken && t.acks == s.acks && t.failed == s.failed
  }

  lemma CallerFrame(s: State, step: Step)
    requires CallerEnabled(s, step)
    ensures var t := ApplyCaller(s, step);
      && SameConns(s, t) && t.status == s.status && t.stopFlag == s.stopFlag
      && t.retired == s.retired && t.received == s.received && t.notifs == s.notifs
  {
    if step.TrySend? {
      OfferFrame(s, step.c, s.calls[step.c].sub.Event());
    }
  }

  lemma OfferFrame(s: State, c: CallId, event: ClientEvent)
    requires c in s.calls && s.calls[c].Ready?
    ensures var t := Offer(s, c, event);
      && SameConns(s, t) && SameStore(s, t) && t.status == s.status && t.stopFlag == s.stopFlag
      && t.notifs == s.notifs && t.issued == s.issued && t.inserted == s.inserted && t.lock == s.lock
      && t.lastId == s.lastId
      && t.calls == s.calls[c := Offered(s.calls[c], Room(s))]
  {
  }

  lemma SenderFrame(s: State, step: Step)
    requires SenderEnabled(s, step)
    ensures var t := ApplySender(s, step); SameCalls(s, t) && SameStore(s, t) && t.enqueued == s.enqueued
  {
    match step
    case SenderWrite(k) => WriteFrame(s, k, Payload(s.conns[k].sender.message.event));
    case SenderFail(k, n) => FailFrame(s, k, Payload(s.conns[k].sender.message.event), n);
    case _ =>
  }

  lemma WriteFrame(s: State, k: nat, ms: seq<JsonRpcMsg>)
    requires k < |s.conns| && s.conns[k].sender.Holding? && AllRequests(ms)
    ensures var t := WriteAll(s, k, ms); SameCalls(s, t) && SameStore(s, t) && t.enqueued == s.enqueued
  {
  }

  lemma FailFrame(s: State, k: nat, ms: seq<JsonRpcMsg>, n: nat)
    requires k < |s.conns| && s.conns[k].sender.Holding? && AllRequests(ms) && n < |WireText(ms)|
    ensures var t := WritePart(s, k, ms, n); SameCalls(s, t) && SameStore(s, t) && t.enqueued == s.enqueued
  {
  }

  lemma ControlFrame(s: State, step: Step)
    requires ControlEnabled(s, step)
    ensures var t := ApplyControl(s, step);
      && SameCalls(s, t) && SameStore(s, t) && t.notifs == s.notifs
      && t.holder == s.holder && t.turns == s.turns && t.taken == s.taken
      && t.acks == s.acks && t.failed == s.failed
  {
  }

  lemma ReceiverFrame(s: State, step: Step)
    requires ReceiverEnabled(s, step)
    ensures var t := ApplyReceiver(s, step);
      && SameCalls(s, t) && t.holder == s.holder && t.turns == s.turns && t.taken == s.taken
      && t.acks == s.acks && t.failed == s.failed
      && t.status == s.status && |t.conns| == |s.conns|
      && forall k | 0 <= k < |s.conns| :: t.conns[k] == s.conns[k].(receiver := t.conns[k].receiver)
  {
    if step.ReceiveLine? {
      LineFrame(s, step.k, step.line, Effect(s.inventory, step.line));
    }
  }

  lemma LineFrame(s: State, k: nat, line: Line, e: LineEffect)
    requires k < |s.conns|
    ensures var t := Receive(s, k, line, e);
      && SameCalls(s, t) && t.holder == s.holder && t.turns == s.turns && t.taken == s.taken
      && t.acks == s.acks && t.failed == s.failed
      && t.status == s.status && |t.conns| == |s.conns| && t.enqueued == s.enqueued && t.queue == s.queue
      && t.received == s.received + [line] && s.notifs <= t.notifs
      && forall k | 0 <= k < |s.conns| :: t.conns[k] == s.conns[k].(receiver := t.conns[k].receiver)
  {
  }

  /** Nothing that has been broadcast is taken back, and only a caller's request, a
      line or a Stop adds to the logs. */
  lemma SenderNotifs(s: State, step: Step)
    requires SenderEnabled(s, step)
    ensures var t := ApplySender(s, step);
      t.notifs == s.notifs || t.notifs == s.notifs + [StopNotified]
  {
  }
}
