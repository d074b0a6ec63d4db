/** What an acknowledgement tells the caller that waited for it. */
module Acknowledgements {
  import opened Base
  import opened Messages
  import Lines
  import opened Framing
  import opened Machine
  import opened Frames
  import opened Queues
  import opened Transmission

  /** All of the call's requests were sent, one after the other, on one connection. */
  predicate SentWhole(conns: seq<Conn>, items: seq<Entry>, k: nat, at: nat) {
    && k < |conns| && at + |items| <= |conns[k].sent|
    && conns[k].sent[at..at + |items|] == Msgs(items)
  }

  predicate AckOk(s: State, c: CallId, ack: Ack) {
    && c in s.calls && Submitted(s.calls[c])
    && match ack
       case Wrote(k, at) => SentWhole(s.conns, s.calls[c].sub.items, k, at)
       case NotWritten => true
       case Lost => false
  }

  ghost predicate AcksOk(s: State) {
    forall c | c in s.acks :: AckOk(s, c, s.acks[c])
  }

  /** A successful return is backed by a complete write or, without waiting, by a place in the queue. */
  ghost predicate ResultOk(s: State, c: CallId)
    requires c in s.calls
  {
    match s.calls[c]
    case Returned(sub, waited, result) =>
      && result != OneShotRecvError
      && (result == Sent && sub.items != [] ==>
            if waited then c in s.acks && s.acks[c].Wrote?
            else exists p | 0 <= p < |s.enqueued| :: s.enqueued[p].origin == FromCall(c))
    case _ => true
  }

  ghost predicate ResultsOk(s: State) {
    forall c | c in s.calls :: ResultOk(s, c)
  }

  ghost predicate AllAcksOk(s: State) {
    AcksOk(s) && ResultsOk(s)
  }

  // ----- what was sent stays sent

  ghost predicate SentGrows(s: State, t: State) {
    |s.conns| <= |t.conns| && forall k | 0 <= k < |s.conns| :: s.conns[k].sent <= t.conns[k].sent
  }

  lemma AckStays(s: State, t: State, c: CallId, ack: Ack)
    requires SourcesStay(s, t) && SentGrows(s, t) && AckOk(s, c, ack)
    ensures AckOk(t, c, ack)
  {
  }

  lemma AcksStay(s: State, t: State)
    requires AcksOk(s) && SourcesStay(s, t) && SentGrows(s, t)
    requires forall c | c in t.acks :: (c in s.acks && t.acks[c] == s.acks[c]) || AckOk(t, c, t.acks[c])
    ensures AcksOk(t)
  {
    forall c | c in t.acks && c in s.acks && t.acks[c] == s.acks[c] ensures AckOk(t, c, t.acks[c]) {
      AckStays(s, t, c, s.acks[c]);
    }
  }

  /** Calls other than `c` keep their results, as long as acknowledgements of success stand. */
  lemma ResultsStay(s: State, t: State, changed: set<CallId>)
    requires ResultsOk(s) && s.enqueued <= t.enqueued
    requires forall c | c in t.calls && c !in changed :: c in s.calls && t.calls[c] == s.calls[c]
    requires forall c | c in t.calls && c in changed :: ResultOk(t, c)
    requires forall c | c in s.acks && s.acks[c].Wrote? :: c in t.acks && t.acks[c].Wrote?
    ensures ResultsOk(t)
  {
    forall c | c in t.calls && c !in changed ensures ResultOk(t, c) {
      assert ResultOk(s, c);
      if s.calls[c].Returned? && s.calls[c].result == Sent && s.calls[c].sub.items != [] && !s.calls[c].waited {
        var p :| 0 <= p < |s.enqueued| && s.enqueued[p].origin == FromCall(c);
        assert t.enqueued[p].origin == FromCall(c);
      }
    }
  }

  // ----- a message in hand comes from its source

  lemma HeldIsOk(s: State, k: nat)
    requires QueueOk(s) && HeldOk(s) && k < |s.conns| && s.conns[k].sender.Holding?
    ensures MessageOk(s, s.conns[k].sender.message)
  {
    var p := |s.taken| - 1;
    assert s.enqueued[p] == s.taken[p];
    assert MessageOk(s, s.enqueued[p]);
  }

  /** Every message that a caller sends is a request, so none is ever skipped. */
  lemma NothingIsSkipped(s: State, k: nat)
    requires QueueOk(s) && ShapesOk(s) && HeldOk(s)
    ensures !SenderEnabled(s, SenderSkip(k))
  {
    if SenderEnabled(s, SenderSkip(k)) {
      HeldIsOk(s, k);
    }
  }

  // ----- steps

  /** The payload in hand is the caller's own submission. */
  lemma HeldSubmission(s: State, k: nat, c: CallId)
    requires QueueOk(s) && ShapesOk(s) && HeldOk(s) && k < |s.conns| && s.conns[k].sender.Holding?
    requires s.conns[k].sender.message.origin == FromCall(c)
    ensures c in s.calls && Submitted(s.calls[c])
    ensures Payload(s.conns[k].sender.message.event) == Msgs(s.calls[c].sub.items)
  {
    HeldIsOk(s, k);
    assert CallShape(s.calls[c]);
    EventPayload(s.calls[c].sub);
  }

  lemma WrittenWhole(conns: seq<Conn>, k: nat, items: seq<Entry>)
    requires k < |conns|
    ensures SentWhole(conns[k := Written(conns[k], Msgs(items))], items, k, |conns[k].sent|)
  {
    var sent, ms := conns[k].sent, Msgs(items);
    assert (sent + ms)[|sent|..|sent| + |ms|] == ms;
  }

  lemma WriteIsAcknowledged(s: State, k: nat, ms: seq<JsonRpcMsg>, c: CallId)
    requires QueueOk(s) && ShapesOk(s) && HeldOk(s)
    requires k < |s.conns| && s.conns[k].sender.Holding? && ms == Payload(s.conns[k].sender.message.event)
    requires s.conns[k].sender.message.origin == FromCall(c)
    ensures AckOk(WriteAll(s, k, ms), c, Wrote(k, |s.conns[k].sent|))
  {
    HeldSubmission(s, k, c);
    WrittenWhole(s.conns, k, s.calls[c].sub.items);
  }

  lemma WriteGrows(s: State, k: nat, ms: seq<JsonRpcMsg>)
    requires k < |s.conns| && s.conns[k].sender.Holding? && AllRequests(ms)
    ensures SourcesStay(s, WriteAll(s, k, ms)) && SentGrows(s, WriteAll(s, k, ms))
    ensures AcksStand(s, WriteAll(s, k, ms))
    ensures forall c | c in WriteAll(s, k, ms).acks && c !in s.acks ::
      s.conns[k].sender.message.origin == FromCall(c) && WriteAll(s, k, ms).acks[c] == Wrote(k, |s.conns[k].sent|)
  {
  }

  lemma WriteKeepsAcks(s: State, k: nat, ms: seq<JsonRpcMsg>)
    requires AcksOk(s) && QueueOk(s) && ShapesOk(s) && HeldOk(s)
    requires k < |s.conns| && s.conns[k].sender.Holding? && ms == Payload(s.conns[k].sender.message.event)
    ensures AcksOk(WriteAll(s, k, ms)) && AcksStand(s, WriteAll(s, k, ms))
  {
    var m := s.conns[k].sender.message;
    if m.origin.FromCall? {
      WriteIsAcknowledged(s, k, ms, m.origin.c);
    }
    WriteGrows(s, k, ms);
    AcksStay(s, WriteAll(s, k, ms));
  }

  lemma FailKeepsAcks(s: State, k: nat, ms: seq<JsonRpcMsg>, n: nat)
    requires AcksOk(s) && QueueOk(s) && HeldOk(s)
    requires k < |s.conns| && s.conns[k].sender.Holding?
    requires ms == Payload(s.conns[k].sender.message.event) && n < |WireText(ms)|
    ensures AcksOk(WritePart(s, k, ms, n)) && AcksStand(s, WritePart(s, k, ms, n))
  {
    HeldIsOk(s, k);
    AcksStay(s, WritePart(s, k, ms, n));
  }

  /** Acknowledgements, once given, stand. */
  ghost predicate AcksStand(s: State, t: State) {
    forall c | c in s.acks :: c in t.acks && t.acks[c] == s.acks[c]
  }

  /** Only a write, or the skipping of one, gives an acknowledgement. */
  lemma NoAck(s: State, step: Step)
    requires SenderEnabled(s, step) && !step.SenderWrite? && !step.SenderFail? && !step.SenderSkip?
    ensures ApplySender(s, step).acks == s.acks && SentGrows(s, ApplySender(s, step))
  {
  }

  lemma NoAckKeeps(s: State, step: Step)
    requires AcksOk(s) && SenderEnabled(s, step) && !step.SenderWrite? && !step.SenderFail? && !step.SenderSkip?
    ensures AcksOk(ApplySender(s, step)) && AcksStand(s, ApplySender(s, step))
  {
    NoAck(s, step);
    SenderFrame(s, step);
    SenderReceivers(s, step);
    AcksStay(s, ApplySender(s, step));
  }

  lemma SenderKeepsAcks(s: State, step: Step)
    requires AcksOk(s) && QueueOk(s) && ShapesOk(s) && HeldOk(s) && SenderEnabled(s, step)
    ensures AcksOk(ApplySender(s, step)) && AcksStand(s, ApplySender(s, step))
  {
    match step
    case SenderWrite(k) => WriteKeepsAcks(s, k, Payload(s.conns[k].sender.message.event));
    case SenderFail(k, n) => FailKeepsAcks(s, k, Payload(s.conns[k].sender.message.event), n);
    case SenderSkip(k) => NothingIsSkipped(s, k);
    case _ => NoAckKeeps(s, step);
  }

  lemma SenderKeepsResults(s: State, step: Step)
    requires AllAcksOk(s) && QueueOk(s) && ShapesOk(s) && HeldOk(s) && SenderEnabled(s, step)
    ensures AllAcksOk(ApplySender(s, step))
  {
    SenderKeepsAcks(s, step);
    SenderFrame(s, step);
    ResultsStay(s, ApplySender(s, step), {});
  }

  lemma OfferKeepsAcks(s: State, c: CallId, event: ClientEvent)
    requires AllAcksOk(s) && c in s.calls && s.calls[c].Ready?
    ensures AllAcksOk(Offer(s, c, event))
  {
    var t := Offer(s, c, event);
    OfferFrame(s, c, event);
    AcksStay(s, t);
    if Room(s) {
      assert t.enqueued[|s.enqueued|].origin == FromCall(c);
    }
    ResultsStay(s, t, {c});
  }

  lemma CallerKeepsAcks(s: State, step: Step)
    requires AllAcksOk(s) && CallerEnabled(s, step)
    ensures AllAcksOk(ApplyCaller(s, step))
  {
    if step.TrySend? {
      OfferKeepsAcks(s, step.c, s.calls[step.c].sub.Event());
    } else {
      CallerFrame(s, step);
      CallerSources(s, step);
      AcksStay(s, ApplyCaller(s, step));
      CallerKeepsResults(s, step);
    }
  }

  /** The result that a step gives its own call. */
  lemma OwnResult(s: State, step: Step)
    requires AllAcksOk(s) && CallerEnabled(s, step) && !step.TrySend?
    requires step.c in ApplyCaller(s, step).calls
    ensures ResultOk(ApplyCaller(s, step), step.c)
  {
    if step.Reply? {
      assert AckOk(s, step.c, s.acks[step.c]);
    } else {
      OnlyRepliesSucceed(s, step);
    }
  }

  /** Apart from a reply and an offer, no step returns success for a call that has requests. */
  lemma OnlyRepliesSucceed(s: State, step: Step)
    requires CallerEnabled(s, step) && !step.TrySend? && !step.Reply? && step.c in ApplyCaller(s, step).calls
    ensures var call := ApplyCaller(s, step).calls[step.c];
      call.Returned? ==> call.result == RecvTimeout || (call.result == Sent && call.sub.items == [])
  {
  }

  lemma CallerKeepsResults(s: State, step: Step)
    requires AllAcksOk(s) && CallerEnabled(s, step) && !step.TrySend?
    ensures ResultsOk(ApplyCaller(s, step))
  {
    CallerFrame(s, step);
    CallerQuiet(s, step);
    OwnResult(s, step);
    ResultsStay(s, ApplyCaller(s, step), {step.c});
  }

  lemma StepKeepsAcks(s: State, step: Step)
    requires AllAcksOk(s) && QueueOk(s) && ShapesOk(s) && HeldOk(s) && Enabled(s, step)
    ensures AllAcksOk(Apply(s, step))
  {
    var t := Apply(s, step);
    if step.Caller() {
      CallerKeepsAcks(s, step);
    } else if step.Sender() {
      SenderKeepsResults(s, step);
    } else if step.Receiver() {
      ReceiverRests(s, step);
      AcksStay(s, t);
      ResultsStay(s, t, {});
    } else {
      ControlFrame(s, step);
      AcksStay(s, t);
      ResultsStay(s, t, {});
    }
  }

  lemma ReceiverRests(s: State, step: Step)
    requires ReceiverEnabled(s, step)
    ensures var t := ApplyReceiver(s, step);
      && SourcesStay(s, t) && SentGrows(s, t) && s.enqueued <= t.enqueued && t.calls == s.calls && t.acks == s.acks
  {
    ReceiverFrame(s, step);
    if !step.ReceiverClose? {
      ReceiverSources(s, step);
    }
  }

  // ----- what this means for callers

  /** The lines of the wire number `at` and after are the texts of the requests. */
  predicate Shows(wire: string, ms: seq<JsonRpcMsg>, at: nat)
    requires AllRequests(ms)
  {
    var lines := Lines.CompleteLines(wire);
    at + |ms| <= |lines| && lines[at..at + |ms|] == Texts(ms)
  }

  /** Some connection shows all of the requests, one after the other. */
  ghost predicate ShownWhole(s: State, ms: seq<JsonRpcMsg>)
    requires AllRequests(ms)
  {
    exists k: nat, at: nat :: k < |s.conns| && Shows(s.conns[k].wire, ms, at)
  }

  lemma WholeOnTheWire(conn: Conn, ms: seq<JsonRpcMsg>, at: nat)
    requires ConnOk(conn) && AllRequests(ms) && at + |ms| <= |conn.sent| && conn.sent[at..at + |ms|] == ms
    ensures Shows(conn.wire, ms, at)
  {
    var lines := Lines.CompleteLines(conn.wire);
    WireLines(conn);
    assert lines == Texts(conn.sent);
    TextsSlice(conn.sent, at, |ms|);
  }

  /** A call that waited and returned successfully had all of its requests written
      in full, side by side, on one connection: that wire shows their texts as lines. */
  lemma SuccessWasWritten(s: State, c: CallId)
    requires AllAcksOk(s) && ConnsOk(s) && c in s.calls
    requires s.calls[c].Returned? && s.calls[c].waited && s.calls[c].result == Sent && s.calls[c].sub.items != []
    ensures ShownWhole(s, Msgs(s.calls[c].sub.items))
  {
    assert ResultOk(s, c);
    assert AckOk(s, c, s.acks[c]);
    var k, at := s.acks[c].k, s.acks[c].at;
    WholeOnTheWire(s.conns[k], Msgs(s.calls[c].sub.items), at);
  }

  lemma TextsSlice(ms: seq<JsonRpcMsg>, at: nat, n: nat)
    requires AllRequests(ms) && at + n <= |ms|
    ensures Texts(ms)[at..at + n] == Texts(ms[at..at + n])
  {
    var a, b, part := Texts(ms)[at..at + n], Texts(ms[at..at + n]), ms[at..at + n];
    forall i | 0 <= i < n ensures a[i] == b[i] {
      TextAt(ms, at + i);
      TextAt(part, i);
      assert part[i] == ms[at + i];
    }
  }
}
