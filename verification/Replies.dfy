/** Every message that a call waits for is answered once it has been dealt with, and the
    answer is the truth about the wires. */
module Replies {
  import opened Base
  import opened Messages
  import opened Lines
  import opened Framing
  import opened Machine
  import opened Frames
  import opened Ids
  import opened Queues
  import opened Transmission
  import opened Acknowledgements
  import opened Refinement
  import opened Growth
  import opened Agreement
  import opened Losses
  import opened Guarantees

  /** A call waits for the acknowledgement of this message. */
  predicate Awaited(m: Message) {
    m.waited && m.origin.FromCall?
  }

  /** Each awaited message that has been dealt with has its acknowledgement. */
  ghost predicate Replied(s: State) {
    forall p | 0 <= p < |DealtWith(s)| && Awaited(DealtWith(s)[p]) :: DealtWith(s)[p].origin.c in s.acks
  }

  // ----- steps

  /** The sender `k` deals with the message in its hand and acknowledges it, if it is awaited. */
  lemma DealingReplies(s: State, t: State, k: nat, conn: Conn)
    requires TurnsOk(s) && HeldOk(s) && Replied(s) && DealsWith(s, t, k, conn) && AcksStand(s, t)
    requires var m := s.conns[k].sender.message; Awaited(m) ==> m.origin.c in t.acks
    ensures Replied(t)
  {
    DealingKeepsTurns(s, t, k, conn);
  }

  lemma WriteReplies(s: State, k: nat, ms: seq<JsonRpcMsg>)
    requires TurnsOk(s) && HeldOk(s) && Replied(s) && k < |s.conns| && s.conns[k].sender.Holding? && AllRequests(ms)
    ensures Replied(WriteAll(s, k, ms))
  {
    DealingReplies(s, WriteAll(s, k, ms), k, Written(s.conns[k], ms));
  }

  lemma FailReplies(s: State, k: nat, ms: seq<JsonRpcMsg>, n: nat)
    requires TurnsOk(s) && HeldOk(s) && Replied(s) && k < |s.conns| && s.conns[k].sender.Holding?
    requires AllRequests(ms) && n < |WireText(ms)|
    ensures Replied(WritePart(s, k, ms, n))
  {
    DealingReplies(s, WritePart(s, k, ms, n), k, CutShort(s.conns[k], ms, n));
  }

  /** Nobody waits for a Close or a Stop. */
  lemma ControlIsNotAwaited(s: State, k: nat)
    requires QueueOk(s) && HeldOk(s) && k < |s.conns| && s.conns[k].sender.Holding?
    requires s.conns[k].sender.message.event == ClientEvent.Close || s.conns[k].sender.message.event == ClientEvent.Stop
    ensures !Awaited(s.conns[k].sender.message)
  {
    HeldIsOk(s, k);
  }

  lemma CloseReplies(s: State, k: nat)
    requires QueueOk(s) && TurnsOk(s) && HeldOk(s) && Replied(s) && SenderEnabled(s, SenderClose(k))
    ensures Replied(ApplySender(s, SenderClose(k)))
  {
    ControlIsNotAwaited(s, k);
    DealingReplies(s, ApplySender(s, SenderClose(k)), k, s.conns[k].(sender := Ending(false)));
  }

  lemma StopReplies(s: State, k: nat)
    requires QueueOk(s) && TurnsOk(s) && HeldOk(s) && Replied(s) && SenderEnabled(s, SenderStop(k))
    ensures Replied(ApplySender(s, SenderStop(k)))
  {
    ControlIsNotAwaited(s, k);
    var sender := if s.stopFlag then StopSeen else Draining;
    DealingReplies(s, ApplySender(s, SenderStop(k)), k, s.conns[k].(sender := sender));
  }

  lemma MoveReplies(s: State, step: Step)
    requires TurnsOk(s) && Replied(s) && SenderEnabled(s, step) && !Deals(step)
    ensures Replied(ApplySender(s, step))
  {
    SenderMoves(s, step);
    MovesDealWithNothing(s, ApplySender(s, step), step);
  }

  /** What a sender's step relies on here. */
  ghost predicate QueueReady(s: State) {
    QueueOk(s) && ShapesOk(s) && TurnsOk(s) && HeldOk(s)
  }

  lemma WritingReplies(s: State, step: Step)
    requires QueueReady(s) && Replied(s) && SenderEnabled(s, step) && (step.SenderWrite? || step.SenderFail?)
    ensures Replied(ApplySender(s, step))
  {
    match step
    case SenderWrite(k) => WriteReplies(s, k, Payload(s.conns[k].sender.message.event));
    case SenderFail(k, n) => FailReplies(s, k, Payload(s.conns[k].sender.message.event), n);
  }

  lemma SenderReplies(s: State, step: Step, t: State)
    requires QueueReady(s) && Replied(s) && SenderEnabled(s, step) && t == ApplySender(s, step)
    ensures Replied(t)
  {
    if step.SenderWrite? || step.SenderFail? {
      WritingReplies(s, step);
    } else if step.SenderSkip? {
      NothingIsSkipped(s, step.k);
    } else if step.SenderClose? {
      CloseReplies(s, step.k);
    } else if step.SenderStop? {
      StopReplies(s, step.k);
    } else {
      MoveReplies(s, step);
    }
  }

  lemma OthersReply(s: State, step: Step, t: State)
    requires Replied(s) && Enabled(s, step) && !step.Sender() && t == Apply(s, step)
    ensures Replied(t)
  {
    if step.Caller() {
      CallerFrame(s, step);
    } else if step.Receiver() {
      ReceiverFrame(s, step);
    } else {
      ControlFrame(s, step);
    }
    RestReplies(s, t);
  }

  lemma RestReplies(s: State, t: State)
    requires Replied(s) && SendersRest(s, t) && t.acks == s.acks
    ensures Replied(t)
  {
    assert DealtWith(t) == DealtWith(s);
  }

  lemma StepKeepsReplied(s: State, step: Step, t: State)
    requires QueueReady(s) && Replied(s) && Enabled(s, step) && t == Apply(s, step)
    ensures Replied(t)
  {
    if step.Sender() {
      SenderReplies(s, step, t);
    } else {
      OthersReply(s, step, t);
    }
  }

  lemma RunStepReplies(states: seq<State>, steps: seq<Step>, i: nat)
    requires IsRun(states, steps) && i < |steps| && InBound(states[i]) && Replied(states[i])
    ensures Replied(states[i + 1])
  {
    RunIsSettled(states, steps, i);
    StepKeepsReplied(states[i], steps[i], states[i + 1]);
  }

  lemma {:induction false} RunKeepsReplied(states: seq<State>, steps: seq<Step>, i: nat)
    requires IsRun(states, steps) && i < |states| && InBound(states[i])
    ensures Replied(states[i])
  {
    if i > 0 {
      EarlierDraws(states, steps, i - 1, i);
      RunKeepsReplied(states, steps, i - 1);
      RunStepReplies(states, steps, i - 1);
    }
  }

  // ----- what the acknowledgement says

  /** The last request of a written message is on a wire, and of one that failed it is not. */
  lemma WroteIsNotFailed(s: State, p: nat, c: CallId)
    requires Settled(s) && AcksOk(s) && LossOk(s) && p < |DealtWith(s)|
    requires DealtWith(s)[p].origin == FromCall(c) && c in s.acks && s.acks[c].Wrote?
    ensures !FailedAt(s, p)
  {
    assert AckOk(s, c, s.acks[c]);
    DealtIsFrom(s, p, c);
    SentIsOnWire(s.conns, s.calls[c].sub.items, s.acks[c].k, s.acks[c].at);
    PresentIffNotFailed(s, p);
  }

  lemma SentIsOnWire(conns: seq<Conn>, items: seq<Entry>, k: nat, at: nat)
    requires SentWhole(conns, items, k, at)
    ensures AllOnWire(conns, Msgs(items))
  {
    var ms := Msgs(items);
    forall m | m in ms ensures OnWire(conns, m) {
      var i :| 0 <= i < |ms| && ms[i] == m;
      assert conns[k].sent[at..at + |items|][i] == conns[k].sent[at + i];
    }
  }

  lemma DealtIsFrom(s: State, p: nat, c: CallId)
    requires Settled(s) && p < |DealtWith(s)| && DealtWith(s)[p].origin == FromCall(c)
    ensures c in s.calls && Submitted(s.calls[c]) && DealtPayload(s, p) == Msgs(s.calls[c].sub.items)
    ensures s.enqueued[p] == DealtWith(s)[p]
  {
    assert s.enqueued[p] == s.taken[p];
    assert MessageOk(s, s.enqueued[p]);
    assert CallShape(s.calls[c]);
    EventPayload(s.calls[c].sub);
  }

  lemma OnlyOneFrom(s: State, p: nat, q: nat)
    requires OnceEach(s) && p < |s.enqueued| && q < |s.enqueued|
    requires s.enqueued[p].origin == s.enqueued[q].origin && s.enqueued[p].origin.FromCall?
    ensures p == q
  {
  }

  lemma NotWrittenIsFailed(s: State, p: nat, c: CallId)
    requires Settled(s) && LossOk(s) && p < |DealtWith(s)|
    requires DealtWith(s)[p].origin == FromCall(c) && c in s.acks && s.acks[c] == NotWritten
    ensures FailedAt(s, p)
  {
    assert ToldTruly(s, c);
    var q :| 0 <= q < |DealtWith(s)| && FailedAt(s, q) && DealtWith(s)[q].origin == FromCall(c);
    DealtIsFrom(s, p, c);
    DealtIsFrom(s, q, c);
    OnlyOneFrom(s, p, q);
  }

  /** At every moment of every run, a message that a call waits for is not yet taken, or
      in its sender's hands, or acknowledged: with success if all of its requests are
      lines on the wires, and otherwise with failure. */
  lemma RunReplies(states: seq<State>, steps: seq<Step>, i: nat, p: nat)
    requires IsRun(states, steps) && i < |states| && InBound(states[i])
    requires p < |states[i].taken| && Awaited(states[i].taken[p])
    ensures (InHand(states[i]) && p == |states[i].taken| - 1)
      || AcknowledgedTruly(states[i], states[i].taken[p])
  {
    var s := states[i];
    RunKeepsReplied(states, steps, i);
    RunIsSettled(states, steps, i);
    RunKeepsLoss(states, steps, i);
    RunAccountsForTaken(states, steps, i, p);
    if !(InHand(s) && p == |s.taken| - 1) {
      assert DealtWith(s)[p] == s.taken[p];
      DealtIsAcknowledged(s, p, s.taken[p].origin.c);
    }
  }

  ghost predicate AcknowledgedTruly(s: State, m: Message) {
    && Awaited(m) && m.origin.c in s.acks && s.acks[m.origin.c] != Lost
    && (s.acks[m.origin.c].Wrote? <==> AllShown(s, Payload(m.event)))
  }

  lemma DealtIsAcknowledged(s: State, p: nat, c: CallId)
    requires Settled(s) && AcksOk(s) && LossOk(s) && Replied(s) && p < |DealtWith(s)|
    requires Awaited(DealtWith(s)[p]) && DealtWith(s)[p].origin.c == c
    requires AllShown(s, DealtPayload(s, p)) <==> !FailedAt(s, p)
    ensures AcknowledgedTruly(s, DealtWith(s)[p])
  {
    assert AckOk(s, c, s.acks[c]);
    if s.acks[c].Wrote? {
      WroteIsNotFailed(s, p, c);
    } else {
      NotWrittenIsFailed(s, p, c);
    }
  }

  /** Whenever, in a run, a call takes its acknowledgement, it returns with success if and
      only if all of its requests are whole on one wire, and otherwise it is told
      MessageNotSent. */
  lemma RunReplyDecides(states: seq<State>, steps: seq<Step>, i: nat, c: CallId)
    requires IsRun(states, steps) && i < |steps| && InBound(states[i + 1]) && steps[i] == Reply(c)
    ensures c in states[i + 1].calls && states[i + 1].calls[c].Returned?
    ensures var call := states[i + 1].calls[c];
      call.result == if ShownWhole(states[i + 1], Msgs(call.sub.items)) then Sent else MessageNotSent
  {
    var s, t := states[i], states[i + 1];
    EarlierDraws(states, steps, i, i + 1);
    RunIsSettled(states, steps, i);
    assert AckOk(s, c, s.acks[c]) && CallShape(s.calls[c]);
    ReplyTells(s, c);
    if t.calls[c].result == Sent {
      RunAcknowledgesTruly(states, steps, i + 1, c);
    } else {
      RunRefusesTruly(states, steps, i + 1, c);
    }
  }

  lemma ReplyTells(s: State, c: CallId)
    requires CallerEnabled(s, Reply(c)) && AckOk(s, c, s.acks[c]) && CallShape(s.calls[c])
    ensures var t := ApplyCaller(s, Reply(c));
      && c in t.calls && t.calls[c].Returned? && t.calls[c].waited && t.calls[c].sub.items != []
      && t.calls[c].result == if s.acks[c].Wrote? then Sent else MessageNotSent
  {
  }
}
