/** Which requests are lost, and what a call that is told so may rely on. */
module Losses {
  import opened Base
  import opened Messages
  import opened Lines
  import opened Framing
  import opened Machine
  import opened Frames
  import opened Ids
  import opened Queues
  import opened Transmission
  import opened Acknowledgements
  import opened Refinement
  import opened Growth
  import opened Agreement

  /** Some connection was sent the request. */
  ghost predicate OnWire(conns: seq<Conn>, m: JsonRpcMsg) {
    exists k | 0 <= k < |conns| :: m in conns[k].sent
  }

  ghost predicate AllOnWire(conns: seq<Conn>, ms: seq<JsonRpcMsg>) {
    forall m | m in ms :: OnWire(conns, m)
  }

  /** The write of the taken message number `p` failed. */
  ghost predicate FailedAt(s: State, p: nat) {
    exists k :: k in s.failed && s.failed[k] == p
  }

  function DealtPayload(s: State, p: nat): (ms: seq<JsonRpcMsg>)
    requires p < |DealtWith(s)|
    ensures AllRequests(ms)
  {
    Payload(DealtWith(s)[p].event)
  }

  /** Every message dealt with is on the wires, request by request, or its write failed. */
  ghost predicate NoneMissing(s: State) {
    forall p | 0 <= p < |DealtWith(s)| :: FailedAt(s, p) || AllOnWire(s.conns, DealtPayload(s, p))
  }

  /** A connection fails once, and then writes nothing more; the last request of the
      message whose write failed is on no wire. */
  ghost predicate LostAt(s: State, k: nat) {
    && k in s.failed && k < |s.conns| && s.failed[k] < |DealtWith(s)|
    && (s.conns[k].sender == Ending(true) || s.conns[k].sender == Finished(true))
    && var ms := DealtPayload(s, s.failed[k]); ms != [] && !OnWire(s.conns, ms[|ms| - 1])
  }

  ghost predicate FailedOk(s: State) {
    forall k | k in s.failed :: LostAt(s, k)
  }

  /** The call was told that its message was not written, and that is so. */
  ghost predicate ToldTruly(s: State, c: CallId) {
    exists p | 0 <= p < |DealtWith(s)| :: FailedAt(s, p) && DealtWith(s)[p].origin == FromCall(c)
  }

  ghost predicate RefusalsOk(s: State) {
    forall c | c in s.acks && s.acks[c] == NotWritten :: ToldTruly(s, c)
  }

  ghost predicate LossOk(s: State) {
    NoneMissing(s) && FailedOk(s) && RefusalsOk(s)
  }

  // ----- steps that send nothing

  ghost predicate SendsNothing(s: State, t: State) {
    && |s.conns| <= |t.conns| && DealtWith(t) == DealtWith(s) && t.failed == s.failed && t.acks == s.acks
    && (forall k | 0 <= k < |s.conns| :: t.conns[k].sent == s.conns[k].sent)
    && (forall k | |s.conns| <= k < |t.conns| :: t.conns[k].sent == [])
  }

  /** No failed connection comes back. */
  ghost predicate StaysFailed(s: State, t: State) {
    && |s.conns| <= |t.conns|
    && forall k | 0 <= k < |s.conns| && (s.conns[k].sender == Ending(true) || s.conns[k].sender == Finished(true)) ::
         t.conns[k].sender == Ending(true) || t.conns[k].sender == Finished(true)
  }

  lemma SameWires(s: State, t: State, m: JsonRpcMsg)
    requires SendsNothing(s, t)
    ensures OnWire(t.conns, m) <==> OnWire(s.conns, m)
  {
    if k :| 0 <= k < |s.conns| && m in s.conns[k].sent {
      assert m in t.conns[k].sent;
    }
  }

  lemma NothingKeepsLost(s: State, t: State, k: nat)
    requires SendsNothing(s, t) && StaysFailed(s, t) && LostAt(s, k)
    ensures LostAt(t, k)
  {
    var ms := DealtPayload(s, s.failed[k]);
    SameWires(s, t, ms[|ms| - 1]);
  }

  lemma NothingKeeps(s: State, t: State)
    requires LossOk(s) && SendsNothing(s, t) && StaysFailed(s, t)
    ensures LossOk(t)
  {
    forall p | 0 <= p < |DealtWith(t)| ensures FailedAt(t, p) || AllOnWire(t.conns, DealtPayload(t, p)) {
      if AllOnWire(s.conns, DealtPayload(s, p)) {
        forall m | m in DealtPayload(s, p) ensures OnWire(t.conns, m) { SameWires(s, t, m); }
      } else {
        assert FailedAt(s, p);
      }
    }
    forall k | k in t.failed ensures LostAt(t, k) { NothingKeepsLost(s, t, k); }
    forall c | c in t.acks && t.acks[c] == NotWritten ensures ToldTruly(t, c) {
      assert ToldTruly(s, c);
      var p :| 0 <= p < |DealtWith(s)| && FailedAt(s, p) && DealtWith(s)[p].origin == FromCall(c);
      assert FailedAt(t, p);
    }
  }

  // ----- dealing with the message in hand

  lemma SentWasDealt(s: State, k: nat, m: JsonRpcMsg) returns (p: nat)
    requires Settled(s) && k < |s.conns| && m in s.conns[k].sent
    ensures p < |DealtWith(s)| && m in DealtPayload(s, p)
  {
    p := SentWasCarriedBy(s, k, m);
  }

  /** No request of the message in hand is on a wire yet. */
  lemma HeldIsUnsent(s: State, m: JsonRpcMsg)
    requires Settled(s) && s.taken != [] && |DealtWith(s)| == |s.taken| - 1
    requires m in Payload(s.taken[|s.taken| - 1].event)
    ensures !OnWire(s.conns, m)
  {
    if k :| 0 <= k < |s.conns| && m in s.conns[k].sent {
      var p := SentWasDealt(s, k, m);
      NotInBoth(s, p, |s.taken| - 1, m);
    }
  }

  /** Two taken messages have no request in common. */
  lemma NotInBoth(s: State, p: nat, q: nat, m: JsonRpcMsg)
    requires Settled(s) && p < |s.taken| && q < |s.taken| && p != q
    requires m in Payload(s.taken[p].event)
    ensures m !in Payload(s.taken[q].event)
  {
    assert s.enqueued[p] == s.taken[p] && s.enqueued[q] == s.taken[q];
    var a, b := Payload(s.taken[p].event), Payload(s.taken[q].event);
    var i :| 0 <= i < |a| && a[i] == m;
    if m in b {
      var j :| 0 <= j < |b| && b[j] == m;
      PayloadsApart(s, p, q, i, j);
    }
  }

  /** The requests of the message in hand are new: distinct, on no wire, and in no
      message dealt with before. */
  ghost predicate HeldIsNew(s: State, ms: seq<JsonRpcMsg>) {
    && DistinctIds(ms)
    && (forall m | m in ms :: !OnWire(s.conns, m))
    && (forall p, m | 0 <= p < |DealtWith(s)| && m in DealtPayload(s, p) :: m !in ms)
  }

  lemma HoldsNew(s: State, k: nat)
    requires Settled(s) && k < |s.conns| && s.conns[k].sender.Holding?
    ensures HeldIsNew(s, Payload(s.conns[k].sender.message.event))
  {
    var last := |s.taken| - 1;
    InHandIsLast(s, k);
    assert s.enqueued[last] == s.taken[last];
    PayloadDistinct(s, last);
    forall m | m in Payload(s.taken[last].event) ensures !OnWire(s.conns, m) { HeldIsUnsent(s, m); }
    forall p, m | 0 <= p < |DealtWith(s)| && m in DealtPayload(s, p) ensures m !in Payload(s.taken[last].event) {
      NotInBoth(s, p, last, m);
    }
  }

  lemma InHandIsLast(s: State, k: nat)
    requires TurnsOk(s) && HeldOk(s) && k < |s.conns| && s.conns[k].sender.Holding?
    ensures s.taken != [] && s.taken[|s.taken| - 1] == s.conns[k].sender.message
    ensures DealtWith(s) == s.taken[..|s.taken| - 1]
  {
    assert s.conns[k].sender.OwnsQueue();
  }

  /** The sender `k` deals with the message in its hand: the first `n` of its requests
      are on the wire, and the write has failed unless that is all of them. */
  ghost predicate DealsInPart(s: State, t: State, k: nat, conn: Conn, n: nat) {
    && DealsWith(s, t, k, conn)
    && var ms := Payload(s.conns[k].sender.message.event);
      && n <= |ms| && conn.sent == s.conns[k].sent + ms[..n]
      && t.failed == (if n < |ms| then s.failed[k := LastTaken(s)] else s.failed)
      && (n < |ms| ==> conn.sender == Ending(true))
  }

  lemma WireGrows(s: State, t: State, k: nat, conn: Conn, n: nat, m: JsonRpcMsg)
    requires DealsInPart(s, t, k, conn, n)
    ensures OnWire(t.conns, m) <==> OnWire(s.conns, m) || m in Payload(s.conns[k].sender.message.event)[..n]
  {
    var added := Payload(s.conns[k].sender.message.event)[..n];
    if j :| 0 <= j < |s.conns| && m in s.conns[j].sent {
      assert m in t.conns[j].sent;
    }
    if m in added {
      assert m in t.conns[k].sent;
    }
  }

  /** What dealing with the message does to the record. */
  lemma DealingAdds(s: State, t: State, k: nat, conn: Conn, n: nat)
    requires TurnsOk(s) && HeldOk(s) && DealsInPart(s, t, k, conn, n)
    ensures s.taken != [] && s.taken[|s.taken| - 1] == s.conns[k].sender.message
    ensures |DealtWith(s)| == |s.taken| - 1 && DealtWith(t) == DealtWith(s) + [s.conns[k].sender.message]
    ensures DealtWith(s) == s.taken[..|s.taken| - 1] && DealtWith(t) == s.taken
  {
    DealingKeepsTurns(s, t, k, conn);
  }

  lemma FailureStays(s: State, t: State, k: nat, conn: Conn, n: nat, p: nat)
    requires FailedOk(s) && DealsInPart(s, t, k, conn, n) && FailedAt(s, p)
    ensures FailedAt(t, p)
  {
    var j :| j in s.failed && s.failed[j] == p;
    assert LostAt(s, j) && j != k;
    assert j in t.failed && t.failed[j] == p;
  }

  lemma DealtIsPresent(s: State, t: State, k: nat, conn: Conn, n: nat)
    requires DealsInPart(s, t, k, conn, n)
    ensures var ms := Payload(s.conns[k].sender.message.event);
      if n < |ms| then FailedAt(t, LastTaken(s)) else AllOnWire(t.conns, ms)
  {
    var ms := Payload(s.conns[k].sender.message.event);
    if n < |ms| {
      assert k in t.failed;
    } else {
      assert ms[..n] == ms;
      forall m | m in ms ensures OnWire(t.conns, m) { WireGrows(s, t, k, conn, n, m); }
    }
  }

  lemma DealingKeepsPresent(s: State, t: State, k: nat, conn: Conn, n: nat)
    requires TurnsOk(s) && HeldOk(s) && NoneMissing(s) && FailedOk(s) && DealsInPart(s, t, k, conn, n)
    ensures NoneMissing(t)
  {
    DealingAdds(s, t, k, conn, n);
    DealtIsPresent(s, t, k, conn, n);
    forall p | 0 <= p < |DealtWith(t)| ensures FailedAt(t, p) || AllOnWire(t.conns, DealtPayload(t, p)) {
      if p < |DealtWith(s)| {
        assert DealtPayload(t, p) == DealtPayload(s, p);
        if FailedAt(s, p) {
          FailureStays(s, t, k, conn, n, p);
        } else {
          forall m | m in DealtPayload(s, p) ensures OnWire(t.conns, m) { WireGrows(s, t, k, conn, n, m); }
        }
      }
    }
  }

  lemma LostStays(s: State, t: State, k: nat, conn: Conn, n: nat, j: nat)
    requires TurnsOk(s) && HeldOk(s) && k < |s.conns| && s.conns[k].sender.Holding?
    requires HeldIsNew(s, Payload(s.conns[k].sender.message.event))
    requires DealsInPart(s, t, k, conn, n) && LostAt(s, j)
    ensures j in t.failed && LostAt(t, j)
  {
    DealingAdds(s, t, k, conn, n);
    var p, ms := s.failed[j], DealtPayload(s, s.failed[j]);
    assert DealtWith(t)[p] == DealtWith(s)[p] && DealtPayload(t, p) == ms;
    var m, held := ms[|ms| - 1], Payload(s.conns[k].sender.message.event);
    assert m in DealtPayload(s, p) && m !in held && m !in held[..n];
    WireGrows(s, t, k, conn, n, m);
  }

  /** The last request of the message whose write fails does not reach the wire. */
  lemma LastIsLost(s: State, t: State, k: nat, conn: Conn, n: nat)
    requires TurnsOk(s) && HeldOk(s) && k < |s.conns| && s.conns[k].sender.Holding?
    requires HeldIsNew(s, Payload(s.conns[k].sender.message.event))
    requires DealsInPart(s, t, k, conn, n) && n < |Payload(s.conns[k].sender.message.event)|
    ensures k in t.failed && LostAt(t, k)
  {
    DealingAdds(s, t, k, conn, n);
    var ms := Payload(s.conns[k].sender.message.event);
    WireGrows(s, t, k, conn, n, ms[|ms| - 1]);
    assert DealtPayload(t, |s.taken| - 1) == ms;
  }

  lemma DealingKeepsFailed(s: State, t: State, k: nat, conn: Conn, n: nat)
    requires TurnsOk(s) && HeldOk(s) && k < |s.conns| && s.conns[k].sender.Holding?
    requires HeldIsNew(s, Payload(s.conns[k].sender.message.event))
    requires FailedOk(s) && DealsInPart(s, t, k, conn, n)
    ensures FailedOk(t)
  {
    forall j | j in t.failed ensures LostAt(t, j) {
      if j == k {
        assert j in s.failed ==> LostAt(s, j);
        LastIsLost(s, t, k, conn, n);
      } else {
        LostStays(s, t, k, conn, n, j);
      }
    }
  }

  lemma ToldStays(s: State, t: State, k: nat, conn: Conn, n: nat, c: CallId)
    requires TurnsOk(s) && HeldOk(s) && FailedOk(s) && DealsInPart(s, t, k, conn, n) && ToldTruly(s, c)
    ensures ToldTruly(t, c)
  {
    DealingAdds(s, t, k, conn, n);
    var p :| 0 <= p < |DealtWith(s)| && FailedAt(s, p) && DealtWith(s)[p].origin == FromCall(c);
    FailureStays(s, t, k, conn, n, p);
    assert DealtWith(t)[p] == DealtWith(s)[p];
  }

  lemma FailureIsTold(s: State, t: State, k: nat, conn: Conn, n: nat, c: CallId)
    requires TurnsOk(s) && HeldOk(s) && DealsInPart(s, t, k, conn, n)
    requires n < |Payload(s.conns[k].sender.message.event)|
    requires s.conns[k].sender.message.origin == FromCall(c)
    ensures ToldTruly(t, c)
  {
    DealingAdds(s, t, k, conn, n);
    var p := |s.taken| - 1;
    assert k in t.failed && t.failed[k] == p;
    assert FailedAt(t, p) && DealtWith(t)[p].origin == FromCall(c);
  }

  lemma DealingKeepsTold(s: State, t: State, k: nat, conn: Conn, n: nat)
    requires TurnsOk(s) && HeldOk(s) && FailedOk(s) && RefusalsOk(s) && DealsInPart(s, t, k, conn, n)
    requires forall c | c in t.acks && t.acks[c] == NotWritten ::
      || (c in s.acks && s.acks[c] == NotWritten)
      || (s.conns[k].sender.message.origin == FromCall(c) && n < |Payload(s.conns[k].sender.message.event)|)
    ensures RefusalsOk(t)
  {
    forall c | c in t.acks && t.acks[c] == NotWritten ensures ToldTruly(t, c) {
      if c in s.acks && s.acks[c] == NotWritten {
        ToldStays(s, t, k, conn, n, c);
      } else {
        FailureIsTold(s, t, k, conn, n, c);
      }
    }
  }

  lemma DealingKeepsLoss(s: State, t: State, k: nat, conn: Conn, n: nat)
    requires TurnsOk(s) && HeldOk(s) && LossOk(s) && DealsInPart(s, t, k, conn, n)
    requires HeldIsNew(s, Payload(s.conns[k].sender.message.event))
    requires forall c | c in t.acks && t.acks[c] == NotWritten ::
      || (c in s.acks && s.acks[c] == NotWritten)
      || (s.conns[k].sender.message.origin == FromCall(c) && n < |Payload(s.conns[k].sender.message.event)|)
    ensures LossOk(t)
  {
    DealingKeepsPresent(s, t, k, conn, n);
    DealingKeepsFailed(s, t, k, conn, n);
    DealingKeepsTold(s, t, k, conn, n);
  }

  // ----- steps

  lemma WriteKeepsLoss(s: State, k: nat, ms: seq<JsonRpcMsg>)
    requires TurnsOk(s) && HeldOk(s) && LossOk(s) && k < |s.conns| && s.conns[k].sender.Holding?
    requires ms == Payload(s.conns[k].sender.message.event) && HeldIsNew(s, ms)
    ensures LossOk(WriteAll(s, k, ms))
  {
    assert ms[..|ms|] == ms;
    DealingKeepsLoss(s, WriteAll(s, k, ms), k, Written(s.conns[k], ms), |ms|);
  }

  lemma FailKeepsLoss(s: State, k: nat, ms: seq<JsonRpcMsg>, n: nat)
    requires TurnsOk(s) && HeldOk(s) && LossOk(s) && k < |s.conns| && s.conns[k].sender.Holding?
    requires ms == Payload(s.conns[k].sender.message.event) && HeldIsNew(s, ms) && n < |WireText(ms)|
    ensures LossOk(WritePart(s, k, ms, n))
  {
    CutWireText(ms, n);
    DealingKeepsLoss(s, WritePart(s, k, ms, n), k, CutShort(s.conns[k], ms, n), WholeLines(Texts(ms), n));
  }

  /** The message in hand puts nothing on the wire. */
  lemma SilentKeepsLoss(s: State, t: State, k: nat, sender: SenderTask)
    requires TurnsOk(s) && HeldOk(s) && LossOk(s) && k < |s.conns| && s.conns[k].sender.Holding?
    requires Payload(s.conns[k].sender.message.event) == []
    requires DealsWith(s, t, k, s.conns[k].(sender := sender)) && t.failed == s.failed && t.acks == s.acks
    ensures LossOk(t)
  {
    var conn := s.conns[k].(sender := sender);
    assert conn.sent == s.conns[k].sent + Payload(s.conns[k].sender.message.event)[..0];
    DealingKeepsLoss(s, t, k, conn, 0);
  }

  /** The sender moves on without having had a message in hand, or with one just taken. */
  ghost predicate OnlyMoves(s: State, t: State, k: nat, sender: SenderTask) {
    && k < |s.conns| && t.conns == s.conns[k := s.conns[k].(sender := sender)]
    && !s.conns[k].sender.Holding? && t.failed == s.failed && t.acks == s.acks
    && (s.conns[k].sender == Ending(true) ==> sender == Finished(true))
    && s.conns[k].sender != Finished(true)
  }

  lemma MovingKeepsLoss(s: State, t: State, k: nat, sender: SenderTask)
    requires LossOk(s) && OnlyMoves(s, t, k, sender) && DealtWith(t) == DealtWith(s)
    ensures LossOk(t)
  {
    NothingKeeps(s, t);
  }

  predicate Deals(step: Step) {
    step.SenderWrite? || step.SenderFail? || step.SenderSkip? || step.SenderClose? || step.SenderStop?
  }

  function Moved(s: State, step: Step): SenderTask
    requires SenderEnabled(s, step) && !Deals(step)
  {
    match step
    case SenderLock(_) => Draining
    case SenderTake(_) => Holding(s.queue[0])
    case SenderStopped(_) => StopRecorded
    case SenderUnflag(_) => StopCleared
    case SenderNotify(_) => Ending(false)
    case SenderFinish(k) => Finished(s.conns[k].sender.failed)
  }

  lemma SenderMoves(s: State, step: Step)
    requires SenderEnabled(s, step) && !Deals(step)
    ensures OnlyMoves(s, ApplySender(s, step), step.k, Moved(s, step))
    ensures !step.SenderTake? ==> ApplySender(s, step).taken == s.taken
    ensures step.SenderTake? ==> ApplySender(s, step).taken == s.taken + [s.queue[0]]
    ensures ApplySender(s, step).holder
         == if step.SenderLock? then Some(step.k) else if step.SenderFinish? then None else s.holder
  {
  }

  lemma MovesDealWithNothing(s: State, t: State, step: Step)
    requires TurnsOk(s) && SenderEnabled(s, step) && !Deals(step) && OnlyMoves(s, t, step.k, Moved(s, step))
    requires !step.SenderTake? ==> t.taken == s.taken
    requires step.SenderTake? ==> t.taken == s.taken + [s.queue[0]]
    requires t.holder == if step.SenderLock? then Some(step.k) else if step.SenderFinish? then None else s.holder
    ensures DealtWith(t) == DealtWith(s)
  {
    if step.SenderTake? {
      assert s.holder == Some(step.k);
      assert InHand(t) && !InHand(s) && t.taken[..|t.taken| - 1] == s.taken;
    } else if !step.SenderLock? {
      assert s.holder == Some(step.k);
    }
  }

  lemma MoveKeepsLoss(s: State, step: Step)
    requires TurnsOk(s) && LossOk(s) && SenderEnabled(s, step) && !Deals(step)
    ensures LossOk(ApplySender(s, step))
  {
    SenderMoves(s, step);
    MovesDealWithNothing(s, ApplySender(s, step), step);
    MovingKeepsLoss(s, ApplySender(s, step), step.k, Moved(s, step));
  }

  lemma CloseKeepsLoss(s: State, k: nat)
    requires TurnsOk(s) && HeldOk(s) && LossOk(s) && SenderEnabled(s, SenderClose(k))
    ensures LossOk(ApplySender(s, SenderClose(k)))
  {
    SilentKeepsLoss(s, ApplySender(s, SenderClose(k)), k, Ending(false));
  }

  lemma StopKeepsLoss(s: State, k: nat)
    requires TurnsOk(s) && HeldOk(s) && LossOk(s) && SenderEnabled(s, SenderStop(k))
    ensures LossOk(ApplySender(s, SenderStop(k)))
  {
    SilentKeepsLoss(s, ApplySender(s, SenderStop(k)), k, if s.stopFlag then StopSeen else Draining);
  }

  lemma SentKeepsLoss(s: State, step: Step)
    requires TurnsOk(s) && HeldOk(s) && LossOk(s) && SenderEnabled(s, step) && (step.SenderWrite? || step.SenderFail?)
    requires HeldIsNew(s, Payload(s.conns[step.k].sender.message.event))
    ensures LossOk(ApplySender(s, step))
  {
    match step
    case SenderWrite(k) => WriteKeepsLoss(s, k, Payload(s.conns[k].sender.message.event));
    case SenderFail(k, n) => FailKeepsLoss(s, k, Payload(s.conns[k].sender.message.event), n);
  }

  /** What a sender's step may rely on: turns, and that what it writes is new. */
  ghost predicate SenderReady(s: State, step: Step)
    requires SenderEnabled(s, step)
  {
    && TurnsOk(s) && HeldOk(s) && !step.SenderSkip?
    && (step.SenderWrite? || step.SenderFail? ==> HeldIsNew(s, Payload(s.conns[step.k].sender.message.event)))
  }

  lemma SettledIsReady(s: State, step: Step)
    requires Settled(s) && SenderEnabled(s, step)
    ensures SenderReady(s, step)
  {
    if step.SenderWrite? || step.SenderFail? {
      HoldsNew(s, step.k);
    } else if step.SenderSkip? {
      NothingIsSkipped(s, step.k);
    }
  }

  lemma SenderKeepsLoss(s: State, step: Step, t: State)
    requires SenderEnabled(s, step) && SenderReady(s, step) && LossOk(s) && t == ApplySender(s, step)
    ensures LossOk(t)
  {
    if step.SenderWrite? || step.SenderFail? {
      SentKeepsLoss(s, step);
    } else if step.SenderClose? {
      CloseKeepsLoss(s, step.k);
    } else if step.SenderStop? {
      StopKeepsLoss(s, step.k);
    } else {
      MoveKeepsLoss(s, step);
    }
  }

  /** A step of anybody but a sender. */
  lemma OthersKeepLoss(s: State, t: State)
    requires LossOk(s) && SendersRest(s, t) && t.failed == s.failed && t.acks == s.acks
    requires forall k | |s.conns| <= k < |t.conns| :: t.conns[k].sent == []
    ensures LossOk(t)
  {
    assert DealtWith(t) == DealtWith(s);
    NothingKeeps(s, t);
  }

  lemma OtherStepKeepsLoss(s: State, step: Step, t: State)
    requires LossOk(s) && Enabled(s, step) && !step.Sender() && t == Apply(s, step)
    ensures LossOk(t)
  {
    if step.Caller() {
      CallerFrame(s, step);
    } else if step.Receiver() {
      ReceiverFrame(s, step);
    } else {
      ControlFrame(s, step);
    }
    OthersKeepLoss(s, t);
  }

  lemma StepKeepsLoss(s: State, step: Step, t: State)
    requires Enabled(s, step) && LossOk(s) && t == Apply(s, step)
    requires step.Sender() ==> SenderReady(s, step)
    ensures LossOk(t)
  {
    if step.Sender() {
      SenderKeepsLoss(s, step, t);
    } else {
      OtherStepKeepsLoss(s, step, t);
    }
  }

  lemma RunIsSettled(states: seq<State>, steps: seq<Step>, i: nat)
    requires IsRun(states, steps) && i < |states| && InBound(states[i])
    ensures Settled(states[i]) && AcksOk(states[i])
  {
    RunKeepsInv(states, steps, i);
  }

  lemma RunIsReady(states: seq<State>, steps: seq<Step>, i: nat)
    requires IsRun(states, steps) && i < |steps| && InBound(states[i])
    ensures Enabled(states[i], steps[i]) && states[i + 1] == Apply(states[i], steps[i])
    ensures steps[i].Sender() ==> SenderReady(states[i], steps[i])
  {
    if steps[i].Sender() {
      RunIsSettled(states, steps, i);
      SettledIsReady(states[i], steps[i]);
    }
  }

  lemma {:induction false} RunKeepsLoss(states: seq<State>, steps: seq<Step>, i: nat)
    requires IsRun(states, steps) && i < |states| && InBound(states[i])
    ensures LossOk(states[i])
  {
    if i > 0 {
      EarlierDraws(states, steps, i - 1, i);
      RunKeepsLoss(states, steps, i - 1);
      RunIsReady(states, steps, i - 1);
      StepKeepsLoss(states[i - 1], steps[i - 1], states[i]);
    }
  }

  // ----- failures stand, and are of different messages

  predicate Apart(failed: map<nat, nat>) {
    forall j, k | j in failed && k in failed && failed[j] == failed[k] :: j == k
  }

  predicate Stand(a: map<nat, nat>, b: map<nat, nat>) {
    forall k | k in a :: k in b && b[k] == a[k]
  }

  lemma NewEntry(a: map<nat, nat>, k: nat, p: nat)
    requires k !in a && forall j | j in a :: a[j] != p
    ensures Stand(a, a[k := p]) && (Apart(a) ==> Apart(a[k := p]))
  {
  }

  lemma StandOn(a: map<nat, nat>, b: map<nat, nat>, c: map<nat, nat>)
    requires Stand(a, b) && Stand(b, c)
    ensures Stand(a, c)
  {
  }

  lemma StepFails(s: State, step: Step)
    requires Enabled(s, step)
    ensures Apply(s, step).failed == if step.SenderFail? then s.failed[step.k := LastTaken(s)] else s.failed
  {
    if step.Caller() {
      CallerFrame(s, step);
    } else if step.Receiver() {
      ReceiverFrame(s, step);
    } else if !step.Sender() {
      ControlFrame(s, step);
    }
  }

  lemma FailureIsNew(s: State, k: nat)
    requires TurnsOk(s) && HeldOk(s) && FailedOk(s) && k < |s.conns| && s.conns[k].sender.Holding?
    ensures k !in s.failed && forall j | j in s.failed :: s.failed[j] != LastTaken(s)
  {
    InHandIsLast(s, k);
    forall j | j in s.failed ensures j != k && s.failed[j] != LastTaken(s) {
      assert LostAt(s, j);
    }
  }

  lemma RunStepFails(states: seq<State>, steps: seq<Step>, i: nat)
    requires IsRun(states, steps) && i < |steps| && InBound(states[i])
    ensures Stand(states[i].failed, states[i + 1].failed)
    ensures Apart(states[i].failed) ==> Apart(states[i + 1].failed)
  {
    StepFails(states[i], steps[i]);
    if steps[i].SenderFail? {
      RunIsSettled(states, steps, i);
      RunKeepsLoss(states, steps, i);
      FailureIsNew(states[i], steps[i].k);
      NewEntry(states[i].failed, steps[i].k, LastTaken(states[i]));
    }
  }

  lemma {:induction false} RunFailuresStand(states: seq<State>, steps: seq<Step>, i: nat, j: nat)
    requires IsRun(states, steps) && i <= j < |states| && InBound(states[j])
    ensures Stand(states[i].failed, states[j].failed)
  {
    if i < j {
      EarlierDraws(states, steps, j - 1, j);
      RunFailuresStand(states, steps, i, j - 1);
      RunStepFails(states, steps, j - 1);
      StandOn(states[i].failed, states[j - 1].failed, states[j].failed);
    }
  }

  lemma {:induction false} RunFailuresApart(states: seq<State>, steps: seq<Step>, i: nat)
    requires IsRun(states, steps) && i < |states| && InBound(states[i])
    ensures Apart(states[i].failed)
  {
    if i > 0 {
      EarlierDraws(states, steps, i - 1, i);
      RunFailuresApart(states, steps, i - 1);
      RunStepFails(states, steps, i - 1);
    }
  }

  // ----- refusals

  /** The call never had a message in the queue. */
  ghost predicate NeverEnqueued(s: State, c: CallId) {
    forall p | 0 <= p < |s.enqueued| :: s.enqueued[p].origin != FromCall(c)
  }

  /** A call is told that its message was not sent when the queue refused it, or when its write failed. */
  ghost predicate RefusedBy(s: State, c: CallId) {
    NeverEnqueued(s, c) || (c in s.acks && s.acks[c] == NotWritten)
  }

  ghost predicate RefusedOk(s: State) {
    forall c | c in s.calls && s.calls[c].Returned? && s.calls[c].result == MessageNotSent :: RefusedBy(s, c)
  }

  lemma RefusalStands(s: State, t: State, c: CallId)
    requires Extends(s, t) && AcksStand(s, t) && c in s.calls && s.calls[c].Returned? && RefusedBy(s, c)
    ensures RefusedBy(t, c)
  {
    if NeverEnqueued(s, c) {
      forall p | 0 <= p < |t.enqueued| ensures t.enqueued[p].origin != FromCall(c) {
        if |s.enqueued| <= p {
          assert NotFromReturned(s, t.enqueued[p]);
        }
      }
    }
  }

  /** Only the call `c` may have become one that returned. */
  lemma RefusalsStand(s: State, t: State, c: CallId)
    requires RefusedOk(s) && Extends(s, t) && AcksStand(s, t)
    requires forall d | d in t.calls && d != c :: d in s.calls && t.calls[d] == s.calls[d]
    requires c in t.calls && t.calls[c].Returned? && t.calls[c].result == MessageNotSent ==>
      (c in s.calls && s.calls[c] == t.calls[c]) || RefusedBy(t, c)
    ensures RefusedOk(t)
  {
    forall d | d in t.calls && t.calls[d].Returned? && t.calls[d].result == MessageNotSent ensures RefusedBy(t, d) {
      if d in s.calls && s.calls[d] == t.calls[d] {
        RefusalStands(s, t, d);
      }
    }
  }

  /** Before its offer a call has nothing in the queue. */
  lemma ReadyNeverEnqueued(s: State, c: CallId)
    requires AllMessagesOk(s) && (c in s.calls ==> !Submitted(s.calls[c]))
    ensures NeverEnqueued(s, c)
  {
    forall p | 0 <= p < |s.enqueued| ensures s.enqueued[p].origin != FromCall(c) {
      assert MessageOk(s, s.enqueued[p]);
    }
  }

  lemma OfferKeepsRefused(s: State, c: CallId, event: ClientEvent)
    requires AllMessagesOk(s) && RefusedOk(s) && c in s.calls && s.calls[c].Ready?
    ensures RefusedOk(Offer(s, c, event))
  {
    var t := Offer(s, c, event);
    OfferFrame(s, c, event);
    OfferExtends(s, c, event);
    ReadyNeverEnqueued(s, c);
    assert !Room(s) ==> t.enqueued == s.enqueued;
    RefusalsStand(s, t, c);
  }

  lemma OwnRefusal(s: State, step: Step)
    requires CallerEnabled(s, step) && !step.TrySend?
    ensures var t := ApplyCaller(s, step);
      t.acks == s.acks && step.c in t.calls
      && (t.calls[step.c].Returned? && t.calls[step.c].result == MessageNotSent ==>
            step.Reply? && step.c in s.acks && s.acks[step.c] == NotWritten)
  {
  }

  lemma CallerKeepsRefused(s: State, step: Step)
    requires AllMessagesOk(s) && RefusedOk(s) && CallerEnabled(s, step)
    ensures RefusedOk(ApplyCaller(s, step))
  {
    if step.TrySend? {
      OfferKeepsRefused(s, step.c, s.calls[step.c].sub.Event());
    } else {
      CallerExtends(s, step);
      CallerQuiet(s, step);
      OwnRefusal(s, step);
      RefusalsStand(s, ApplyCaller(s, step), step.c);
    }
  }

  lemma StepKeepsRefused(s: State, step: Step, t: State)
    requires Settled(s) && AcksOk(s) && RefusedOk(s) && Enabled(s, step) && t == Apply(s, step)
    ensures RefusedOk(t)
  {
    StepExtends(s, step);
    if step.Caller() {
      CallerKeepsRefused(s, step);
    } else if step.Sender() {
      SenderFrame(s, step);
      SenderKeepsAcks(s, step);
      SameCallsRefused(s, ApplySender(s, step));
    } else if step.Receiver() {
      ReceiverFrame(s, step);
      SameCallsRefused(s, ApplyReceiver(s, step));
    } else {
      ControlFrame(s, step);
      SameCallsRefused(s, ApplyControl(s, step));
    }
  }

  lemma SameCallsRefused(s: State, t: State)
    requires RefusedOk(s) && Extends(s, t) && AcksStand(s, t) && t.calls == s.calls
    ensures RefusedOk(t)
  {
    forall d | d in t.calls && t.calls[d].Returned? && t.calls[d].result == MessageNotSent ensures RefusedBy(t, d) {
      RefusalStands(s, t, d);
    }
  }

  lemma RunStepKeepsRefused(states: seq<State>, steps: seq<Step>, i: nat)
    requires IsRun(states, steps) && i < |steps| && InBound(states[i]) && RefusedOk(states[i])
    ensures RefusedOk(states[i + 1])
  {
    RunIsSettled(states, steps, i);
    StepKeepsRefused(states[i], steps[i], states[i + 1]);
  }

  lemma {:induction false} RunKeepsRefused(states: seq<State>, steps: seq<Step>, i: nat)
    requires IsRun(states, steps) && i < |states| && InBound(states[i])
    ensures RefusedOk(states[i])
  {
    if i > 0 {
      EarlierDraws(states, steps, i - 1, i);
      RunKeepsRefused(states, steps, i - 1);
      RunStepKeepsRefused(states, steps, i - 1);
    }
  }

  // ----- what this means

  /** A message dealt with is on the wires, every request of it, if and only if its write did not fail. */
  lemma PresentIffNotFailed(s: State, p: nat)
    requires LossOk(s) && p < |DealtWith(s)|
    ensures AllOnWire(s.conns, DealtPayload(s, p)) <==> !FailedAt(s, p)
  {
    if FailedAt(s, p) {
      var k :| k in s.failed && s.failed[k] == p;
      assert LostAt(s, k);
      var ms := DealtPayload(s, p);
      assert ms[|ms| - 1] in ms;
    }
  }

  /** The text is a complete line of some wire. */
  ghost predicate ShownOnWire(s: State, text: string) {
    exists k | 0 <= k < |s.conns| :: text in CompleteLines(s.conns[k].wire)
  }

  lemma ShownIfOnWire(s: State, m: JsonRpcMsg)
    requires ConnsOk(s) && m.Request? && OnWire(s.conns, m)
    ensures ShownOnWire(s, RequestText(m))
  {
    var k :| 0 <= k < |s.conns| && m in s.conns[k].sent;
    assert ConnOk(s.conns[k]);
    WireLines(s.conns[k]);
    var i :| 0 <= i < |s.conns[k].sent| && s.conns[k].sent[i] == m;
    assert CompleteLines(s.conns[k].wire)[i] == RequestText(m);
  }

  /** A recorded request whose text is on a wire was sent there itself. */
  lemma OnWireIfShown(s: State, id: usize)
    requires Settled(s) && id in s.inserted && ShownOnWire(s, RequestText(RequestMsg(id, s.inserted[id])))
    ensures OnWire(s.conns, RequestMsg(id, s.inserted[id]))
  {
    var m := RequestMsg(id, s.inserted[id]);
    var k :| 0 <= k < |s.conns| && RequestText(m) in CompleteLines(s.conns[k].wire);
    assert ConnOk(s.conns[k]);
    var i := LineWasSent(s.conns[k], RequestText(m));
    SentIsRecorded(s, k, i);
    SameTextSameId(s.conns[k].sent[i], m);
  }

  lemma LineWasSent(conn: Conn, line: string) returns (i: nat)
    requires ConnOk(conn) && line in CompleteLines(conn.wire)
    ensures i < |conn.sent| && RequestText(conn.sent[i]) == line
  {
    WireLines(conn);
    i :| 0 <= i < |conn.sent| && Texts(conn.sent)[i] == line;
  }

  lemma SameTextSameId(m: JsonRpcMsg, n: JsonRpcMsg)
    requires m.Request? && n.Request? && RequestText(m) == RequestText(n)
    ensures m.id == n.id
  {
    if m.id != n.id {
      TextsDiffer(m, n);
    }
  }

  lemma SentIsRecorded(s: State, k: nat, i: nat)
    requires Settled(s) && k < |s.conns| && i < |s.conns[k].sent|
    ensures var m := s.conns[k].sent[i]; m.Request? && m.id in s.inserted && m == RequestMsg(m.id, s.inserted[m.id])
  {
    var m := s.conns[k].sent[i];
    var p := SentWasCarried(s, k, m);
    var j :| 0 <= j < |Payload(s.enqueued[p].event)| && Payload(s.enqueued[p].event)[j] == m;
    EnqueuedAgrees(s, p, j);
  }

  /** The last request of a call that was told that its message was not sent is on no wire. */
  lemma RefusedIsUnsent(s: State, c: CallId)
    requires Settled(s) && LossOk(s) && RefusedOk(s) && c in s.calls
    requires s.calls[c].Returned? && s.calls[c].result == MessageNotSent && s.calls[c].sub.items != []
    ensures var ms := Msgs(s.calls[c].sub.items); !OnWire(s.conns, ms[|ms| - 1])
  {
    assert RefusedBy(s, c);
    if NeverEnqueued(s, c) {
      NeverEnqueuedIsUnsent(s, c);
    } else {
      FailedIsUnsent(s, c);
    }
  }

  lemma NeverEnqueuedIsUnsent(s: State, c: CallId)
    requires Settled(s) && c in s.calls && s.calls[c].Returned? && NeverEnqueued(s, c)
    ensures forall m | m in Msgs(s.calls[c].sub.items) :: !OnWire(s.conns, m)
  {
    assert RecordsOwn(s, c);
    forall m | m in Msgs(s.calls[c].sub.items) ensures !OnWire(s.conns, m) {
      if k :| 0 <= k < |s.conns| && m in s.conns[k].sent {
        var p := SentWasCarried(s, k, m);
        var j :| 0 <= j < |Payload(s.enqueued[p].event)| && Payload(s.enqueued[p].event)[j] == m;
        EnqueuedAgrees(s, p, j);
      }
    }
  }

  lemma FailedIsUnsent(s: State, c: CallId)
    requires QueueOk(s) && ShapesOk(s) && RefusalsOk(s) && FailedOk(s) && c in s.acks && s.acks[c] == NotWritten && c in s.calls
    requires s.calls[c].Returned? && s.calls[c].sub.items != []
    ensures var ms := Msgs(s.calls[c].sub.items); !OnWire(s.conns, ms[|ms| - 1])
  {
    assert ToldTruly(s, c);
    var p :| 0 <= p < |DealtWith(s)| && FailedAt(s, p) && DealtWith(s)[p].origin == FromCall(c);
    var k :| k in s.failed && s.failed[k] == p;
    assert LostAt(s, k);
    DealtIsRecorded(s, p, c);
  }

  lemma DealtIsRecorded(s: State, p: nat, c: CallId)
    requires QueueOk(s) && ShapesOk(s) && p < |DealtWith(s)| && DealtWith(s)[p].origin == FromCall(c)
    ensures c in s.calls && Submitted(s.calls[c]) && DealtPayload(s, p) == Msgs(s.calls[c].sub.items)
  {
    assert s.enqueued[p] == s.taken[p] == DealtWith(s)[p];
    assert MessageOk(s, s.enqueued[p]);
    PayloadIsRecorded(s, s.enqueued[p]);
  }
}
