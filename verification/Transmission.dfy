/** What the senders put on the wires, connection after connection. */
module Transmission {
  import opened Base
  import opened Messages
  import opened Lines
  import opened Framing
  import opened Machine
  import opened Frames

  // ----- subsequences

  ghost predicate Embeds<T>(a: seq<T>, b: seq<T>, f: seq<nat>) {
    && |f| == |a|
    && (forall i | 0 <= i < |a| :: f[i] < |b| && b[f[i]] == a[i])
    && (forall i, j | 0 <= i < j < |a| :: f[i] < f[j])
  }

  /** The items of `a` occur in `b` in the same order. */
  ghost predicate Subsequence<T(!new)>(a: seq<T>, b: seq<T>) {
    exists f: seq<nat> :: Embeds(a, b, f)
  }

  lemma SubsequenceGrows<T(!new)>(a: seq<T>, b: seq<T>, more: seq<T>, n: nat)
    requires Subsequence(a, b) && n <= |more|
    ensures Subsequence(a + more[..n], b + more)
  {
    var f: seq<nat> :| Embeds(a, b, f);
    var g: seq<nat> := f + seq(n, i => |b| + i);
    assert Embeds(a + more[..n], b + more, g);
  }

  // ----- one connection

  predicate ConnOk(conn: Conn) {
    && AllRequests(conn.sent) && OneLine(conn.tail)
    && conn.wire == WireText(conn.sent) + conn.tail
    && (conn.tail != "" ==> conn.sender == Ending(true) || conn.sender == Finished(true))
    && (conn.sender.Queueing? ==> conn.sent == [])
  }

  ghost predicate ConnsOk(s: State) {
    forall k | 0 <= k < |s.conns| :: ConnOk(s.conns[k])
  }

  lemma Glue(wire: string, a: string, b: string, tail: string)
    requires wire == a + ""
    ensures wire + (b + tail) == (a + b) + tail
    ensures b + "" == b
  {
  }

  lemma WrittenOk(conn: Conn, ms: seq<JsonRpcMsg>)
    requires ConnOk(conn) && conn.sender.Holding? && AllRequests(ms)
    ensures ConnOk(Written(conn, ms))
  {
    var a, b := WireText(conn.sent), WireText(ms);
    StreamStep(conn.sent, ms);
    Glue(conn.wire, a, b, "");
  }

  lemma CutWireText(ms: seq<JsonRpcMsg>, n: nat)
    requires AllRequests(ms) && n < |WireText(ms)|
    ensures var j, tail := WholeLines(Texts(ms), n), Remainder(Texts(ms), n);
      j < |ms| && OneLine(tail) && WireText(ms)[..n] == WireText(ms[..j]) + tail
  {
    TextsAreLines(ms);
    CutStream(Texts(ms), n);
    var j := WholeLines(Texts(ms), n);
    assert Texts(ms)[..j] == Texts(ms[..j]);
  }

  lemma CutShortOk(conn: Conn, ms: seq<JsonRpcMsg>, n: nat)
    requires ConnOk(conn) && conn.sender.Holding? && AllRequests(ms) && n < |WireText(ms)|
    ensures ConnOk(CutShort(conn, ms, n))
  {
    CutWireText(ms, n);
    var j, tail := WholeLines(Texts(ms), n), Remainder(Texts(ms), n);
    StreamStep(conn.sent, ms[..j]);
    Glue(conn.wire, WireText(conn.sent), WireText(ms[..j]), tail);
  }

  /** The complete lines on a wire are exactly the texts of the requests sent there. */
  lemma WireLines(conn: Conn)
    requires ConnOk(conn)
    ensures CompleteLines(conn.wire) == Texts(conn.sent)
  {
    TextsAreLines(conn.sent);
    LinesOfStream(Texts(conn.sent), conn.tail);
  }

  // ----- turns at the queue

  /** One sender at a time owns the queue; it is the one whose turn came last. */
  ghost predicate TurnsOk(s: State) {
    && (forall k | 0 <= k < |s.conns| :: s.conns[k].sender.OwnsQueue() <==> s.holder == Some(k))
    && (s.holder.Some? ==> s.holder.value < |s.conns| && s.turns != [] && s.turns[|s.turns| - 1] == s.holder.value)
    && (forall i | 0 <= i < |s.turns| :: s.turns[i] < |s.conns| && !s.conns[s.turns[i]].sender.Queueing?)
    && (forall i, j | 0 <= i < j < |s.turns| :: s.turns[i] != s.turns[j])
    && (forall k | 0 <= k < |s.conns| && !s.conns[k].sender.Queueing? :: k in s.turns)
  }

  /** A message in a sender's hands is the last one taken. */
  ghost predicate HeldOk(s: State) {
    forall k | 0 <= k < |s.conns| && s.conns[k].sender.Holding? ::
      s.taken != [] && s.taken[|s.taken| - 1] == s.conns[k].sender.message
  }

  /** Everything sent in whole lines, in the order of the turns. */
  function Transmitted(conns: seq<Conn>, turns: seq<nat>): seq<JsonRpcMsg>
    requires forall i | 0 <= i < |turns| :: turns[i] < |conns|
  {
    if turns == [] then []
    else Transmitted(conns, turns[..|turns| - 1]) + conns[turns[|turns| - 1]].sent
  }

  /** The requests that the messages carry, in order. */
  function Carried(ms: seq<Message>): seq<JsonRpcMsg> {
    if ms == [] then [] else Carried(ms[..|ms| - 1]) + Payload(ms[|ms| - 1].event)
  }

  predicate InHand(s: State) {
    s.holder.Some? && s.holder.value < |s.conns| && s.conns[s.holder.value].sender.Holding?
  }

  /** The messages dealt with: all that were taken, except the one still in hand. */
  function DealtWith(s: State): seq<Message> {
    if InHand(s) && s.taken != [] then s.taken[..|s.taken| - 1] else s.taken
  }

  ghost predicate OrderOk(s: State)
    requires TurnsOk(s)
  {
    Subsequence(Transmitted(s.conns, s.turns), Carried(DealtWith(s)))
  }

  ghost predicate TransmissionOk(s: State) {
    ConnsOk(s) && TurnsOk(s) && HeldOk(s) && OrderOk(s)
  }

  lemma {:induction false} SameTransmitted(a: seq<Conn>, b: seq<Conn>, turns: seq<nat>)
    requires forall i | 0 <= i < |turns| :: turns[i] < |a| && turns[i] < |b| && a[turns[i]].sent == b[turns[i]].sent
    ensures Transmitted(a, turns) == Transmitted(b, turns)
  {
    if turns != [] {
      SameTransmitted(a, b, turns[..|turns| - 1]);
    }
  }

  /** What the last turn adds comes last. */
  lemma LastTurnSends(conns: seq<Conn>, turns: seq<nat>, conn: Conn, more: seq<JsonRpcMsg>)
    requires turns != [] && forall i | 0 <= i < |turns| :: turns[i] < |conns|
    requires forall i, j | 0 <= i < j < |turns| :: turns[i] != turns[j]
    requires var k := turns[|turns| - 1]; conn.sent == conns[k].sent + more
    ensures Transmitted(conns[turns[|turns| - 1] := conn], turns) == Transmitted(conns, turns) + more
  {
    var k, before := turns[|turns| - 1], turns[..|turns| - 1];
    SameTransmitted(conns, conns[k := conn], before);
  }

  lemma CarriedNext(ms: seq<Message>, m: Message)
    ensures Carried(ms + [m]) == Carried(ms) + Payload(m.event)
  {
    assert (ms + [m])[..|ms|] == ms;
  }

  // ----- steps that send nothing

  /** No message is taken, and no sender moves. */
  ghost predicate SendersRest(s: State, t: State) {
    && |s.conns| <= |t.conns| && t.holder == s.holder && t.turns == s.turns && t.taken == s.taken
    && (forall k | 0 <= k < |s.conns| :: t.conns[k] == s.conns[k].(receiver := t.conns[k].receiver))
    && (forall k | |s.conns| <= k < |t.conns| :: t.conns[k].sender.Queueing? && ConnOk(t.conns[k]))
  }

  lemma RestKeepsTurns(s: State, t: State)
    requires TurnsOk(s) && SendersRest(s, t)
    ensures TurnsOk(t)
  {
  }

  lemma RestKeepsConns(s: State, t: State)
    requires ConnsOk(s) && HeldOk(s) && SendersRest(s, t)
    ensures ConnsOk(t) && HeldOk(t)
  {
    forall k | 0 <= k < |t.conns| ensures ConnOk(t.conns[k]) {
      if k < |s.conns| { assert ConnOk(s.conns[k]); }
    }
  }

  lemma RestKeeps(s: State, t: State)
    requires TransmissionOk(s) && SendersRest(s, t)
    ensures TransmissionOk(t)
  {
    RestKeepsTurns(s, t);
    RestKeepsConns(s, t);
    SameTransmitted(s.conns, t.conns, t.turns);
    assert DealtWith(t) == DealtWith(s);
  }

  // ----- steps of the owner of the queue

  /** The sender `k`, which owns the queue before and after, deals with the message in its hand. */
  ghost predicate DealsWith(s: State, t: State, k: nat, conn: Conn) {
    && k < |s.conns| && s.conns[k].sender.Holding?
    && t.conns == s.conns[k := conn] && conn.sender.OwnsQueue() && !conn.sender.Holding?
    && t.holder == s.holder && t.turns == s.turns && t.taken == s.taken
  }

  lemma DealingKeepsTurns(s: State, t: State, k: nat, conn: Conn)
    requires TurnsOk(s) && HeldOk(s) && DealsWith(s, t, k, conn)
    ensures TurnsOk(t) && HeldOk(t) && s.holder == Some(k) && s.turns[|s.turns| - 1] == k
    ensures InHand(s) && !InHand(t) && s.taken != []
    ensures DealtWith(t) == DealtWith(s) + [s.conns[k].sender.message]
  {
    assert s.conns[k].sender.OwnsQueue();
  }

  /** It puts a beginning of the message's payload on its wire, perhaps nothing. */
  lemma DealingKeeps(s: State, t: State, k: nat, conn: Conn, n: nat)
    requires TransmissionOk(s) && DealsWith(s, t, k, conn) && ConnOk(conn)
    requires var ms := Payload(s.conns[k].sender.message.event); n <= |ms| && conn.sent == s.conns[k].sent + ms[..n]
    ensures TransmissionOk(t)
  {
    var m := s.conns[k].sender.message;
    var ms := Payload(m.event);
    DealingKeepsTurns(s, t, k, conn);
    LastTurnSends(s.conns, s.turns, conn, ms[..n]);
    CarriedNext(DealtWith(s), m);
    SubsequenceGrows(Transmitted(s.conns, s.turns), Carried(DealtWith(s)), ms, n);
  }

  /** The sender `k` gets the queue. */
  ghost predicate Locks(s: State, t: State, k: nat) {
    && k < |s.conns| && s.conns[k].sender.Queueing? && s.holder == None
    && t.conns == WithSender(s.conns, k, Draining) && t.holder == Some(k) && t.turns == s.turns + [k]
  }

  lemma LockKeepsTurns(s: State, t: State, k: nat)
    requires TurnsOk(s) && Locks(s, t, k)
    ensures TurnsOk(t)
  {
    assert k !in s.turns;
    assert t.turns[|t.turns| - 1] == k;
  }

  lemma LockKeepsSent(s: State, t: State, k: nat)
    requires ConnsOk(s) && TurnsOk(s) && TurnsOk(t) && Locks(s, t, k)
    ensures ConnsOk(t) && Transmitted(t.conns, t.turns) == Transmitted(s.conns, s.turns)
  {
    assert ConnOk(s.conns[k]);
    assert t.turns[..|t.turns| - 1] == s.turns;
    SameTransmitted(s.conns, t.conns, s.turns);
  }

  lemma LockKeeps(s: State, k: nat)
    requires TransmissionOk(s) && SenderEnabled(s, SenderLock(k))
    ensures TransmissionOk(ApplySender(s, SenderLock(k)))
  {
    var t := ApplySender(s, SenderLock(k));
    LockKeepsTurns(s, t, k);
    LockKeepsSent(s, t, k);
    assert HeldOk(t);
    assert DealtWith(t) == DealtWith(s);
  }

  /** The owner of the queue changes its state without touching wire or record. */
  ghost predicate OwnerMoves(s: State, t: State, k: nat, sender: SenderTask) {
    && k < |s.conns| && s.conns[k].sender.OwnsQueue() && t.turns == s.turns
    && t.conns == s.conns[k := s.conns[k].(sender := sender)]
    && (s.conns[k].tail != "" ==> sender == Ending(true) || sender == Finished(true))
    && !sender.Queueing?
    && t.holder == (if sender.Finished? then None else s.holder)
  }

  lemma MoveKeepsTurns(s: State, t: State, k: nat, sender: SenderTask)
    requires ConnsOk(s) && TurnsOk(s) && OwnerMoves(s, t, k, sender)
    ensures ConnsOk(t) && TurnsOk(t)
    ensures Transmitted(t.conns, t.turns) == Transmitted(s.conns, s.turns)
  {
    assert ConnOk(s.conns[k]);
    SameTransmitted(s.conns, t.conns, t.turns);
  }

  lemma TakeKeeps(s: State, k: nat)
    requires TransmissionOk(s) && SenderEnabled(s, SenderTake(k))
    ensures TransmissionOk(ApplySender(s, SenderTake(k)))
  {
    var t := ApplySender(s, SenderTake(k));
    assert ConnOk(s.conns[k]);
    MoveKeepsTurns(s, t, k, Holding(s.queue[0]));
    assert s.holder == Some(k);
    assert !InHand(s) && InHand(t) && t.taken[..|t.taken| - 1] == s.taken;
    assert DealtWith(t) == DealtWith(s);
  }

  /** A move that neither begins nor ends with a message in hand. */
  lemma MoveKeeps(s: State, t: State, k: nat, sender: SenderTask)
    requires TransmissionOk(s) && OwnerMoves(s, t, k, sender) && t.taken == s.taken
    requires !s.conns[k].sender.Holding? && !sender.Holding?
    ensures TransmissionOk(t)
  {
    MoveKeepsTurns(s, t, k, sender);
    assert s.holder == Some(k);
    assert DealtWith(t) == DealtWith(s);
  }

  // ----- steps

  lemma WriteKeeps(s: State, k: nat, ms: seq<JsonRpcMsg>)
    requires TransmissionOk(s) && k < |s.conns| && s.conns[k].sender.Holding?
    requires ms == Payload(s.conns[k].sender.message.event)
    ensures TransmissionOk(WriteAll(s, k, ms))
  {
    assert ConnOk(s.conns[k]);
    WrittenOk(s.conns[k], ms);
    assert ms[..|ms|] == ms;
    DealingKeeps(s, WriteAll(s, k, ms), k, Written(s.conns[k], ms), |ms|);
  }

  lemma FailKeeps(s: State, k: nat, ms: seq<JsonRpcMsg>, n: nat)
    requires TransmissionOk(s) && k < |s.conns| && s.conns[k].sender.Holding?
    requires ms == Payload(s.conns[k].sender.message.event) && n < |WireText(ms)|
    ensures TransmissionOk(WritePart(s, k, ms, n))
  {
    assert ConnOk(s.conns[k]);
    CutShortOk(s.conns[k], ms, n);
    DealingKeeps(s, WritePart(s, k, ms, n), k, CutShort(s.conns[k], ms, n), WholeLines(Texts(ms), n));
  }

  lemma SilentKeeps(s: State, t: State, k: nat, sender: SenderTask)
    requires TransmissionOk(s) && k < |s.conns| && s.conns[k].sender.Holding?
    requires DealsWith(s, t, k, s.conns[k].(sender := sender))
    ensures TransmissionOk(t)
  {
    var conn := s.conns[k].(sender := sender);
    assert ConnOk(s.conns[k]);
    assert conn.sent == conn.sent + Payload(s.conns[k].sender.message.event)[..0];
    DealingKeeps(s, t, k, conn, 0);
  }

  lemma FinishKeeps(s: State, k: nat)
    requires TransmissionOk(s) && SenderEnabled(s, SenderFinish(k))
    ensures TransmissionOk(ApplySender(s, SenderFinish(k)))
  {
    assert ConnOk(s.conns[k]);
    assert s.holder == Some(k);
    MoveKeeps(s, ApplySender(s, SenderFinish(k)), k, Finished(s.conns[k].sender.failed));
  }

  // The messages that put nothing on the wire.

  lemma SkipKeeps(s: State, k: nat)
    requires TransmissionOk(s) && SenderEnabled(s, SenderSkip(k))
    ensures TransmissionOk(ApplySender(s, SenderSkip(k)))
  {
    SilentKeeps(s, ApplySender(s, SenderSkip(k)), k, Draining);
  }

  lemma CloseKeeps(s: State, k: nat)
    requires TransmissionOk(s) && SenderEnabled(s, SenderClose(k))
    ensures TransmissionOk(ApplySender(s, SenderClose(k)))
  {
    SilentKeeps(s, ApplySender(s, SenderClose(k)), k, Ending(false));
  }

  lemma StopKeeps(s: State, k: nat)
    requires TransmissionOk(s) && SenderEnabled(s, SenderStop(k))
    ensures TransmissionOk(ApplySender(s, SenderStop(k)))
  {
    SilentKeeps(s, ApplySender(s, SenderStop(k)), k, if s.stopFlag then StopSeen else Draining);
  }

  // The steps by which a sender honours a Stop.

  lemma StoppedKeeps(s: State, k: nat)
    requires TransmissionOk(s) && SenderEnabled(s, SenderStopped(k))
    ensures TransmissionOk(ApplySender(s, SenderStopped(k)))
  {
    assert ConnOk(s.conns[k]);
    MoveKeeps(s, ApplySender(s, SenderStopped(k)), k, StopRecorded);
  }

  lemma UnflagKeeps(s: State, k: nat)
    requires TransmissionOk(s) && SenderEnabled(s, SenderUnflag(k))
    ensures TransmissionOk(ApplySender(s, SenderUnflag(k)))
  {
    assert ConnOk(s.conns[k]);
    MoveKeeps(s, ApplySender(s, SenderUnflag(k)), k, StopCleared);
  }

  lemma NotifyKeeps(s: State, k: nat)
    requires TransmissionOk(s) && SenderEnabled(s, SenderNotify(k))
    ensures TransmissionOk(ApplySender(s, SenderNotify(k)))
  {
    assert ConnOk(s.conns[k]);
    MoveKeeps(s, ApplySender(s, SenderNotify(k)), k, Ending(false));
  }

  lemma SenderKeepsTransmission(s: State, step: Step)
    requires TransmissionOk(s) && SenderEnabled(s, step)
    ensures TransmissionOk(ApplySender(s, step))
  {
    match step
    case SenderLock(k) => LockKeeps(s, k);
    case SenderTake(k) => TakeKeeps(s, k);
    case SenderWrite(k) => WriteKeeps(s, k, Payload(s.conns[k].sender.message.event));
    case SenderFail(k, n) => FailKeeps(s, k, Payload(s.conns[k].sender.message.event), n);
    case SenderFinish(k) => FinishKeeps(s, k);
    case SenderSkip(k) => SkipKeeps(s, k);
    case SenderClose(k) => CloseKeeps(s, k);
    case SenderStop(k) => StopKeeps(s, k);
    case SenderStopped(k) => StoppedKeeps(s, k);
    case SenderUnflag(k) => UnflagKeeps(s, k);
    case SenderNotify(k) => NotifyKeeps(s, k);
  }

  lemma CallerKeepsTransmission(s: State, step: Step)
    requires TransmissionOk(s) && CallerEnabled(s, step)
    ensures TransmissionOk(ApplyCaller(s, step))
  {
    CallerFrame(s, step);
    RestKeeps(s, ApplyCaller(s, step));
  }

  lemma ControlKeepsTransmission(s: State, step: Step)
    requires TransmissionOk(s) && ControlEnabled(s, step)
    ensures TransmissionOk(ApplyControl(s, step))
  {
    ControlFrame(s, step);
    RestKeeps(s, ApplyControl(s, step));
  }

  lemma StepKeepsTransmission(s: State, step: Step)
    requires TransmissionOk(s) && Enabled(s, step)
    ensures TransmissionOk(Apply(s, step))
  {
    if step.Caller() {
      CallerKeepsTransmission(s, step);
    } else if step.Sender() {
      SenderKeepsTransmission(s, step);
    } else if step.Receiver() {
      ReceiverFrame(s, step);
      RestKeeps(s, ApplyReceiver(s, step));
    } else {
      ControlKeepsTransmission(s, step);
    }
  }
}
