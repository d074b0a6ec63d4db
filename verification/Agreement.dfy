/** What the servers are sent agrees with the inventory, in order and without repetition. */
module Agreement {
  import opened Base
  import opened Messages
  import opened Lines
  import opened Framing
  import opened Machine
  import opened Ids
  import opened Publishing
  import opened Queues
  import opened Transmission
  import opened Refinement

  // ----- from the wire back to the call

  lemma {:induction false} SentIsTransmitted(conns: seq<Conn>, turns: seq<nat>, k: nat, m: JsonRpcMsg)
    requires forall i | 0 <= i < |turns| :: turns[i] < |conns|
    requires k in turns && k < |conns| && m in conns[k].sent
    ensures m in Transmitted(conns, turns)
  {
    var n := |turns| - 1;
    if turns[n] != k {
      SentIsTransmitted(conns, turns[..n], k, m);
    }
  }

  lemma {:induction false} CarriedBySome(ms: seq<Message>, m: JsonRpcMsg) returns (p: nat)
    requires m in Carried(ms)
    ensures p < |ms| && m in Payload(ms[p].event)
  {
    var n := |ms| - 1;
    if m in Payload(ms[n].event) {
      p := n;
    } else {
      p := CarriedBySome(ms[..n], m);
    }
  }

  /** The requests of a queued message are those its call has recorded. */
  lemma PayloadIsRecorded(s: State, m: Message)
    requires ShapesOk(s) && MessageOk(s, m)
    ensures m.origin.FromCall? ==> Payload(m.event) == Msgs(s.calls[m.origin.c].Recorded())
    ensures !m.origin.FromCall? ==> Payload(m.event) == []
  {
    if m.origin.FromCall? {
      var c := m.origin.c;
      assert CallShape(s.calls[c]);
      EventPayload(s.calls[c].sub);
    }
  }

  /** The part of the invariant that says what is in the queue and on the wires. */
  ghost predicate Settled(s: State) {
    Recorded(s) && QueueOk(s) && ShapesOk(s) && TransmissionOk(s)
  }

  /** Every request that was ever enqueued is the one recorded under its id. */
  lemma EnqueuedAgrees(s: State, p: nat, i: nat)
    requires Settled(s) && p < |s.enqueued| && i < |Payload(s.enqueued[p].event)|
    ensures var m := Payload(s.enqueued[p].event)[i];
      && m.Request? && m.id in s.inserted && m == RequestMsg(m.id, s.inserted[m.id])
      && m.id < |s.issued| && s.enqueued[p].origin == FromCall(s.issued[m.id])
  {
    assert MessageOk(s, s.enqueued[p]);
    PayloadIsRecorded(s, s.enqueued[p]);
    var c := s.enqueued[p].origin.c;
    assert RecordsOwn(s, c);
  }

  /** What is on a wire came from a message that was dealt with. */
  lemma SentWasCarriedBy(s: State, k: nat, m: JsonRpcMsg) returns (p: nat)
    requires TransmissionOk(s) && k < |s.conns| && m in s.conns[k].sent
    ensures p < |DealtWith(s)| && m in Payload(DealtWith(s)[p].event)
  {
    assert ConnOk(s.conns[k]);
    SentIsTransmitted(s.conns, s.turns, k, m);
    var f: seq<nat> :| Embeds(Transmitted(s.conns, s.turns), Carried(DealtWith(s)), f);
    p := CarriedBySome(DealtWith(s), m);
  }

  lemma SentWasCarried(s: State, k: nat, m: JsonRpcMsg) returns (p: nat)
    requires TransmissionOk(s) && Fifo(s) && k < |s.conns| && m in s.conns[k].sent
    ensures p < |s.enqueued| && m in Payload(s.enqueued[p].event)
  {
    p := SentWasCarriedBy(s, k, m);
    assert s.enqueued[p] == s.taken[p];
  }

  /** Every complete line on every wire is the text of the request recorded under
      some id, and shows that id. */
  lemma WireAgrees(s: State, k: nat, i: nat) returns (id: usize)
    requires Inv(s) && k < |s.conns| && i < |CompleteLines(s.conns[k].wire)|
    ensures id in s.inserted
    ensures CompleteLines(s.conns[k].wire)[i] == RequestText(RequestMsg(id, s.inserted[id]))
    ensures ReadId(CompleteLines(s.conns[k].wire)[i]) == Some(id)
  {
    var conn := s.conns[k];
    assert ConnOk(conn);
    WireLines(conn);
    var m := conn.sent[i];
    var p := SentWasCarried(s, k, m);
    var j :| 0 <= j < |Payload(s.enqueued[p].event)| && Payload(s.enqueued[p].event)[j] == m;
    EnqueuedAgrees(s, p, j);
    id := m.id;
    TextShowsId(m);
  }

  /** The server on some connection has read a line with this id. */
  ghost predicate HasBeenRead(s: State, id: usize) {
    exists k, i | 0 <= k < |s.conns| && 0 <= i < |CompleteLines(s.conns[k].wire)| ::
      ReadId(CompleteLines(s.conns[k].wire)[i]) == Some(id)
  }

  lemma MissedIsNotPending(inventory: map<usize, Request>, line: Line, id: usize)
    requires Effect(inventory, line) == Misses(id)
    ensures id !in inventory
  {
  }

  lemma RetiringLine(m: map<usize, Request>, line: Line, id: usize)
    requires Effect(m, line).Retires? && Effect(m, line).id == id
    ensures DecodeLine(line).Some? && DecodeLine(line).value.Response? && DecodeLine(line).value.id == id
  {
  }

  /** The line `n` among those received is a response to `id`. */
  predicate AnswersId(s: State, n: nat, id: usize) {
    && n < |s.received|
    && var m := DecodeLine(s.received[n]); m.Some? && m.value.Response? && m.value.id == id
  }

  lemma RetiredWasAnswered(s: State, id: usize)
    requires RetiredOk(s) && id in s.retired
    ensures AnswersId(s, s.retired[id].line, id)
  {
    assert RetiredBy(s, id, s.retired[id]);
    RetiringLine(s.inserted, s.received[s.retired[id].line], id);
  }

  lemma ReadIsRecorded(s: State, id: usize)
    requires Inv(s) && HasBeenRead(s, id)
    ensures id in s.inserted
  {
    var k, i :| 0 <= k < |s.conns| && 0 <= i < |CompleteLines(s.conns[k].wire)|
      && ReadId(CompleteLines(s.conns[k].wire)[i]) == Some(id);
    var d := WireAgrees(s, k, i);
  }

  /** A response whose id some server has read misses the inventory only when an
      earlier line has answered the same id already. */
  lemma MissIsRepeat(s: State, line: Line, id: usize) returns (n: nat)
    requires Inv(s) && Effect(s.inventory, line) == Misses(id) && HasBeenRead(s, id)
    ensures AnswersId(s, n, id)
  {
    ReadIsRecorded(s, id);
    MissedIsNotPending(s.inventory, line, id);
    n := s.retired[id].line;
    RetiredWasAnswered(s, id);
  }

  // ----- order and repetition

  predicate DistinctIds(ms: seq<JsonRpcMsg>) {
    && AllRequests(ms)
    && forall i, j | 0 <= i < j < |ms| :: ms[i].id != ms[j].id
  }

  lemma PayloadDistinct(s: State, p: nat)
    requires Settled(s) && p < |s.enqueued|
    ensures DistinctIds(Payload(s.enqueued[p].event))
  {
    assert MessageOk(s, s.enqueued[p]);
    PayloadIsRecorded(s, s.enqueued[p]);
    if s.enqueued[p].origin.FromCall? {
      assert RecordsOwn(s, s.enqueued[p].origin.c);
    }
  }

  /** Two messages never carry the same id. */
  lemma PayloadsApart(s: State, p: nat, q: nat, i: nat, j: nat)
    requires Settled(s) && p < |s.enqueued| && q < |s.enqueued| && p != q
    requires i < |Payload(s.enqueued[p].event)| && j < |Payload(s.enqueued[q].event)|
    ensures Payload(s.enqueued[p].event)[i].Request? && Payload(s.enqueued[q].event)[j].Request?
    ensures Payload(s.enqueued[p].event)[i].id != Payload(s.enqueued[q].event)[j].id
  {
    EnqueuedAgrees(s, p, i);
    EnqueuedAgrees(s, q, j);
  }

  /** Each message carries distinct ids, and no two share one. */
  ghost predicate AllApart(ms: seq<Message>) {
    && (forall p | 0 <= p < |ms| :: DistinctIds(Payload(ms[p].event)))
    && (forall p, q, i, j | 0 <= p < |ms| && 0 <= q < |ms| && p != q
          && 0 <= i < |Payload(ms[p].event)| && 0 <= j < |Payload(ms[q].event)| ::
          Payload(ms[p].event)[i].id != Payload(ms[q].event)[j].id)
  }

  lemma EnqueuedApart(s: State)
    requires Settled(s)
    ensures AllApart(s.enqueued)
  {
    forall p | 0 <= p < |s.enqueued| ensures DistinctIds(Payload(s.enqueued[p].event)) {
      PayloadDistinct(s, p);
    }
    forall p, q, i, j | 0 <= p < |s.enqueued| && 0 <= q < |s.enqueued| && p != q
      && 0 <= i < |Payload(s.enqueued[p].event)| && 0 <= j < |Payload(s.enqueued[q].event)|
      ensures Payload(s.enqueued[p].event)[i].id != Payload(s.enqueued[q].event)[j].id
    {
      PayloadsApart(s, p, q, i, j);
    }
  }

  lemma DistinctAppend(a: seq<JsonRpcMsg>, b: seq<JsonRpcMsg>)
    requires DistinctIds(a) && DistinctIds(b)
    requires forall i, j | 0 <= i < |a| && 0 <= j < |b| :: a[i].id != b[j].id
    ensures DistinctIds(a + b)
  {
  }

  lemma LastApart(ms: seq<Message>, i: nat, j: nat)
    requires ms != [] && AllApart(ms)
    requires i < |Carried(ms[..|ms| - 1])| && j < |Payload(ms[|ms| - 1].event)|
    requires Carried(ms[..|ms| - 1])[i].Request?
    ensures Carried(ms[..|ms| - 1])[i].id != Payload(ms[|ms| - 1].event)[j].id
  {
    var m := Carried(ms[..|ms| - 1])[i];
    var p := CarriedBySome(ms[..|ms| - 1], m);
    var l :| 0 <= l < |Payload(ms[p].event)| && Payload(ms[p].event)[l] == m;
    assert Payload(ms[p].event)[l].id != Payload(ms[|ms| - 1].event)[j].id;
  }

  lemma {:induction false} CarriedDistinct(ms: seq<Message>)
    requires AllApart(ms)
    ensures DistinctIds(Carried(ms))
  {
    if ms != [] {
      var before, last := Carried(ms[..|ms| - 1]), Payload(ms[|ms| - 1].event);
      CarriedDistinct(ms[..|ms| - 1]);
      forall i, j | 0 <= i < |before| && 0 <= j < |last| ensures before[i].id != last[j].id {
        LastApart(ms, i, j);
      }
      DistinctAppend(before, last);
    }
  }

  /** All complete lines of all wires, connections in the order of their turns. */
  function LinesInOrder(conns: seq<Conn>, turns: seq<nat>): seq<string>
    requires forall i | 0 <= i < |turns| :: turns[i] < |conns|
  {
    if turns == [] then []
    else LinesInOrder(conns, turns[..|turns| - 1]) + CompleteLines(conns[turns[|turns| - 1]].wire)
  }

  lemma {:induction false} LinesAreTransmitted(conns: seq<Conn>, turns: seq<nat>)
    requires forall i | 0 <= i < |turns| :: turns[i] < |conns|
    requires forall k | 0 <= k < |conns| :: ConnOk(conns[k])
    ensures AllRequests(Transmitted(conns, turns))
    ensures LinesInOrder(conns, turns) == Texts(Transmitted(conns, turns))
  {
    if turns != [] {
      var before, conn := turns[..|turns| - 1], conns[turns[|turns| - 1]];
      LinesAreTransmitted(conns, before);
      assert ConnOk(conn);
      WireLines(conn);
      TextsAppend(Transmitted(conns, before), conn.sent);
    }
  }

  lemma TextsKeepOrder(a: seq<JsonRpcMsg>, b: seq<JsonRpcMsg>)
    requires AllRequests(a) && AllRequests(b) && Subsequence(a, b)
    ensures Subsequence(Texts(a), Texts(b))
  {
    var f: seq<nat> :| Embeds(a, b, f);
    assert Embeds(Texts(a), Texts(b), f);
  }

  lemma {:induction false} CarriedPrefix(a: seq<Message>, b: seq<Message>)
    ensures Carried(a) <= Carried(a + b)
  {
    if b == [] {
      assert a + b == a;
    } else {
      CarriedPrefix(a, b[..|b| - 1]);
      assert (a + b)[..|a + b| - 1] == a + b[..|b| - 1];
    }
  }

  lemma WidenSubsequence(a: seq<JsonRpcMsg>, b: seq<JsonRpcMsg>, c: seq<JsonRpcMsg>)
    requires Subsequence(a, b) && b <= c
    ensures Subsequence(a, c)
  {
    SubsequenceGrows(a, b, c[|b|..], 0);
    assert a + c[|b|..][..0] == a && b + c[|b|..] == c;
  }

  lemma DistinctStays(a: seq<JsonRpcMsg>, b: seq<JsonRpcMsg>)
    requires Subsequence(a, b) && DistinctIds(b)
    ensures DistinctIds(a)
  {
    var f: seq<nat> :| Embeds(a, b, f);
  }

  lemma SentIsEnqueued(s: State)
    requires TransmissionOk(s) && Fifo(s)
    ensures Subsequence(Transmitted(s.conns, s.turns), Carried(s.enqueued))
  {
    var dealt := DealtWith(s);
    var rest := s.enqueued[|dealt|..];
    assert s.enqueued == dealt + rest;
    CarriedPrefix(dealt, rest);
    WidenSubsequence(Transmitted(s.conns, s.turns), Carried(dealt), Carried(s.enqueued));
  }

  lemma DistinctTexts(ms: seq<JsonRpcMsg>, i: nat, j: nat)
    requires DistinctIds(ms) && i < j < |ms|
    ensures Texts(ms)[i] != Texts(ms)[j]
  {
    TextsDiffer(ms[i], ms[j]);
  }

  /** Across all connections, the lines on the wires are a subsequence of the
      requests in the order in which they were enqueued, and no request occurs twice. */
  lemma TransmissionInOrder(s: State)
    requires Inv(s)
    ensures AllRequests(Carried(s.enqueued))
    ensures var lines := LinesInOrder(s.conns, s.turns);
      && Subsequence(lines, Texts(Carried(s.enqueued)))
      && forall i, j | 0 <= i < j < |lines| :: lines[i] != lines[j]
  {
    var sent, all := Transmitted(s.conns, s.turns), Carried(s.enqueued);
    SentIsEnqueued(s);
    EnqueuedApart(s);
    CarriedDistinct(s.enqueued);
    DistinctStays(sent, all);
    LinesAreTransmitted(s.conns, s.turns);
    TextsKeepOrder(sent, all);
    forall i, j | 0 <= i < j < |sent| ensures Texts(sent)[i] != Texts(sent)[j] {
      DistinctTexts(sent, i, j);
    }
  }
}
