/** What the servers make of the wires: the lines as a reader of JSON and of the Electrum
    protocol takes them, against the inventory and the calls. */
module Understanding {
  import opened Base
  import opened Messages
  import opened Lines
  import opened Framing
  import opened JsonText
  import opened Machine
  import opened Ids
  import opened Acknowledgements
  import opened Refinement
  import opened Agreement
  import opened Server
  import opened Guarantees

  /** The request that a server reads off a line. */
  function Heard(line: string): Option<Numbered> {
    match ReadText(line)
    case Some(doc) => ReadRequest(doc)
    case None => None
  }

  /** A broadcast, which the client writes as the array of the transaction's bytes. */
  predicate HearsBytes(line: string, id: usize, raw: seq<byte>) {
    match ReadText(line)
    case Some(doc) =>
      && Find(doc, "id") == Present(Int(id))
      && Find(doc, "method") == Present(Str("blockchain.transaction.broadcast"))
      && Find(doc, "params") == Present(Arr([Arr(Numbers(raw))]))
    case None => false
  }

  /** The text of a request is heard as that request under its own id if and only if it
      is not the broadcast of a transaction; of a broadcast exactly its bytes are heard. */
  lemma RequestIsHeard(id: usize, req: Request)
    ensures Heard(RequestText(RequestMsg(id, req))) == Some(Numbered(id, req)) <==> !req.BroadcastTx?
    ensures req.BroadcastTx? ==>
      && Heard(RequestText(RequestMsg(id, req))) == None
      && HearsBytes(RequestText(RequestMsg(id, req)), id, req.tx.raw)
  {
    TextIsRead(RequestMsg(id, req));
    RequestIsUnderstood(id, req);
    if req.BroadcastTx? {
      BroadcastIsMisread(id, req.tx);
    }
  }

  /** What the server on a connection hears, line by line. */
  function HeardOn(wire: string): (heard: seq<Option<Numbered>>)
    ensures |heard| == |CompleteLines(wire)|
  {
    var lines := CompleteLines(wire);
    seq(|lines|, i requires 0 <= i < |lines| => Heard(lines[i]))
  }

  /** At every moment of every run, each complete line of each wire is heard as the
      request recorded under some id, and under that id, if and only if that request
      is not a broadcast; of a broadcast exactly its bytes are heard. */
  lemma RunIsHeard(states: seq<State>, steps: seq<Step>, i: nat, k: nat, n: nat) returns (id: usize)
    requires IsRun(states, steps) && i < |states| && InBound(states[i])
    requires k < |states[i].conns| && n < |CompleteLines(states[i].conns[k].wire)|
    ensures id in states[i].inserted
    ensures var req := states[i].inserted[id];
      && (HeardOn(states[i].conns[k].wire)[n] == Some(Numbered(id, req)) <==> !req.BroadcastTx?)
      && (req.BroadcastTx? ==> HearsBytes(CompleteLines(states[i].conns[k].wire)[n], id, req.tx.raw))
  {
    RunKeepsInv(states, steps, i);
    id := WireAgrees(states[i], k, n);
    RequestIsHeard(id, states[i].inserted[id]);
  }

  /** The requests, side by side on one wire from some line on, as they were meant. */
  ghost predicate HearsInOrder(wire: string, items: seq<Entry>, at: nat) {
    && at + |items| <= |CompleteLines(wire)|
    && forall j | 0 <= j < |items| ::
         var e := items[j];
         if e.req.BroadcastTx? then HearsBytes(CompleteLines(wire)[at + j], e.id, e.req.tx.raw)
         else HeardOn(wire)[at + j] == Some(Numbered(e.id, e.req))
  }

  lemma ShownIsHeard(wire: string, items: seq<Entry>, at: nat)
    requires Shows(wire, Msgs(items), at)
    ensures HearsInOrder(wire, items, at)
  {
    var lines, ms := CompleteLines(wire), Msgs(items);
    forall j | 0 <= j < |items|
      ensures lines[at + j] == RequestText(RequestMsg(items[j].id, items[j].req))
    {
      TextAt(ms, j);
      assert lines[at..at + |ms|][j] == lines[at + j];
    }
    forall j | 0 <= j < |items| { RequestIsHeard(items[j].id, items[j].req); }
  }

  /** At every moment of every run, a call that waited and returned successfully has been
      heard: some server hears all of its requests, one after the other, with their ids. */
  lemma RunSuccessIsHeard(states: seq<State>, steps: seq<Step>, i: nat, c: CallId) returns (k: nat, at: nat)
    requires IsRun(states, steps) && i < |states| && InBound(states[i]) && c in states[i].calls
    requires var call := states[i].calls[c];
      call.Returned? && call.waited && call.result == Sent && call.sub.items != []
    ensures k < |states[i].conns| && HearsInOrder(states[i].conns[k].wire, states[i].calls[c].sub.items, at)
  {
    RunAcknowledgesTruly(states, steps, i, c);
    var ms := Msgs(states[i].calls[c].sub.items);
    k, at :| k < |states[i].conns| && Shows(states[i].conns[k].wire, ms, at);
    ShownIsHeard(states[i].conns[k].wire, states[i].calls[c].sub.items, at);
  }
}
