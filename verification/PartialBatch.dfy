/** A short run in which a batch of two requests is told that it was not sent, although
    the first of them has reached the server. */
module PartialBatch {
  import opened Base
  import opened Messages
  import opened Lines
  import opened Framing
  import opened Machine
  import opened Ids
  import opened Losses
  import opened Refinement
  import opened Transmission
  import opened Guarantees
  import opened Calls

  const ITEMS: seq<Entry> := [Entry(0, Ping), Entry(1, Ping)]
  const SUB := Submission(true, ITEMS)

  function Batch(): Message {
    Message(SUB.Event(), FromCall(0), true)
  }

  function First(): JsonRpcMsg {
    RequestMsg(0, Ping)
  }

  function Second(): JsonRpcMsg {
    RequestMsg(1, Ping)
  }

  /** The step leads from one state to the other. */
  predicate Leads(s: State, step: Step, t: State) {
    Enabled(s, step) && Apply(s, step) == t
  }

  lemma Next(s: State, step: Step, t: State)
    requires Reached(s) && Leads(s, step, t)
    ensures Reached(t)
  {
    ReachedStep(s, step);
  }

  // ----- the batch is recorded: Start, then the states after each step

  function Locked(): State {
    Start.(lock := Some(0), calls := map[0 := Filling([Ping, Ping], [], None, true)])
  }

  function Drawn(): State {
    Locked().(lastId := 1, issued := [0], calls := map[0 := Filling([Ping, Ping], [], Some(0), true)])
  }

  function Inserted(): State {
    Drawn().(inventory := map[0 := Ping], inserted := map[0 := Ping],
             calls := map[0 := Filling([Ping], [Entry(0, Ping)], None, true)])
  }

  function DrawnTwice(): State {
    Inserted().(lastId := 2, issued := [0, 0], calls := map[0 := Filling([Ping], [Entry(0, Ping)], Some(1), true)])
  }

  function Recorded(): State {
    DrawnTwice().(inventory := map[0 := Ping, 1 := Ping], inserted := map[0 := Ping, 1 := Ping],
                  calls := map[0 := Filling([], ITEMS, None, true)])
  }

  lemma Locks()
    ensures Leads(Start, BatchLock(0, [Ping, Ping], true), Locked())
  {
  }

  lemma Draws()
    ensures Leads(Locked(), BatchDraw(0), Drawn())
  {
  }

  lemma Inserts()
    ensures Leads(Drawn(), BatchInsert(0), Inserted())
  {
    assert Recording(Drawn().calls[0]) == Filling([Ping], [Entry(0, Ping)], None, true);
    assert map[][0 := Ping] == map[0 := Ping];
  }

  lemma DrawsAgain()
    ensures Leads(Inserted(), BatchDraw(0), DrawnTwice())
  {
  }

  lemma InsertsAgain()
    ensures Leads(DrawnTwice(), BatchInsert(0), Recorded())
  {
    assert Recording(DrawnTwice().calls[0]) == Filling([], ITEMS, None, true);
    assert map[0 := Ping][1 := Ping] == map[0 := Ping, 1 := Ping];
  }

  lemma FirstIsRecorded()
    ensures Reached(Inserted())
  {
    ReachedStart();
    Locks();
    Next(Start, BatchLock(0, [Ping, Ping], true), Locked());
    Draws();
    Next(Locked(), BatchDraw(0), Drawn());
    Inserts();
    Next(Drawn(), BatchInsert(0), Inserted());
  }

  lemma BothAreRecorded()
    ensures Reached(Recorded())
  {
    FirstIsRecorded();
    DrawsAgain();
    Next(Inserted(), BatchDraw(0), DrawnTwice());
    InsertsAgain();
    Next(DrawnTwice(), BatchInsert(0), Recorded());
  }

  // ----- the batch is enqueued

  function Submitted(): State {
    Recorded().(lock := None, calls := map[0 := Ready(SUB, true)])
  }

  function Enqueued(): State {
    Submitted().(queue := [Batch()], enqueued := [Batch()], calls := map[0 := Waiting(SUB)])
  }

  lemma Unlocks()
    ensures Leads(Recorded(), BatchUnlock(0), Submitted())
  {
  }

  lemma Sends()
    ensures Leads(Submitted(), Step.TrySend(0), Enqueued())
  {
    assert Offer(Submitted(), 0, SUB.Event()) == Enqueued();
  }

  lemma BatchIsEnqueued()
    ensures Reached(Enqueued())
  {
    BothAreRecorded();
    Unlocks();
    Next(Recorded(), BatchUnlock(0), Submitted());
    Sends();
    Next(Submitted(), Step.TrySend(0), Enqueued());
  }

  // ----- a connection takes it

  function Sending(sender: SenderTask): Conn {
    Conn("", sender, Reading, [], "")
  }

  function Connecting(): State {
    Enqueued().(status := Connected, conns := [Sending(Queueing)])
  }

  function Owning(): State {
    Connecting().(conns := [Sending(Draining)], holder := Some(0), turns := [0])
  }

  function Taken(): State {
    Owning().(conns := [Sending(SenderTask.Holding(Batch()))], queue := [], taken := [Batch()])
  }

  lemma Connects()
    ensures Leads(Enqueued(), ConnectOk, Connecting())
  {
  }

  lemma Owns()
    ensures Leads(Connecting(), SenderLock(0), Owning())
  {
  }

  lemma Takes()
    ensures Leads(Owning(), SenderTake(0), Taken())
  {
  }

  lemma BatchIsTaken()
    ensures Reached(Taken())
  {
    BatchIsEnqueued();
    Connects();
    Next(Enqueued(), ConnectOk, Connecting());
    Owns();
    Next(Connecting(), SenderLock(0), Owning());
    Takes();
    Next(Owning(), SenderTake(0), Taken());
  }

  // ----- the write fails after the first line

  function FirstLine(): nat {
    |RequestText(First())| + 1
  }

  lemma BatchPayload()
    ensures Payload(Batch().event) == [First(), Second()]
  {
    assert Batch().event == SendBatch(Msgs(ITEMS));
    assert Msgs(ITEMS) == [First(), Second()];
  }

  lemma LinesOfTwo(t: string, u: string)
    ensures Stream([t, u]) == t + "\n" + (u + "\n")
    ensures |t| + 1 < |Stream([t, u])| && WholeLines([t, u], |t| + 1) == 1
  {
    assert [t, u][1..] == [u] && [u][1..] == [];
    assert Stream([u]) == u + "\n" + "";
  }

  lemma FirstLineIsCut()
    ensures Payload(Batch().event) == [First(), Second()] && FirstLine() < |WireText([First(), Second()])|
    ensures CutShort(Sending(SenderTask.Holding(Batch())), [First(), Second()], FirstLine()).sent == [First()]
  {
    BatchPayload();
    var ms := [First(), Second()];
    assert Texts(ms) == [RequestText(First()), RequestText(Second())];
    LinesOfTwo(RequestText(First()), RequestText(Second()));
    assert ms[..1] == [First()];
  }

  /** The state after the write of `ms` has failed with `n` characters sent. */
  function FailedWith(ms: seq<JsonRpcMsg>, n: nat): State
    requires AllRequests(ms) && n < |WireText(ms)|
  {
    Taken().(conns := [CutShort(Sending(SenderTask.Holding(Batch())), ms, n)],
             acks := map[0 := NotWritten], failed := map[0 := 0])
  }

  function Failed(): State
    requires FirstLine() < |WireText([First(), Second()])|
  {
    FailedWith([First(), Second()], FirstLine())
  }

  lemma WriteFails(ms: seq<JsonRpcMsg>, n: nat)
    requires AllRequests(ms) && n < |WireText(ms)|
    ensures WritePart(Taken(), 0, ms, n) == FailedWith(ms, n)
  {
  }

  lemma FailLeads(s: State, k: nat, ms: seq<JsonRpcMsg>, n: nat)
    requires HoldsRequests(s, k) && ms == Payload(s.conns[k].sender.message.event) && n < |WireText(ms)|
    ensures Leads(s, SenderFail(k, n), WritePart(s, k, ms, n))
  {
  }

  lemma SenderFails(ms: seq<JsonRpcMsg>, n: nat)
    requires ms == Payload(Batch().event) && n < |WireText(ms)|
    ensures Leads(Taken(), SenderFail(0, n), FailedWith(ms, n))
  {
    FailLeads(Taken(), 0, ms, n);
    WriteFails(ms, n);
  }

  lemma Fails()
    ensures FirstLine() < |WireText([First(), Second()])| && Leads(Taken(), SenderFail(0, FirstLine()), Failed())
  {
    FirstLineIsCut();
    SenderFails([First(), Second()], FirstLine());
  }

  function Told(): State
    requires FirstLine() < |WireText([First(), Second()])|
  {
    Failed().(calls := map[0 := Returned(SUB, true, MessageNotSent)])
  }

  lemma Tells()
    requires FirstLine() < |WireText([First(), Second()])|
    ensures Leads(Failed(), Reply(0), Told())
  {
    ReplyLeads(Failed(), 0);
    assert Failed().calls[0 := Returned(SUB, true, MessageNotSent)] == map[0 := Returned(SUB, true, MessageNotSent)];
  }

  lemma ReplyLeads(s: State, c: CallId)
    requires c in s.calls && s.calls[c].Waiting? && c in s.acks && s.acks[c] == NotWritten
    ensures Leads(s, Reply(c), s.(calls := s.calls[c := Returned(s.calls[c].sub, true, MessageNotSent)]))
  {
  }

  lemma CallIsTold()
    ensures FirstLine() < |WireText([First(), Second()])| && Reached(Told())
  {
    BatchIsTaken();
    Fails();
    Next(Taken(), SenderFail(0, FirstLine()), Failed());
    Tells();
    Next(Failed(), Reply(0), Told());
  }

  /** After the failed write the status says Connected, although the only sender has left its loop. */
  lemma FailedIsConnected() returns (s: State)
    ensures Reached(s) && s.status == Connected && |s.conns| == 1 && s.conns[0].sender == Ending(true)
  {
    BatchIsTaken();
    Fails();
    Next(Taken(), SenderFail(0, FirstLine()), Failed());
    s := Failed();
  }

  lemma ToldHas()
    requires FirstLine() < |WireText([First(), Second()])|
    ensures var s := Told();
      && InBound(s) && 0 in s.calls && s.calls[0] == Returned(SUB, true, MessageNotSent)
      && |s.conns| == 1 && First() in s.conns[0].sent
  {
    FirstLineIsCut();
  }

  lemma FirstIsShown(s: State)
    requires Reached(s) && InBound(s) && |s.conns| == 1 && First() in s.conns[0].sent
    ensures ShownOnWire(s, RequestText(First()))
  {
    ReachedIsOk(s);
    ShownIfOnWire(s, First());
  }

  lemma SecondIsNot(s: State)
    requires Reached(s) && InBound(s) && 0 in s.calls && s.calls[0] == Returned(SUB, true, MessageNotSent)
    ensures !ShownOnWire(s, RequestText(Second()))
  {
    var states, steps :| IsRun(states, steps) && states[|steps|] == s;
    RunRefusesTruly(states, steps, |steps|, 0);
    assert Msgs(ITEMS)[1] == Second();
  }

  /** The call was told MessageNotSent; its first request is a line on the wire and its second is not. */
  lemma RefusedBatchIsPartlySent() returns (s: State)
    ensures Reached(s) && 0 in s.calls && s.calls[0] == Returned(Submission(true, ITEMS), true, MessageNotSent)
    ensures ShownOnWire(s, RequestText(RequestMsg(0, Ping))) && !ShownOnWire(s, RequestText(RequestMsg(1, Ping)))
  {
    CallIsTold();
    ToldHas();
    s := Told();
    FirstIsShown(s);
    SecondIsNot(s);
  }
}
