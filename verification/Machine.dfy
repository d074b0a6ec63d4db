/** The client as a machine of concurrent tasks (src/client.rs).

    One step is one atomic operation, one lock region without an await in it, or
    one operation on a channel. Any number of callers, connections and control
    tasks interleave in any order. */
module Machine {
  import opened Base
  import opened Messages
  import opened Responses
  import opened Lines
  import opened Framing

  const CAPACITY := 1024

  datatype ClientStatus = Initialized | Connected | Connecting | Disconnected | Stopped

  datatype ClientNotification =
    | Answered(id: usize, response: Response)
    | Notified(notice: Notice)
    | StopNotified

  /** A line read from a server: a JSON object, or anything else. */
  datatype Line = Json(doc: Document) | OtherText

  function DecodeLine(line: Line): Option<JsonRpcMsg> {
    match line
    case Json(doc) => Decode(doc)
    case OtherText => None
  }

  // ----- callers: send_msg and send_batch_msg

  type CallId = nat

  datatype Entry = Entry(id: usize, req: Request)

  function Msgs(items: seq<Entry>): (ms: seq<JsonRpcMsg>)
    ensures |ms| == |items| && AllRequests(ms)
    ensures forall i | 0 <= i < |items| :: ms[i] == RequestMsg(items[i].id, items[i].req)
  {
    seq(|items|, i requires 0 <= i < |items| => RequestMsg(items[i].id, items[i].req))
  }

  /** What a caller hands to the queue once its requests are in the inventory. */
  datatype Submission = Submission(batch: bool, items: seq<Entry>) {
    function Event(): ClientEvent {
      if batch || |items| != 1 then SendBatch(Msgs(items)) else SendMsg(RequestMsg(items[0].id, items[0].req))
    }
  }

  datatype SendResult = Sent | MessageNotSent | OneShotRecvError | RecvTimeout

  datatype Call =
    | Reserved(entry: Entry, waited: bool)     // id drawn, inventory not yet locked
    | Abandoned(entry: Entry)                  // dropped by its owner in that state
    | Filling(todo: seq<Request>, items: seq<Entry>, drawn: Option<usize>, waited: bool)  // holds the inventory lock
    | Ready(sub: Submission, waited: bool)     // about to enqueue
    | Waiting(sub: Submission)                 // waits for the acknowledgement
    | Returned(sub: Submission, waited: bool, result: SendResult)
  {
    /** The id that the call has drawn and not yet recorded in the inventory. */
    function Held(): Option<usize> {
      match this
      case Reserved(e, _) => Some(e.id)
      case Abandoned(e) => Some(e.id)
      case Filling(_, _, drawn, _) => drawn
      case _ => None
    }

    /** The entries that the call has recorded. */
    function Recorded(): seq<Entry> {
      match this
      case Filling(_, items, _, _) => items
      case Ready(sub, _) => sub.items
      case Waiting(sub) => sub.items
      case Returned(sub, _, _) => sub.items
      case _ => []
    }
  }

  // ----- messages in the queue

  /** Who enqueued a message; kept for the record, the code has no use for it. */
  datatype Origin = FromCall(c: CallId) | FromReceiver(k: nat) | FromStop

  /** `waited` says whether the message carries the sending half of a oneshot. */
  datatype Message = Message(event: ClientEvent, origin: Origin, waited: bool)

  /** What the oneshot delivered; a successful write is remembered by its place. */
  datatype Ack = Wrote(k: nat, at: nat) | NotWritten | Lost

  // ----- connections

  datatype SenderTask =
    | Queueing                    // waits for the lock on the queue
    | Draining                    // owns the queue
    | Holding(message: Message)   // has taken a message
    | StopSeen                    // has taken Stop with the stop flag set
    | StopRecorded                // has recorded the status
    | StopCleared                 // has cleared the flag
    | Ending(failed: bool)        // has left the loop
    | Finished(failed: bool)      // has released the queue
  {
    predicate OwnsQueue() {
      !Queueing? && !Finished?
    }
  }

  datatype ReceiverTask = Reading | Leaving | Closing | Gone | Crashed

  /** `wire` is what the server has been sent. `sent` and `tail` are the record of
      how it came about: whole requests, then perhaps a piece of one more. */
  datatype Conn = Conn(
    wire: string, sender: SenderTask, receiver: ReceiverTask, sent: seq<JsonRpcMsg>, tail: string)

  // ----- the whole system

  /** `line` is the position of the retiring line among the received ones, `published`
      the response that was published, `at` the length of the log of notifications at that moment. */
  datatype Retirement = Retirement(line: nat, published: Option<Response>, at: nat)

  datatype State = State(
    lastId: usize,
    inventory: map<usize, Request>,
    lock: Option<CallId>,              // the batch caller that holds the inventory lock
    queue: seq<Message>,
    status: ClientStatus,
    stopFlag: bool,
    notifs: seq<ClientNotification>,   // everything ever broadcast
    holder: Option<nat>,               // the connection whose sender owns the queue
    conns: seq<Conn>,
    calls: map<CallId, Call>,
    acks: map<CallId, Ack>,
    // History only: no step depends on what follows.
    issued: seq<CallId>,               // who drew each id
    inserted: map<usize, Request>,
    retired: map<usize, Retirement>,
    received: seq<Line>,
    enqueued: seq<Message>,
    taken: seq<Message>,
    turns: seq<nat>,                   // connections in the order in which their senders got the queue
    failed: map<nat, nat>)             // the connections whose write failed, and which of the taken messages it was

  const Start := State(
    0, map[], None, [], Initialized, false, [], None, [], map[], map[], [], map[], map[], [], [], [], [], map[])

  datatype Step =
    // callers
    | Reserve(c: CallId, req: Request, waited: bool)
    | Insert(c: CallId)
    | Abandon(c: CallId)
    | BatchLock(c: CallId, reqs: seq<Request>, waited: bool)
    | BatchDraw(c: CallId)
    | BatchInsert(c: CallId)
    | BatchUnlock(c: CallId)
    | TrySend(c: CallId)
    | Reply(c: CallId)
    | Expire(c: CallId)
    // senders
    | SenderLock(k: nat)
    | SenderTake(k: nat)
    | SenderWrite(k: nat)
    | SenderSkip(k: nat)
    | SenderFail(k: nat, n: nat)
    | SenderClose(k: nat)
    | SenderStop(k: nat)
    | SenderStopped(k: nat)
    | SenderUnflag(k: nat)
    | SenderNotify(k: nat)
    | SenderFinish(k: nat)
    // receivers
    | ReceiveLine(k: nat, line: Line)
    | ReceiverLeave(k: nat)
    | ReceiverStatus(k: nat)
    | ReceiverClose(k: nat)
    | ReceiverAbort(k: nat)
    // control
    | ConnectOk
    | SetStatus(v: ClientStatus)
    | SetFlag(b: bool)
    | EnqueueStop
  {
    predicate Caller() {
      Reserve? || Insert? || Abandon? || BatchLock? || BatchDraw? || BatchInsert? || BatchUnlock?
      || TrySend? || Reply? || Expire?
    }

    predicate Sender() {
      SenderLock? || SenderTake? || SenderWrite? || SenderSkip? || SenderFail? || SenderClose? || SenderStop?
      || SenderStopped? || SenderUnflag? || SenderNotify? || SenderFinish?
    }

    predicate Receiver() {
      ReceiveLine? || ReceiverLeave? || ReceiverStatus? || ReceiverClose? || ReceiverAbort?
    }
  }

  predicate Room(s: State) {
    |s.queue| < CAPACITY
  }

  // ----- steps of callers

  predicate CallerEnabled(s: State, step: Step) {
    match step
    case Reserve(c, _, _) => c !in s.calls
    case Insert(c) => c in s.calls && s.calls[c].Reserved? && s.lock == None
    case Abandon(c) => c in s.calls && s.calls[c].Reserved?
    case BatchLock(c, _, _) => c !in s.calls && s.lock == None
    case BatchDraw(c) => c in s.calls && s.calls[c].Filling? && s.calls[c].drawn == None && s.calls[c].todo != []
    case BatchInsert(c) => c in s.calls && s.calls[c].Filling? && s.calls[c].drawn.Some? && s.calls[c].todo != []
    case BatchUnlock(c) => c in s.calls && s.calls[c].Filling? && s.calls[c].drawn == None && s.calls[c].todo == []
    case TrySend(c) => c in s.calls && s.calls[c].Ready?
    case Reply(c) => c in s.calls && s.calls[c].Waiting? && c in s.acks
    case Expire(c) => c in s.calls && s.calls[c].Waiting?
    case _ => false
  }

  function ResultOf(ack: Ack): SendResult {
    match ack
    case Wrote(_, _) => Sent
    case NotWritten => MessageNotSent
    case Lost => OneShotRecvError
  }

  function ApplyCaller(s: State, step: Step): State
    requires CallerEnabled(s, step)
  {
    match step
    case Reserve(c, req, waited) =>
      // fetch_add returns the old value, and the counter wraps around
      s.(lastId := (s.lastId + 1) % WORD, issued := s.issued + [c],
         calls := s.calls[c := Reserved(Entry(s.lastId, req), waited)])
    case Insert(c) =>
      var e := s.calls[c].entry;
      s.(inventory := s.inventory[e.id := e.req], inserted := s.inserted[e.id := e.req],
         calls := s.calls[c := Ready(Submission(false, [e]), s.calls[c].waited)])
    case Abandon(c) =>
      s.(calls := s.calls[c := Abandoned(s.calls[c].entry)])
    case BatchLock(c, reqs, waited) =>
      s.(lock := Some(c), calls := s.calls[c := Filling(reqs, [], None, waited)])
    case BatchDraw(c) =>
      s.(lastId := (s.lastId + 1) % WORD, issued := s.issued + [c],
         calls := s.calls[c := s.calls[c].(drawn := Some(s.lastId))])
    case BatchInsert(c) =>
      var e := NextEntry(s.calls[c]);
      s.(inventory := s.inventory[e.id := e.req], inserted := s.inserted[e.id := e.req],
         calls := s.calls[c := Recording(s.calls[c])])
    case BatchUnlock(c) =>
      s.(lock := None, calls := s.calls[c := Unlocked(s.calls[c])])
    case TrySend(c) =>
      Offer(s, c, s.calls[c].sub.Event())
    case Reply(c) =>
      s.(calls := s.calls[c := Returned(s.calls[c].sub, true, ResultOf(s.acks[c]))])
    case Expire(c) =>
      s.(calls := s.calls[c := Returned(s.calls[c].sub, true, RecvTimeout)])
  }

  /** `try_send`: a full queue refuses the message. */
  function Offer(s: State, c: CallId, event: ClientEvent): State
    requires c in s.calls && s.calls[c].Ready?
  {
    var sent := if Room(s) then [Message(event, FromCall(c), s.calls[c].waited)] else [];
    s.(queue := s.queue + sent, enqueued := s.enqueued + sent, calls := s.calls[c := Offered(s.calls[c], Room(s))])
  }

  /** The entry a batch records next. */
  function NextEntry(call: Call): Entry
    requires call.Filling? && call.drawn.Some? && call.todo != []
  {
    Entry(call.drawn.value, call.todo[0])
  }

  function Recording(call: Call): Call
    requires call.Filling? && call.drawn.Some? && call.todo != []
  {
    Filling(call.todo[1..], call.items + [NextEntry(call)], None, call.waited)
  }

  /** A batch without requests returns at once. */
  function Unlocked(call: Call): Call
    requires call.Filling?
  {
    if call.items == [] then Returned(Submission(true, []), call.waited, Sent)
    else Ready(Submission(true, call.items), call.waited)
  }

  /** A full queue refuses the message, and a caller that does not wait is done. */
  function Offered(call: Call, accepted: bool): Call
    requires call.Ready?
  {
    if !accepted then Returned(call.sub, call.waited, MessageNotSent)
    else if call.waited then Waiting(call.sub)
    else Returned(call.sub, false, Sent)
  }

  // ----- steps of sender tasks

  predicate SenderEnabled(s: State, step: Step) {
    match step
    case SenderLock(k) => k < |s.conns| && s.conns[k].sender == Queueing && s.holder == None
    case SenderTake(k) => k < |s.conns| && s.conns[k].sender == Draining && s.queue != []
    case SenderWrite(k) => HoldsRequests(s, k)
    case SenderSkip(k) =>
      && k < |s.conns| && s.conns[k].sender.Holding?
      && s.conns[k].sender.message.event.SendMsg? && !s.conns[k].sender.message.event.msg.Request?
    case SenderFail(k, n) =>
      HoldsRequests(s, k) && n < |WireText(Payload(s.conns[k].sender.message.event))|
    case SenderClose(k) =>
      k < |s.conns| && s.conns[k].sender.Holding? && s.conns[k].sender.message.event == ClientEvent.Close
    case SenderStop(k) =>
      k < |s.conns| && s.conns[k].sender.Holding? && s.conns[k].sender.message.event == ClientEvent.Stop
    case SenderStopped(k) => k < |s.conns| && s.conns[k].sender == StopSeen
    case SenderUnflag(k) => k < |s.conns| && s.conns[k].sender == StopRecorded
    case SenderNotify(k) => k < |s.conns| && s.conns[k].sender == StopCleared
    case SenderFinish(k) => k < |s.conns| && s.conns[k].sender.Ending?
    case _ => false
  }

  predicate HoldsRequests(s: State, k: nat) {
    && k < |s.conns| && s.conns[k].sender.Holding?
    && var event := s.conns[k].sender.message.event;
      event.SendBatch? || (event.SendMsg? && event.msg.Request?)
  }

  function WithSender(conns: seq<Conn>, k: nat, sender: SenderTask): seq<Conn>
    requires k < |conns|
  {
    conns[k := conns[k].(sender := sender)]
  }

  /** A oneshot delivers at most once. */
  function Acknowledged(acks: map<CallId, Ack>, m: Message, ack: Ack): map<CallId, Ack> {
    if m.waited && m.origin.FromCall? && m.origin.c !in acks then acks[m.origin.c := ack] else acks
  }

  /** The connection after a whole write. */
  function Written(conn: Conn, ms: seq<JsonRpcMsg>): Conn
    requires AllRequests(ms)
  {
    Conn(conn.wire + WireText(ms), Draining, conn.receiver, conn.sent + ms, conn.tail)
  }

  /** The connection after a write that failed with `n` characters sent. */
  function CutShort(conn: Conn, ms: seq<JsonRpcMsg>, n: nat): Conn
    requires AllRequests(ms) && n < |WireText(ms)|
  {
    Conn(conn.wire + WireText(ms)[..n], Ending(true), conn.receiver,
         conn.sent + ms[..WholeLines(Texts(ms), n)], Remainder(Texts(ms), n))
  }

  function WriteAll(s: State, k: nat, ms: seq<JsonRpcMsg>): State
    requires k < |s.conns| && s.conns[k].sender.Holding? && AllRequests(ms)
  {
    s.(conns := s.conns[k := Written(s.conns[k], ms)],
       acks := Acknowledged(s.acks, s.conns[k].sender.message, Wrote(k, |s.conns[k].sent|)))
  }

  /** The position of the message that a sender holds. */
  function LastTaken(s: State): nat {
    if s.taken == [] then 0 else |s.taken| - 1
  }

  function WritePart(s: State, k: nat, ms: seq<JsonRpcMsg>, n: nat): State
    requires k < |s.conns| && s.conns[k].sender.Holding? && AllRequests(ms) && n < |WireText(ms)|
  {
    s.(conns := s.conns[k := CutShort(s.conns[k], ms, n)],
       acks := Acknowledged(s.acks, s.conns[k].sender.message, NotWritten),
       failed := s.failed[k := LastTaken(s)])
  }

  function ApplySender(s: State, step: Step): State
    requires SenderEnabled(s, step)
  {
    match step
    case SenderLock(k) =>
      s.(conns := WithSender(s.conns, k, Draining), holder := Some(k), turns := s.turns + [k])
    case SenderTake(k) =>
      s.(conns := WithSender(s.conns, k, Holding(s.queue[0])), queue := s.queue[1..], taken := s.taken + [s.queue[0]])
    case SenderWrite(k) =>
      WriteAll(s, k, Payload(s.conns[k].sender.message.event))
    case SenderSkip(k) =>
      // Nothing but a request is sent; the oneshot is dropped unanswered.
      s.(conns := WithSender(s.conns, k, Draining), acks := Acknowledged(s.acks, s.conns[k].sender.message, Lost))
    case SenderFail(k, n) =>
      WritePart(s, k, Payload(s.conns[k].sender.message.event), n)
    case SenderClose(k) =>
      s.(conns := WithSender(s.conns, k, Ending(false)), status := Disconnected)
    case SenderStop(k) =>
      s.(conns := WithSender(s.conns, k, if s.stopFlag then StopSeen else Draining))
    case SenderStopped(k) =>
      s.(conns := WithSender(s.conns, k, StopRecorded), status := Stopped)
    case SenderUnflag(k) =>
      s.(conns := WithSender(s.conns, k, StopCleared), stopFlag := false)
    case SenderNotify(k) =>
      s.(conns := WithSender(s.conns, k, Ending(false)), notifs := s.notifs + [StopNotified])
    case SenderFinish(k) =>
      s.(conns := WithSender(s.conns, k, Finished(s.conns[k].sender.failed)), holder := None)
  }

  // ----- steps of receiver tasks

  predicate ReceiverEnabled(s: State, step: Step) {
    match step
    case ReceiveLine(k, line) =>
      && k < |s.conns| && s.conns[k].receiver == Reading
      && (DecodeLine(line).Some? && DecodeLine(line).value.Response? ==> s.lock == None)
    case ReceiverLeave(k) => k < |s.conns| && s.conns[k].receiver == Reading
    case ReceiverStatus(k) => k < |s.conns| && s.conns[k].receiver == Leaving
    case ReceiverClose(k) => k < |s.conns| && s.conns[k].receiver == Closing
    case ReceiverAbort(k) =>
      && k < |s.conns| && (s.conns[k].sender.Ending? || s.conns[k].sender.Finished?)
      && (s.conns[k].receiver.Reading? || s.conns[k].receiver.Leaving? || s.conns[k].receiver.Closing?)
    case _ => false
  }

  function WithReceiver(conns: seq<Conn>, k: nat, receiver: ReceiverTask): seq<Conn>
    requires k < |conns|
  {
    conns[k := conns[k].(receiver := receiver)]
  }

  /** What a line makes the receiver do, given the inventory it finds. */
  datatype LineEffect =
    | Ignores                                              // not for the client
    | Notices(notice: Notice)
    | Misses(id: usize)                                    // a response to an id that is not pending
    | Panics(id: usize)                                    // the reading of the response panics
    | Retires(id: usize, published: Option<Response>)

  /** Look-up and reading of a response, against the request stored under its id. */
  function ResponseEffect(inventory: map<usize, Request>, msg: JsonRpcMsg): LineEffect
    requires msg.Response?
  {
    if msg.id !in inventory then Misses(msg.id)
    else if ToResponse(msg, inventory[msg.id]) == Panicked then Panics(msg.id)
    else Retires(msg.id, Publishable(msg, inventory[msg.id]))
  }

  function Effect(inventory: map<usize, Request>, line: Line): (e: LineEffect)
    ensures e.Retires? || e.Panics? ==> e.id in inventory
  {
    match DecodeLine(line)
    case None => Ignores
    case Some(msg) =>
      match msg
      case Request(_, _, _, _) => Ignores
      case Response(_, _, _, _) => ResponseEffect(inventory, msg)
      case Notification(_, _, _) =>
        match ToNotification(msg)
        case Some(n) => Notices(n)
        case None => Ignores
  }

  function AnswerFor(id: usize, published: Option<Response>): seq<ClientNotification> {
    match published
    case Some(r) => [Answered(id, r)]
    case None => []
  }

  /** Publication and removal, under the same hold of the inventory lock as the look-up.
      A panic releases the lock and leaves the entry where it is. */
  function Receive(s: State, k: nat, line: Line, effect: LineEffect): State
    requires k < |s.conns|
  {
    match effect
    case Ignores => s.(received := s.received + [line])
    case Misses(_) => s.(received := s.received + [line])
    case Notices(n) => s.(received := s.received + [line], notifs := s.notifs + [Notified(n)])
    case Panics(_) => s.(received := s.received + [line], conns := WithReceiver(s.conns, k, Crashed))
    case Retires(id, published) =>
      s.(received := s.received + [line],
         inventory := s.inventory - {id},
         notifs := s.notifs + AnswerFor(id, published),
         retired := s.retired[id := Retirement(|s.received|, published, |s.notifs|)])
  }

  function ApplyReceiver(s: State, step: Step): State
    requires ReceiverEnabled(s, step)
  {
    match step
    case ReceiveLine(k, line) => Receive(s, k, line, Effect(s.inventory, line))
    case ReceiverLeave(k) => s.(conns := WithReceiver(s.conns, k, Leaving))
    case ReceiverStatus(k) =>
      s.(conns := WithReceiver(s.conns, k, if s.status == Disconnected || s.status == Stopped then Gone else Closing))
    case ReceiverClose(k) =>
      var close := if Room(s) then [Message(ClientEvent.Close, FromReceiver(k), false)] else [];
      s.(conns := WithReceiver(s.conns, k, Gone), queue := s.queue + close, enqueued := s.enqueued + close)
    case ReceiverAbort(k) => s.(conns := WithReceiver(s.conns, k, Gone))
  }

  // ----- steps of the control tasks

  /** When to connect, and when to record a status other than Connected, is left
      open: these steps may happen at any time. */
  predicate ControlEnabled(s: State, step: Step) {
    match step
    case ConnectOk => true
    case SetStatus(v) => v == Connecting || v == Disconnected || v == Stopped
    case SetFlag(_) => true
    case EnqueueStop => Room(s)
    case _ => false
  }

  function ApplyControl(s: State, step: Step): State
    requires ControlEnabled(s, step)
  {
    match step
    case ConnectOk => s.(status := Connected, conns := s.conns + [Conn("", Queueing, Reading, [], "")])
    case SetStatus(v) => s.(status := v)
    case SetFlag(b) => s.(stopFlag := b)
    case EnqueueStop =>
      var stop := [Message(ClientEvent.Stop, FromStop, false)];
      s.(queue := s.queue + stop, enqueued := s.enqueued + stop)
  }

  // ----- all steps

  predicate Enabled(s: State, step: Step) {
    if step.Caller() then CallerEnabled(s, step)
    else if step.Sender() then SenderEnabled(s, step)
    else if step.Receiver() then ReceiverEnabled(s, step)
    else ControlEnabled(s, step)
  }

  function Apply(s: State, step: Step): State
    requires Enabled(s, step)
  {
    if step.Caller() then ApplyCaller(s, step)
    else if step.Sender() then ApplySender(s, step)
    else if step.Receiver() then ApplyReceiver(s, step)
    else ApplyControl(s, step)
  }

  /** A run: a sequence of states and the steps between them. */
  predicate IsRun(states: seq<State>, steps: seq<Step>) {
    && |states| == |steps| + 1
    && states[0] == Start
    && forall i {:trigger steps[i]} | 0 <= i < |steps| ::
         Enabled(states[i], steps[i]) && states[i + 1] == Apply(states[i], steps[i])
  }
}
