/** The client object, and the code of its own tasks run among all the others
    (src/client.rs).

    Every method takes as inputs what the outside decides: the steps that other tasks
    perform while this one is suspended, how often a waiting task is resumed before its
    time runs out, whether a write succeeds. Each change a method makes to the shared
    fields is a step of the machine, so that every execution, with any inputs, extends
    a run of the machine. */
module ClientTasks {
  import opened Base
  import opened Messages
  import opened Responses
  import opened Lines
  import opened Framing
  import opened Machine
  import opened Ids
  import opened Acknowledgements
  import opened Growth
  import opened Waiters
  import opened Subscriptions
  import opened Calls

  class Client {
    var lastId: usize
    var inventory: map<usize, Request>
    var lock: Option<CallId>
    var queue: seq<Message>
    var status: ClientStatus
    var stopFlag: bool
    var notifs: seq<ClientNotification>
    /** The rest of the system: suspended calls, connections, and the record of the run. */
    var world: State

    function View(): State
      reads this
    {
      world.(lastId := lastId, inventory := inventory, lock := lock, queue := queue,
             status := status, stopFlag := stopFlag, notifs := notifs)
    }

    ghost predicate Valid()
      reads this
    {
      Reached(View())
    }

    constructor ()
      ensures Valid() && View() == Start
    {
      lastId, inventory, lock, queue, status, stopFlag := 0, map[], None, [], Initialized, false;
      notifs, world := [], Start;
      new;
      ReachedStart();
    }

    // ----- the other tasks

    method Load(s: State)
      modifies this
      ensures View() == s
    {
      world := s;
      lastId, inventory, lock, queue := s.lastId, s.inventory, s.lock, s.queue;
      status, stopFlag, notifs := s.status, s.stopFlag, s.notifs;
    }

    method Interleave(c: CallId, others: Others)
      requires Valid()
      modifies this
      ensures Valid() && Interferes(old(View()), View(), c)
      ensures View() == After(old(View()), c, others)
    {
      ghost var before := View();
      var i := 0;
      while i < |others|
        invariant 0 <= i <= |others|
        invariant Valid() && Interferes(before, View(), c)
        invariant View() == After(before, c, others[..i])
      {
        assert others[..i + 1][..i] == others[..i];
        var s, step := View(), others[i];
        if Enabled(s, step) && !Own(step, c) {
          OtherStep(s, step, c);
          ReachedStep(s, step);
          InterferesOn(before, s, Apply(s, step), c);
          Load(Apply(s, step));
        }
        i := i + 1;
      }
      assert others[..i] == others;
    }

    /** The task is suspended until its next poll. */
    method PollOnce(c: CallId, polls: seq<Others>, i: nat, ghost before: State)
      requires Valid() && Interferes(before, View(), c)
      requires i < |polls| && View() == AfterPolls(before, c, polls[..i])
      modifies this
      ensures Valid() && Interferes(before, View(), c) && old(notifs) <= notifs
      ensures View() == AfterPolls(before, c, polls[..i + 1])
    {
      ghost var now := View();
      Interleave(c, polls[i]);
      InterferesOn(before, now, View(), c);
      AfterPollsMore(before, c, polls, i);
    }

    // ----- send_msg, step by step

    method FetchAdd(c: CallId, req: Request, wait: bool) returns (id: usize)
      requires Valid() && c !in world.calls
      modifies this
      ensures Valid() && Extends(old(View()), View()) && View() == Apply(old(View()), Reserve(c, req, wait)) && id == old(lastId)
    {
      ReachedStep(View(), Reserve(c, req, wait));
      id := lastId;
      lastId := (lastId + 1) % WORD;
      world := world.(issued := world.issued + [c], calls := world.calls[c := Reserved(Entry(id, req), wait)]);
    }

    method InsertEntry(c: CallId)
      requires Valid() && c in world.calls && world.calls[c].Reserved? && lock == None
      modifies this
      ensures Valid() && Extends(old(View()), View()) && View() == Apply(old(View()), Step.Insert(c))
    {
      ReachedStep(View(), Step.Insert(c));
      var e, wait := world.calls[c].entry, world.calls[c].waited;
      inventory := inventory[e.id := e.req];
      world := world.(inserted := world.inserted[e.id := e.req],
                      calls := world.calls[c := Ready(Submission(false, [e]), wait)]);
    }

    method PollLock(c: CallId, polls: seq<Others>, i: nat, ghost before: State)
      requires Valid() && i < |polls| && lock != None && FoundHeld(before, View(), c, polls, i)
      modifies this
      ensures Valid() && FoundHeld(before, View(), c, polls, i + 1)
    {
      PollOnce(c, polls, i, before);
    }

    /** Waits until nobody holds the inventory lock, or the schedule ends. */
    method AwaitLock(c: CallId, polls: seq<Others>) returns (free: bool)
      requires Valid()
      modifies this
      ensures Valid() && Interferes(old(View()), View(), c) && (free <==> lock == None)
      ensures !free ==> LockedOut(old(View()), View(), c, polls)
    {
      ghost var before := View();
      var i := 0;
      while i < |polls| && lock != None
        invariant 0 <= i <= |polls| && Valid() && FoundHeld(before, View(), c, polls, i)
        decreases |polls| - i
      {
        PollLock(c, polls, i, before);
        i := i + 1;
      }
      free := lock == None;
      if !free {
        HeldThroughout(before, View(), c, polls);
      }
    }

    /** `try_send`: the queue takes the message if it has room. */
    method TrySend(c: CallId, event: ClientEvent)
      requires Valid() && c in world.calls && world.calls[c].Ready? && event == world.calls[c].sub.Event()
      modifies this
      ensures Valid() && Extends(old(View()), View()) && View() == Offer(old(View()), c, event)
    {
      ReachedOffer(View(), c, event);
      Push(c, event);
    }

    method Push(c: CallId, event: ClientEvent)
      requires c in world.calls && world.calls[c].Ready?
      modifies this
      ensures View() == Offer(old(View()), c, event)
    {
      var call := world.calls[c];
      ghost var s := View();
      if |queue| < CAPACITY {
        var m := Message(event, FromCall(c), call.waited);
        var next := if call.waited then Waiting(call.sub) else Returned(call.sub, false, Sent);
        queue := queue + [m];
        world := world.(enqueued := world.enqueued + [m], calls := world.calls[c := next]);
        assert next == Offered(call, true);
      } else {
        world := world.(calls := world.calls[c := Returned(call.sub, call.waited, MessageNotSent)]);
        assert s.queue + [] == s.queue && s.enqueued + [] == s.enqueued;
      }
    }

    /** Receives the acknowledgement, or gives up waiting for it. */
    method TakeReply(c: CallId) returns (r: SendResult)
      requires Valid() && c in world.calls && world.calls[c].Waiting?
      modifies this
      ensures Valid() && Extends(old(View()), View())
      ensures c in world.calls && world.calls[c] == Returned(old(world.calls[c]).sub, true, r)
      ensures View() == Apply(old(View()), if c in old(world.acks) then Reply(c) else Expire(c))
    {
      ReachedStep(View(), if c in world.acks then Reply(c) else Expire(c));
      r := if c in world.acks then ResultOf(world.acks[c]) else RecvTimeout;
      world := world.(calls := world.calls[c := Returned(world.calls[c].sub, true, r)]);
    }

    method PollReply(c: CallId, polls: seq<Others>, i: nat, ghost before: State)
      requires Valid() && i < |polls| && c !in world.acks && FoundNothing(before, View(), c, polls, i)
      modifies this
      ensures Valid() && FoundNothing(before, View(), c, polls, i + 1)
    {
      PollOnce(c, polls, i, before);
    }

    method PollForReply(c: CallId, polls: seq<Others>) returns (ghost n: nat)
      requires Valid()
      modifies this
      ensures Valid() && FoundNothing(old(View()), View(), c, polls, n)
      ensures c !in world.acks ==> n == |polls|
    {
      ghost var before := View();
      var i := 0;
      while i < |polls| && c !in world.acks
        invariant 0 <= i <= |polls| && Valid() && FoundNothing(before, View(), c, polls, i)
        decreases |polls| - i
      {
        PollReply(c, polls, i, before);
        i := i + 1;
      }
      n := i;
    }

    /** Waits until the acknowledgement is there, or the schedule ends. */
    method AwaitReply(c: CallId, polls: seq<Others>) returns (r: SendResult)
      requires Valid() && c in world.calls && world.calls[c].Waiting?
      modifies this
      ensures Valid() && Extends(old(View()), View())
      ensures c in world.calls && world.calls[c] == Returned(old(world.calls[c]).sub, true, r)
      ensures var items := old(world.calls[c]).sub.items;
        InBound(View()) && r == Sent && items != [] ==> ShownWhole(View(), Msgs(items))
      // It gives up only when all of the polls have found nothing.
      ensures r == RecvTimeout ==> GivesUp(old(View()), View(), c, polls)
    {
      ghost var before := View();
      ghost var n := PollForReply(c, polls);
      ghost var now := View();
      r := TakeReply(c);
      ExtendsOn(before, now, View());
      if r == RecvTimeout {
        NothingThroughout(before, now, View(), c, polls);
      }
      if InBound(View()) && r == Sent && world.calls[c].sub.items != [] {
        SentIsShown(View(), c);
      }
    }

    /** The end of both kinds of send: enqueue, and wait for the acknowledgement if asked to. */
    method Deliver(c: CallId, event: ClientEvent, polls: seq<Others>) returns (r: SendResult)
      requires Valid() && c in world.calls && world.calls[c].Ready? && event == world.calls[c].sub.Event()
      modifies this
      ensures Valid() && Extends(old(View()), View())
      ensures c in world.calls
      ensures world.calls[c] == Returned(old(world.calls[c]).sub, old(world.calls[c]).waited, r)
      ensures var call := old(world.calls[c]);
        InBound(View()) && call.waited && r == Sent && call.sub.items != [] ==> ShownWhole(View(), Msgs(call.sub.items))
      ensures r == RecvTimeout ==> GaveUp(old(View()), View(), c, polls)
    {
      ghost var before := View();
      TrySend(c, event);
      if world.calls[c].Waiting? {
        ghost var now := View();
        r := AwaitReply(c, polls);
        ExtendsOn(before, now, View());
      } else {
        r := world.calls[c].result;
      }
    }

    /** The part of `send_msg` before the lock on the inventory is there. */
    method DrawAndWait(c: CallId, req: Request, wait: bool, lockPolls: seq<Others>) returns (id: usize, free: bool)
      requires Valid() && c !in world.calls
      modifies this
      ensures Valid() && Extends(old(View()), View()) && (free <==> lock == None)
      ensures c in world.calls && world.calls[c] == Reserved(Entry(id, req), wait)
      ensures !free ==> LockedOut(ApplyCaller(old(View()), Reserve(c, req, wait)), View(), c, lockPolls)
    {
      ghost var before := View();
      id := FetchAdd(c, req, wait);
      ghost var now := View();
      free := AwaitLock(c, lockPolls);
      ExtendsOn(before, now, View());
    }

    /** The part of `send_msg` after that. */
    method InsertAndDeliver(c: CallId, msg: JsonRpcMsg, meanwhile: Others,
                            replyPolls: seq<Others>) returns (r: SendResult)
      requires Valid() && lock == None && c in world.calls && world.calls[c].Reserved?
      requires msg == RequestMsg(world.calls[c].entry.id, world.calls[c].entry.req)
      modifies this
      ensures Valid() && Extends(old(View()), View()) && c in world.calls
      ensures var call := old(world.calls[c]);
        world.calls[c] == Returned(Submission(false, [call.entry]), call.waited, r)
      ensures var call := old(world.calls[c]);
        InBound(View()) && call.waited && r == Sent ==> ShownWhole(View(), Msgs([call.entry]))
      ensures r == RecvTimeout ==> GaveUp(old(View()), View(), c, replyPolls)
    {
      ghost var before := View();
      InsertEntry(c);
      ghost var now := View();
      Interleave(c, meanwhile);
      ExtendsOn(before, now, View());
      now := View();
      r := Deliver(c, ClientEvent.SendMsg(msg), replyPolls);
      ExtendsOn(before, now, View());
      if r == RecvTimeout {
        GaveUpSince(before, now, View(), c, replyPolls);
      }
    }

    /** `send_msg`. */
    method SendMsg(c: CallId, req: Request, wait: bool, lockPolls: seq<Others>, meanwhile: Others,
                   replyPolls: seq<Others>)
      returns (r: Sending)
      requires Valid() && c !in world.calls
      modifies this
      ensures Valid() && Extends(old(View()), View())
      ensures c in world.calls
      // It is suspended only in front of a lock that somebody holds.
      ensures r.Suspended? ==>
        lock != None && world.calls[c].Reserved? && world.calls[c].entry.req == req && world.calls[c].waited == wait
      ensures r.Sending? ==> |r.ids| == 1 && ReturnedWith(View(), c, req, wait, r.ids[0], r.result)
      // The id was drawn by this call, and the request is on record under it.
      ensures r.Sending? && InBound(View()) ==>
        RecordedInOrder(View(), c, r.ids, [req]) && DrawnSince(old(View()), r.ids)
      // With an acknowledgement asked for, success means that the request is on a wire.
      ensures InBound(View()) && wait && r.Sending? && r.result == Sent ==>
        ShownWhole(View(), Msgs([Entry(r.ids[0], req)]))
      // It waits or gives up only when the schedule has been used up.
      ensures r.Suspended? ==> LockedOut(ApplyCaller(old(View()), Reserve(c, req, wait)), View(), c, lockPolls)
      ensures r.Sending? && r.result == RecvTimeout ==> GaveUp(old(View()), View(), c, replyPolls)
    {
      ghost var before := View();
      var id, free := DrawAndWait(c, req, wait, lockPolls);
      if !free {
        return Suspended;
      }
      ghost var now := View();
      var result := InsertAndDeliver(c, RequestMsg(id, req), meanwhile, replyPolls);
      ExtendsOn(before, now, View());
      assert Entries([id], [req]) == [Entry(id, req)];
      RecordedAtEnd(before, View(), c, [id], [req]);
      if result == RecvTimeout {
        GaveUpSince(before, now, View(), c, replyPolls);
      }
      r := Sending([id], result);
    }

    // ----- send_batch_msg, step by step

    method LockForBatch(c: CallId, reqs: seq<Request>, wait: bool)
      requires Valid() && c !in world.calls && lock == None
      modifies this
      ensures Valid() && Extends(old(View()), View()) && View() == Apply(old(View()), BatchLock(c, reqs, wait))
    {
      ReachedStep(View(), BatchLock(c, reqs, wait));
      lock := Some(c);
      world := world.(calls := world.calls[c := Filling(reqs, [], None, wait)]);
    }

    method BatchFetchAdd(c: CallId) returns (id: usize)
      requires Valid() && Enabled(View(), BatchDraw(c))
      modifies this
      ensures Valid() && Extends(old(View()), View()) && View() == Apply(old(View()), BatchDraw(c)) && id == old(lastId)
    {
      ReachedStep(View(), BatchDraw(c));
      id := lastId;
      lastId := (lastId + 1) % WORD;
      world := world.(issued := world.issued + [c], calls := world.calls[c := world.calls[c].(drawn := Some(id))]);
    }

    method BatchInsertEntry(c: CallId)
      requires Valid() && Enabled(View(), BatchInsert(c))
      modifies this
      ensures Valid() && Extends(old(View()), View()) && View() == Apply(old(View()), BatchInsert(c))
    {
      ReachedStep(View(), BatchInsert(c));
      var call := world.calls[c];
      var e := Entry(call.drawn.value, call.todo[0]);
      inventory := inventory[e.id := e.req];
      world := world.(inserted := world.inserted[e.id := e.req],
                      calls := world.calls[c := Filling(call.todo[1..], call.items + [e], None, call.waited)]);
    }

    method UnlockAfterBatch(c: CallId)
      requires Valid() && Enabled(View(), BatchUnlock(c))
      modifies this
      ensures Valid() && Extends(old(View()), View()) && View() == Apply(old(View()), BatchUnlock(c))
    {
      ReachedStep(View(), BatchUnlock(c));
      lock := None;
      world := world.(calls := world.calls[c := Unlocked(world.calls[c])]);
    }

    method DrawAmongOthers(c: CallId, before: Others, between: Others) returns (id: usize)
      requires Valid() && Enabled(View(), BatchDraw(c)) && lock == Some(c)
      modifies this
      ensures Valid() && Extends(old(View()), View()) && lock == Some(c)
      ensures c in world.calls && world.calls[c] == old(world.calls[c]).(drawn := Some(id))
    {
      ghost var first := View();
      Interleave(c, before);
      ghost var now := View();
      id := BatchFetchAdd(c);
      ExtendsOn(first, now, View());
      now := View();
      Interleave(c, between);
      ExtendsOn(first, now, View());
    }

    /** One turn of the loop: other tasks may draw ids before and after the draw. */
    method BatchOne(c: CallId, ghost done: seq<Request>, ghost ids: seq<usize>, req: Request, rest: seq<Request>,
                    wait: bool,
                    before: Others, between: Others, ghost first: State)
      returns (id: usize)
      requires Extends(first, View())
      requires Valid() && |ids| == |done| && c in world.calls && lock == Some(c)
      requires world.calls[c] == Filling([req] + rest, Entries(ids, done), None, wait)
      modifies this
      ensures Valid() && Extends(first, View()) && c in world.calls && lock == Some(c)
      ensures world.calls[c] == Filling(rest, Entries(ids + [id], done + [req]), None, wait)
      ensures Msgs(Entries(ids + [id], done + [req])) == Msgs(Entries(ids, done)) + [RequestMsg(id, req)]
    {
      ghost var now := View();
      id := DrawAmongOthers(c, before, between);
      ExtendsOn(first, now, View());
      now := View();
      BatchInsertEntry(c);
      ExtendsOn(first, now, View());
      EntriesMore(ids, done, id, req);
    }

    /** The loop of `send_batch_msg`: other tasks go on drawing ids while it runs. */
    method RecordAll(c: CallId, reqs: seq<Request>, wait: bool, during: seq<(Others, Others)>)
      returns (ids: seq<usize>, msgs: seq<JsonRpcMsg>)
      requires Valid() && c in world.calls && lock == Some(c)
      requires world.calls[c] == Filling(reqs, [], None, wait)
      modifies this
      ensures Valid() && Extends(old(View()), View())
      ensures |ids| == |reqs| && msgs == Msgs(Entries(ids, reqs))
      ensures c in world.calls && lock == Some(c)
      ensures world.calls[c] == Filling([], Entries(ids, reqs), None, wait)
    {
      ghost var before := View();
      ids, msgs := [], [];
      var rest := reqs;
      ghost var done: seq<Request> := [];
      assert Entries([], []) == [];
      while rest != []
        invariant reqs == done + rest && |ids| == |done|
        invariant Valid() && Extends(before, View()) && c in world.calls && lock == Some(c)
        invariant world.calls[c] == Filling(rest, Entries(ids, done), None, wait)
        invariant msgs == Msgs(Entries(ids, done))
        decreases |rest|
      {
        var others := if |ids| < |during| then during[|ids|] else ([], []);
        var req := rest[0];
        rest := rest[1..];
        var id := BatchOne(c, done, ids, req, rest, wait, others.0, others.1, before);
        done := done + [req];
        ids := ids + [id];
        msgs := msgs + [RequestMsg(id, req)];
      }
      assert done == reqs;
    }

    /** The first part of `send_batch_msg`, which holds the lock throughout. */
    method RecordBatch(c: CallId, reqs: seq<Request>, wait: bool, during: seq<(Others, Others)>)
      returns (ids: seq<usize>, msgs: seq<JsonRpcMsg>)
      requires Valid() && c !in world.calls && lock == None
      modifies this
      ensures Valid() && Extends(old(View()), View())
      ensures |ids| == |reqs| && msgs == Msgs(Entries(ids, reqs))
      ensures c in world.calls && world.calls[c] == Unlocked(Filling([], Entries(ids, reqs), None, wait))
    {
      ghost var before := View();
      LockForBatch(c, reqs, wait);
      ghost var now := View();
      ids, msgs := RecordAll(c, reqs, wait, during);
      ExtendsOn(before, now, View());
      now := View();
      UnlockAfterBatch(c);
      ExtendsOn(before, now, View());
    }

    method DeliverBatch(c: CallId, msgs: seq<JsonRpcMsg>, meanwhile: Others, polls: seq<Others>) returns (r: SendResult)
      requires Valid() && c in world.calls && world.calls[c].Ready?
      requires world.calls[c].sub.batch && world.calls[c].sub.items != [] && msgs == Msgs(world.calls[c].sub.items)
      modifies this
      ensures Valid() && Extends(old(View()), View())
      ensures c in world.calls
      ensures world.calls[c] == Returned(old(world.calls[c]).sub, old(world.calls[c]).waited, r)
      ensures InBound(View()) && world.calls[c].waited && r == Sent ==> ShownWhole(View(), msgs)
      ensures r == RecvTimeout ==> GaveUp(old(View()), View(), c, polls)
    {
      ghost var before := View();
      Interleave(c, meanwhile);
      ghost var now := View();
      r := Deliver(c, SendBatch(msgs), polls);
      ExtendsOn(before, now, View());
      if r == RecvTimeout {
        GaveUpSince(before, now, View(), c, polls);
      }
    }

    /** The part of `send_batch_msg` after the lock on the inventory is there. */
    method RecordAndDeliver(c: CallId, reqs: seq<Request>, wait: bool, sends: BatchSchedule)
      returns (ids: seq<usize>, r: SendResult)
      requires Valid() && c !in world.calls && lock == None
      modifies this
      ensures Valid() && Extends(old(View()), View()) && BatchReturned(View(), c, reqs, wait, ids, r)
      ensures InBound(View()) && wait && reqs != [] && r == Sent ==> ShownWhole(View(), Msgs(Entries(ids, reqs)))
      ensures r == RecvTimeout ==> GaveUp(old(View()), View(), c, sends.replyPolls)
    {
      ghost var before := View();
      var msgs;
      ids, msgs := RecordBatch(c, reqs, wait, sends.during);
      r := Sent;
      if msgs != [] {
        ghost var now := View();
        r := DeliverBatch(c, msgs, sends.meanwhile, sends.replyPolls);
        ExtendsOn(before, now, View());
        if r == RecvTimeout {
          GaveUpSince(before, now, View(), c, sends.replyPolls);
        }
      }
    }

    /** `send_batch_msg`. */
    method SendBatchMsg(c: CallId, reqs: seq<Request>, wait: bool, sends: BatchSchedule) returns (r: Sending)
      requires Valid() && c !in world.calls
      modifies this
      ensures Valid() && Extends(old(View()), View())
      // It is suspended only in front of a lock that somebody holds.
      ensures r.Suspended? ==> c !in world.calls && lock != None
      ensures r.Sending? ==> BatchReturned(View(), c, reqs, wait, r.ids, r.result)
      // The ids are distinct, drawn by this call in the order of the requests, and
      // stand for them in the record, whatever the other tasks drew in between.
      ensures r.Sending? && InBound(View()) ==>
        RecordedInOrder(View(), c, r.ids, reqs) && DrawnSince(old(View()), r.ids)
      // With an acknowledgement asked for, success means that all of them are on one wire.
      ensures InBound(View()) && wait && reqs != [] && r.Sending? && r.result == Sent ==>
        ShownWhole(View(), Msgs(Entries(r.ids, reqs)))
      // It waits or gives up only when the schedule has been used up.
      ensures r.Suspended? ==> LockedOut(old(View()), View(), c, sends.lockPolls)
      ensures r.Sending? && r.result == RecvTimeout ==> GaveUp(old(View()), View(), c, sends.replyPolls)
    {
      ghost var before := View();
      var free := AwaitLock(c, sends.lockPolls);
      if !free {
        return Suspended;
      }
      ghost var now := View();
      var ids, result := RecordAndDeliver(c, reqs, wait, sends);
      ExtendsOn(before, now, View());
      RecordedAtEnd(before, View(), c, ids, reqs);
      if result == RecvTimeout {
        GaveUpSince(before, now, View(), c, sends.replyPolls);
      }
      r := Sending(ids, result);
    }

    // ----- the receiver and the sender tasks

    /** One line: look-up, reading, publication and removal in one go. */
    method HandleLine(k: nat, line: Line)
      requires Valid() && k < |world.conns| && world.conns[k].receiver == Reading
      requires DecodeLine(line).Some? && DecodeLine(line).value.Response? ==> lock == None
      modifies this
      ensures Valid() && View() == Apply(old(View()), ReceiveLine(k, line))
    {
      ReachedStep(View(), ReceiveLine(k, line));
      Dispatch(k, line);
    }

    method Dispatch(k: nat, line: Line)
      requires k < |world.conns|
      modifies this
      ensures View() == Receive(old(View()), k, line, Effect(old(inventory), line))
    {
      ghost var s := View();
      world := world.(received := world.received + [line]);
      var msg := DecodeLine(line);
      if msg.Some? && msg.value.Response? {
        HandleResponse(k, line, msg.value, s);
      } else if msg.Some? && msg.value.Notification? {
        HandleNotification(msg.value);
      }
    }

    method HandleNotification(msg: JsonRpcMsg)
      requires msg.Notification?
      modifies this`notifs
      ensures var notice := ToNotification(msg);
        notifs == if notice.Some? then old(notifs) + [Notified(notice.value)] else old(notifs)
    {
      var notice := ToNotification(msg);
      if notice.Some? {
        notifs := notifs + [Notified(notice.value)];
      }
    }

    /** `s` is the state before the line was put on record. */
    method HandleResponse(k: nat, line: Line, msg: JsonRpcMsg, ghost s: State)
      requires msg.Response? && k < |s.conns| && View() == s.(received := s.received + [line])
      modifies this
      ensures View() == Receive(s, k, line, ResponseEffect(s.inventory, msg))
    {
      if msg.id in inventory {
        var published: Option<Response> := None;
        var reading := ToResponse(msg, inventory[msg.id]);
        match reading {
          case Panicked =>
            world := world.(conns := WithReceiver(world.conns, k, Crashed));
            return;
          case Rejected =>
          case Typed(response) =>
            if response != NoResult {
              published := Some(response);
            }
        }
        Retire(msg.id, published);
      }
    }

    /** Publication and removal. */
    method Retire(id: usize, published: Option<Response>)
      requires world.received != []
      modifies this
      ensures View() == old(View()).(inventory := old(inventory) - {id},
                                     notifs := old(notifs) + AnswerFor(id, published),
                                     retired := old(world.retired)[id := Retirement(|old(world.received)| - 1, published, |old(notifs)|)])
    {
      var at := |notifs|;
      if published.Some? {
        notifs := notifs + [Answered(id, published.value)];
      }
      inventory := inventory - {id};
      world := world.(retired := world.retired[id := Retirement(|world.received| - 1, published, at)]);
    }

    /** The sender takes the oldest message. */
    method TakeMessage(k: nat)
      requires Valid() && k < |world.conns| && world.conns[k].sender == Draining && queue != []
      modifies this
      ensures Valid() && View() == Apply(old(View()), SenderTake(k))
    {
      ReachedStep(View(), SenderTake(k));
      var m := queue[0];
      queue := queue[1..];
      world := world.(conns := WithSender(world.conns, k, Holding(m)), taken := world.taken + [m]);
    }

    /** The sender fills its buffer and writes all of it. */
    method WriteHeld(k: nat)
      requires Valid() && HoldsRequests(View(), k)
      modifies this
      ensures Valid() && View() == Apply(old(View()), SenderWrite(k))
    {
      ReachedStep(View(), SenderWrite(k));
      var m, conn := world.conns[k].sender.message, world.conns[k];
      var ms := Payload(m.event);
      var bytes := FillBuffer(m.event);
      PutConn(k, Conn(conn.wire + bytes, Draining, conn.receiver, conn.sent + ms, conn.tail),
              Acknowledged(world.acks, m, Wrote(k, |conn.sent|)), world.failed);
    }

    /** The write fails after `n` characters. */
    method WriteHeldInPart(k: nat, n: nat)
      requires Valid() && HoldsRequests(View(), k) && n < |WireText(Payload(world.conns[k].sender.message.event))|
      modifies this
      ensures Valid() && View() == Apply(old(View()), SenderFail(k, n))
    {
      ReachedStep(View(), SenderFail(k, n));
      var m := world.conns[k].sender.message;
      var bytes := FillBuffer(m.event);
      PutCut(k, Payload(m.event), bytes[..n], n);
    }

    method PutCut(k: nat, ms: seq<JsonRpcMsg>, bytes: string, n: nat)
      requires k < |world.conns| && world.conns[k].sender.Holding? && AllRequests(ms)
      requires n < |WireText(ms)| && bytes == WireText(ms)[..n]
      modifies this`world
      ensures View() == WritePart(old(View()), k, ms, n)
    {
      var m := world.conns[k].sender.message;
      var cut := CutOff(world.conns[k], ms, bytes, n);
      PutConn(k, cut, Acknowledged(world.acks, m, NotWritten), world.failed[k := LastTaken(world)]);
    }

    /** The connection of which `bytes` have been the last to reach the wire. */
    static method CutOff(conn: Conn, ms: seq<JsonRpcMsg>, bytes: string, n: nat) returns (cut: Conn)
      requires AllRequests(ms) && n < |WireText(ms)| && bytes == WireText(ms)[..n]
      ensures cut == CutShort(conn, ms, n)
    {
      cut := Conn(conn.wire + bytes, Ending(true), conn.receiver,
                  conn.sent + ms[..WholeLines(Texts(ms), n)], Remainder(Texts(ms), n));
    }

    method PutConn(k: nat, conn: Conn, acks: map<CallId, Ack>, failed: map<nat, nat>)
      requires k < |world.conns|
      modifies this`world
      ensures View() == old(View()).(conns := old(world.conns)[k := conn], acks := acks, failed := failed)
    {
      world := world.(conns := world.conns[k := conn], acks := acks, failed := failed);
    }

    // ----- waiting for responses

    /** One more poll of the channel: `more` is `seen` with the length that the log has now. */
    method PollChannel(c: CallId, polls: seq<Others>, start: nat, seen: seq<nat>, ghost before: State)
      returns (more: seq<nat>)
      requires Valid() && Interferes(before, View(), c) && |seen| < |polls|
      requires SawPolls(before, View(), c, polls, seen) && Polled(notifs, start, seen)
      modifies this
      ensures Valid() && Interferes(before, View(), c) && old(notifs) <= notifs && more == seen + [|notifs|]
      ensures SawPolls(before, View(), c, polls, more) && Polled(notifs, start, more)
    {
      PollOnce(c, polls, |seen|, before);
      more := seen + [|notifs|];
      SawOneMore(before, View(), c, polls, seen);
      PolledMore(old(notifs), notifs, start, seen);
    }

    /** One turn of the loop of `get_response`. */
    method ReceiveOnce(c: CallId, id: usize, polls: seq<Others>, start: nat, seen: seq<nat>, cursor: nat,
                       ghost before: State)
      returns (w: Wait, more: seq<nat>)
      requires Valid() && |seen| < |polls| && start == |before.notifs|
      requires ScannedTo(before, View(), c, id, polls, seen, Pending(cursor))
      modifies this
      ensures Valid() && |more| == |seen| + 1 && ScannedTo(before, View(), c, id, polls, more, w)
    {
      more := PollChannel(c, polls, start, seen, before);
      ScanMore(old(notifs), notifs, start, id, seen);
      if |notifs| > cursor + WINDOW {
        return Failed, more;
      }
      w := Pending(cursor);
      if cursor < |notifs| {
        var notification := notifs[cursor];
        if notification.Answered? && notification.id == id {
          w := Got(notification.response, cursor);
        } else {
          w := Pending(cursor + 1);
        }
      }
    }

    /** `get_response`: the waiter subscribes now, and is resumed once for each entry of
        the schedule. A result that is still pending means that the time ran out. What it
        sees is the log at the given polls, and it makes no more of them than it needs. */
    method GetResponse(c: CallId, id: usize, polls: seq<Others>) returns (w: Wait, start: nat, seen: seq<nat>)
      requires Valid()
      modifies this
      ensures Valid() && start == |old(notifs)| && ScannedTo(old(View()), View(), c, id, polls, seen, w)
      ensures w.Pending? ==> |seen| == |polls|
    {
      ghost var before := View();
      start, seen := |notifs|, [];
      w := Pending(start);
      while |seen| < |polls| && w.Pending?
        invariant Valid() && |seen| <= |polls| && ScannedTo(before, View(), c, id, polls, seen, w)
        decreases |polls| - |seen|
      {
        w, seen := ReceiveOnce(c, id, polls, start, seen, w.cursor, before);
      }
    }

    /** One turn of the loop of `get_batch_response`. */
    method ReceiveForBatch(c: CallId, ids: set<usize>, polls: seq<Others>, start: nat, seen: seq<nat>, cursor: nat,
                           missing: set<usize>, responses: seq<Item>, ghost before: State)
      returns (g: Gathering, more: seq<nat>)
      requires Valid() && |seen| < |polls| && start == |before.notifs|
      requires GatheredTo(before, View(), c, ids, polls, seen, Collecting(cursor, missing, responses))
      modifies this
      ensures Valid() && |more| == |seen| + 1 && GatheredTo(before, View(), c, ids, polls, more, g)
    {
      more := PollChannel(c, polls, start, seen, before);
      GatherMore(old(notifs), notifs, start, ids, seen);
      if |notifs| > cursor + WINDOW {
        return Cut(responses), more;
      }
      g := Collecting(cursor, missing, responses);
      if cursor < |notifs| {
        var notification := notifs[cursor];
        g := Collecting(cursor + 1, missing, responses);
        if notification.Answered? {
          var got := responses;
          if notification.id in missing {
            got := got + [Item(notification.id, notification.response)];
          }
          var rest := missing - {notification.id};
          g := if rest == {} then Complete(got) else Collecting(cursor + 1, rest, got);
        }
      }
    }

    /** `get_batch_response`. */
    method GetBatchResponse(c: CallId, ids: seq<usize>, polls: seq<Others>)
      returns (g: Gathering, start: nat, seen: seq<nat>)
      requires Valid()
      modifies this
      ensures Valid() && start == |old(notifs)| && GatheredTo(old(View()), View(), c, IdSet(ids), polls, seen, g)
      ensures g.Collecting? ==> |seen| == |polls|
    {
      ghost var before := View();
      var wanted := IdSet(ids);
      start, seen := |notifs|, [];
      g := Collecting(start, wanted, []);
      while |seen| < |polls| && g.Collecting?
        invariant Valid() && |seen| <= |polls| && GatheredTo(before, View(), c, wanted, polls, seen, g)
        decreases |polls| - |seen|
      {
        g, seen := ReceiveForBatch(c, wanted, polls, start, seen, g.cursor, g.missing, g.got, before);
      }
    }

    // ----- calls

    /** `call`. */
    method Call(c: CallId, req: Request, wait: bool, sends: SendSchedule, polls: seq<Others>)
      returns (r: CallOutcome, id: usize, start: nat, seen: seq<nat>)
      requires Valid() && c !in world.calls
      modifies this
      ensures Valid() && Extends(old(View()), View())
      // The call is over, with what its own request and the polls of the channel since
      // then have led to, or else it waits because the schedule has ended.
      ensures r != CallOutcome.NoAnswer ==> Concluded(View(), c, req, wait, r, id, start, seen)
      ensures r == CallOutcome.NoAnswer ==> Unanswered(View(), c, req, wait, id, start, seen, |polls|)
      ensures |old(notifs)| <= start
      ensures InBound(View()) && r != CallOutcome.NoAnswer ==> OwnAnswer(old(View()), View(), c, req, r, id)
      // What the waiter saw is the log at the given polls, from its subscription after the send.
      ensures Scheduled(old(View()), View(), c, req, wait, r, id, start, seen, sends, polls)
    {
      ghost var before := View();
      var sent := SendMsg(c, req, wait, sends.lockPolls, sends.meanwhile, sends.replyPolls);
      id, start, seen := 0, |notifs|, [];
      if sent.Suspended? {
        return NoAnswer, id, start, seen;
      }
      id := sent.ids[0];
      if sent.result != Sent {
        r := NotSent(sent.result);
      } else {
        ghost var now := View();
        r, start, seen := AwaitAnswer(c, req, wait, id, polls);
        ExtendsOn(before, now, View());
        assert WaitedSince(before, View(), c, req, wait, id, start, polls, seen);
      }
      if !r.NoAnswer? {
        AnswerIsOwn(before, View(), c, req, wait, r, id, start, seen);
      }
    }

    /** The second half of `call`. */
    method AwaitAnswer(c: CallId, req: Request, wait: bool, id: usize, polls: seq<Others>)
      returns (r: CallOutcome, start: nat, seen: seq<nat>)
      requires Valid() && ReturnedWith(View(), c, req, wait, id, Sent)
      modifies this
      ensures Valid() && Extends(old(View()), View()) && start == |old(notifs)|
      ensures r.Received? || r.NoAnswer?
      ensures r.Received? ==> Concluded(View(), c, req, wait, r, id, start, seen)
      ensures r.NoAnswer? ==> Unanswered(View(), c, req, wait, id, start, seen, |polls|)
      ensures WaitedFrom(old(View()), View(), c, req, wait, id, start, polls, seen)
      ensures ReturnedWith(View(), c, req, wait, id, Sent)
    {
      var w;
      w, start, seen := GetResponse(c, id, polls);
      r := if w.Pending? then NoAnswer else Received(if w.Got? then Some(w.response) else None);
    }

    /** A typed wrapper: `call`, and a match on what it brings. */
    method CallTyped(c: CallId, req: Request, wait: bool, sends: SendSchedule, polls: seq<Others>)
      returns (r: WrapperOutcome, id: usize, start: nat, seen: seq<nat>)
      requires Valid() && c !in world.calls
      modifies this
      ensures Valid() && Extends(old(View()), View()) && |old(notifs)| <= start
      ensures r != WrapperOutcome.TimedOut ==> Unwrapped(View(), c, req, wait, r, id, start, seen)
      ensures r == WrapperOutcome.TimedOut ==> Unanswered(View(), c, req, wait, id, start, seen, |polls|)
      ensures InBound(View()) && r != WrapperOutcome.TimedOut ==> DrawnSince(old(View()), [id])
      ensures Scheduled(old(View()), View(), c, req, wait, OutcomeOf(r), id, start, seen, sends, polls)
    {
      var outcome;
      outcome, id, start, seen := Call(c, req, wait, sends, polls);
      match outcome
      case NoAnswer => r := WrapperOutcome.TimedOut;
      case NotSent(result) => r := WrapperOutcome.Refused(result);
      case Received(got) =>
        UnwrapsWhatIsGot(View(), c, req, wait, got, id, start, seen);
        r := WrapperOutcome.Matched(Unwrap(req, got));
    }

    /** `batch_get_history`. */
    method BatchGetHistory(c: CallId, scripts: seq<ScriptHash>, wait: bool, sends: BatchSchedule, polls: seq<Others>)
      returns (r: HistoryOutcome, ids: seq<usize>, g: Gathering, start: nat, seen: seq<nat>)
      requires Valid() && c !in world.calls
      modifies this
      ensures Valid() && Extends(old(View()), View()) && |old(notifs)| <= start && Polled(notifs, start, seen)
      // The batch was refused with its result, or the schedule ended while it was waiting
      // for the lock or for responses, or it was sent and the collection is over.
      ensures r.HistoryRefused? ==>
        r.result != Sent && BatchReturned(View(), c, HistoryRequests(scripts), wait, ids, r.result)
      ensures r.Histories? || r.InvalidHistory? || (r.HistoryTimedOut? && c in world.calls) ==>
        && BatchReturned(View(), c, HistoryRequests(scripts), wait, ids, Sent)
        && g == Gather(notifs, start, IdSet(ids), seen)
        && (g.Collecting? <==> r.HistoryTimedOut?)
      ensures r.HistoryTimedOut? ==> if c in world.calls then |seen| == |polls| else lock != None
      // What the waiter saw is the log at the given polls, from its subscription after the send.
      ensures r.Histories? || r.InvalidHistory? || (r.HistoryTimedOut? && c in world.calls) ==>
        BatchWaitedSince(old(View()), View(), c, HistoryRequests(scripts), wait, ids, start, polls, seen)
      ensures r.HistoryTimedOut? && c !in world.calls ==> LockedOut(old(View()), View(), c, sends.lockPolls)
      ensures r == HistoryRefused(RecvTimeout) ==> GaveUp(old(View()), View(), c, sends.replyPolls)
      // The histories are those collected, in the order of arrival. Each was read from a
      // line under one of the ids, against the script of that id. There is one for every
      // script exactly when the collection is complete, and not cut off by the channel.
      ensures r.Histories? ==> HistoriesOf(Collected(g), r.histories)
      ensures InBound(View()) && r.Histories? ==>
        |ids| == |scripts| && forall i | 0 <= i < |Collected(g)| :: HistoryFor(View(), ids, scripts, Collected(g)[i])
      ensures InBound(View()) && r.Histories? && g.Complete? ==> |r.histories| == |scripts|
      ensures InBound(View()) && r.Histories? && scripts != [] ==> (|r.histories| == |scripts| <==> g.Complete?)
      // The error for a response of another kind never occurs.
      ensures InBound(View()) ==> r != InvalidHistory
    {
      ghost var before := View();
      var sent := SendBatchMsg(c, HistoryRequests(scripts), wait, sends);
      ids, g, start, seen := [], Collecting(0, {}, []), |notifs|, [];
      if sent.Suspended? {
        return HistoryTimedOut, ids, g, start, seen;
      }
      ids := sent.ids;
      if sent.result != Sent {
        return HistoryRefused(sent.result), ids, g, start, seen;
      }
      ghost var now := View();
      r, g, start, seen := AwaitHistories(c, scripts, wait, ids, polls);
      ExtendsOn(before, now, View());
    }

    /** The second half of `batch_get_history`. */
    method AwaitHistories(c: CallId, scripts: seq<ScriptHash>, wait: bool, ids: seq<usize>, polls: seq<Others>)
      returns (r: HistoryOutcome, g: Gathering, start: nat, seen: seq<nat>)
      requires Valid() && BatchReturned(View(), c, HistoryRequests(scripts), wait, ids, Sent)
      modifies this
      ensures Valid() && Extends(old(View()), View()) && start == |old(notifs)| && Polled(notifs, start, seen)
      ensures BatchReturned(View(), c, HistoryRequests(scripts), wait, ids, Sent)
      ensures BatchWaitedFrom(old(View()), View(), c, HistoryRequests(scripts), wait, ids, start, polls, seen)
      ensures !r.HistoryRefused? && g == Gather(notifs, start, IdSet(ids), seen)
      ensures g.Collecting? <==> r.HistoryTimedOut?
      ensures r.HistoryTimedOut? ==> |seen| == |polls|
      ensures r.Histories? ==> HistoriesOf(Collected(g), r.histories)
      ensures InBound(View()) && r.Histories? ==>
        |ids| == |scripts| && forall i | 0 <= i < |Collected(g)| :: HistoryFor(View(), ids, scripts, Collected(g)[i])
      ensures InBound(View()) && r.Histories? && g.Complete? ==> |r.histories| == |scripts|
      ensures InBound(View()) && r.Histories? && g.Cut? && scripts != [] ==> |r.histories| < |scripts|
      ensures InBound(View()) ==> r != InvalidHistory
    {
      g, start, seen := GetBatchResponse(c, ids, polls);
      if g.Collecting? {
        return HistoryTimedOut, g, start, seen;
      }
      if InBound(View()) {
        CollectedAreHistories(View(), c, ids, scripts, start, seen);
      }
      r := TakeHistories(Collected(g));
    }

    /** The loop at the end of `batch_get_history`. */
    static method TakeHistories(got: seq<Item>) returns (r: HistoryOutcome)
      ensures r.Histories? || r.InvalidHistory?
      ensures r.Histories? <==> forall i | 0 <= i < |got| :: got[i].response.History?
      ensures r.Histories? ==> HistoriesOf(got, r.histories)
    {
      var histories: seq<seq<HistoryEntry>> := [];
      var i := 0;
      while i < |got|
        invariant 0 <= i <= |got|
        invariant HistoriesOf(got[..i], histories)
      {
        if !got[i].response.History? {
          return InvalidHistory;
        }
        histories := histories + [got[i].response.entries];
        i := i + 1;
      }
      assert got[..i] == got;
      r := Histories(histories);
    }

    // ----- subscriptions

    /** `block_headers_subscribe`: the flag is set first, whatever becomes of the call. */
    method BlockHeadersSubscribe(subs: ActiveSubscriptions, c: CallId, wait: bool, sends: SendSchedule,
                                 polls: seq<Others>)
      returns (r: WrapperOutcome, id: usize, start: nat, seen: seq<nat>)
      requires Valid() && subs.Valid() && c !in world.calls
      modifies this, subs`headers
      ensures Valid() && subs.Valid() && subs.headers && Extends(old(View()), View())
      ensures r != WrapperOutcome.TimedOut ==> Unwrapped(View(), c, BlockHeaderSubscribe, wait, r, id, start, seen)
      ensures r == WrapperOutcome.TimedOut ==>
        Unanswered(View(), c, BlockHeaderSubscribe, wait, id, start, seen, |polls|)
      ensures Scheduled(old(View()), View(), c, BlockHeaderSubscribe, wait, OutcomeOf(r), id, start, seen, sends, polls)
      ensures |old(notifs)| <= start
    {
      subs.SetHeaders(true);
      r, id, start, seen := CallTyped(c, BlockHeaderSubscribe, wait, sends, polls);
    }

    /** `script_subscribe`: the script is active from before its request is sent, and
        stays so whatever becomes of the call. */
    method SubscribeScript(subs: ActiveSubscriptions, c: CallId, script: ScriptHash, wait: bool, sends: SendSchedule,
                           polls: seq<Others>)
      returns (s: SubscribeResult, r: WrapperOutcome, id: usize, start: nat, seen: seq<nat>)
      requires Valid() && subs.Valid() && c !in world.calls
      modifies this, subs`scripts, subs`history
      ensures Valid() && subs.Valid() && subs.scripts == old(subs.scripts) + {script}
      ensures s == if script in old(subs.scripts) then AlreadySubscribed(script) else Subscribed
      ensures s != Subscribed ==> View() == old(View())
      ensures s == Subscribed && r != WrapperOutcome.TimedOut ==>
        Unwrapped(View(), c, ScriptSubscribe(script), wait, r, id, start, seen)
      ensures s == Subscribed && r == WrapperOutcome.TimedOut ==>
        Unanswered(View(), c, ScriptSubscribe(script), wait, id, start, seen, |polls|)
      ensures s == Subscribed ==>
        Scheduled(old(View()), View(), c, ScriptSubscribe(script), wait, OutcomeOf(r), id, start, seen, sends, polls)
      ensures s == Subscribed ==> Extends(old(View()), View()) && |old(notifs)| <= start
    {
      r, id, start, seen := WrapperOutcome.TimedOut, 0, 0, [];
      s := subs.Insert(script);
      if s == Subscribed {
        r, id, start, seen := CallTyped(c, ScriptSubscribe(script), wait, sends, polls);
      }
    }

    /** `script_unsubscribe`. */
    method UnsubscribeScript(subs: ActiveSubscriptions, c: CallId, script: ScriptHash, wait: bool,
                             sends: SendSchedule, polls: seq<Others>)
      returns (s: SubscribeResult, r: WrapperOutcome, id: usize, start: nat, seen: seq<nat>)
      requires Valid() && subs.Valid() && c !in world.calls
      modifies this, subs`scripts, subs`history
      ensures Valid() && subs.Valid() && subs.scripts == old(subs.scripts) - {script}
      ensures s == if script in old(subs.scripts) then Subscribed else NotSubscribed(script)
      ensures s != Subscribed ==> View() == old(View())
      ensures s == Subscribed && r != WrapperOutcome.TimedOut ==>
        Unwrapped(View(), c, ScriptUnsubscribe(script), wait, r, id, start, seen)
      ensures s == Subscribed && r == WrapperOutcome.TimedOut ==>
        Unanswered(View(), c, ScriptUnsubscribe(script), wait, id, start, seen, |polls|)
      ensures s == Subscribed ==>
        Scheduled(old(View()), View(), c, ScriptUnsubscribe(script), wait, OutcomeOf(r), id, start, seen, sends, polls)
      ensures s == Subscribed ==> Extends(old(View()), View()) && |old(notifs)| <= start
    {
      r, id, start, seen := WrapperOutcome.TimedOut, 0, 0, [];
      s := subs.Remove(script);
      if s == Subscribed {
        r, id, start, seen := CallTyped(c, ScriptUnsubscribe(script), wait, sends, polls);
      }
    }

    /** `batch_script_subscribe`. On a conflict nothing is sent, although the scripts
        before it have been added to the active set. */
    method BatchScriptSubscribe(subs: ActiveSubscriptions, c: CallId, scripts: seq<ScriptHash>, wait: bool,
                                sends: BatchSchedule)
      returns (r: SubscribeResult, sent: Sending)
      requires Valid() && subs.Valid() && c !in world.calls
      modifies this, subs`scripts, subs`history
      ensures Valid() && subs.Valid()
      ensures r == Subscribed <==> NoConflict(old(subs.scripts), scripts)
      ensures r == Subscribed ==> subs.scripts == old(subs.scripts) + Elements(scripts)
      ensures r == Subscribed ==> Extends(old(View()), View())
      ensures r == Subscribed && sent.Suspended? ==>
        c !in world.calls && LockedOut(old(View()), View(), c, sends.lockPolls)
      ensures r == Subscribed && sent.Sending? && sent.result == RecvTimeout ==>
        GaveUp(old(View()), View(), c, sends.replyPolls)
      ensures r == Subscribed && sent.Sending? ==>
        BatchReturned(View(), c, SubscribeRequests(scripts), wait, sent.ids, sent.result)
      ensures r == Subscribed && sent.Sending? && InBound(View()) ==>
        RecordedInOrder(View(), c, sent.ids, SubscribeRequests(scripts))
      ensures r != Subscribed ==> View() == old(View())
      ensures r != Subscribed ==> StoppedByConflict(old(subs.scripts), scripts, subs.scripts, r)
    {
      sent := Suspended;
      r := subs.InsertAll(scripts);
      if r != Subscribed {
        return;
      }
      sent := SendBatchMsg(c, SubscribeRequests(scripts), wait, sends);
    }

    /** A name for a new call. */
    method FreshCall() returns (c: CallId)
      ensures c !in world.calls
    {
      c := 0;
      var rest := world.calls.Keys;
      while rest != {}
        invariant rest <= world.calls.Keys && forall d | d in world.calls && d !in rest :: d < c
        decreases rest
      {
        var d :| d in rest;
        rest := rest - {d};
        c := if d >= c then d + 1 else c;
      }
    }

    /** The batch for all of the active scripts. */
    method AskForScripts(subs: ActiveSubscriptions, order: seq<ScriptHash>, c: CallId, sends: BatchSchedule)
      returns (scripts: seq<ScriptHash>, sent: Sending)
      requires Valid() && subs.Valid() && c !in world.calls
      modifies this
      ensures Valid() && Extends(old(View()), View())
      ensures forall s :: s in scripts <==> s in subs.scripts
      ensures forall i, j | 0 <= i < j < |scripts| :: scripts[i] != scripts[j]
      ensures sent.Suspended? ==> c !in world.calls && lock != None
      ensures sent.Sending? ==> BatchReturned(View(), c, SubscribeRequests(scripts), false, sent.ids, sent.result)
      ensures sent.Sending? && InBound(View()) ==>
        RecordedInOrder(View(), c, sent.ids, SubscribeRequests(scripts)) && DrawnSince(old(View()), sent.ids)
    {
      scripts := subs.Snapshot(order);
      sent := SendBatchMsg(c, SubscribeRequests(scripts), false, sends);
    }

    /** What `try_connect` does once it is connected: ask for the headers again if they
        are subscribed to, wait for that, and then ask for every active script in one
        batch. `order` is the order in which the hash set yields its elements. The
        headers are asked for by the call `h`, the scripts by the call `c`. */
    method Resubscribe(subs: ActiveSubscriptions, order: seq<ScriptHash>,
                       headerSends: SendSchedule, headerPolls: seq<Others>, sends: BatchSchedule)
      returns (h: CallId, headers: CallOutcome, hid: usize, start: nat, seen: seq<nat>,
               scripts: seq<ScriptHash>, c: CallId, sent: Sending)
      requires Valid() && subs.Valid()
      modifies this
      ensures Valid() && Extends(old(View()), View())
      ensures h !in old(world.calls) && c !in old(world.calls)
      // The batch has one request for each active script, and only those.
      ensures sent.Sending? ==> BatchReturned(View(), c, SubscribeRequests(scripts), false, sent.ids, sent.result)
      ensures sent.Sending? && InBound(View()) ==>
        RecordedInOrder(View(), c, sent.ids, SubscribeRequests(scripts)) && DrawnSince(old(View()), sent.ids)
      ensures sent.Sending? ==> (forall s :: s in scripts <==> s in subs.scripts)
      ensures sent.Sending? ==> (forall i, j | 0 <= i < j < |scripts| :: scripts[i] != scripts[j])
      // With the headers subscribed, their request came to its end before: its id is
      // lower than those of the batch, and its message precedes the batch in the queue.
      ensures subs.headers && sent.Sending? ==>
        CameFirst(old(View()), View(), h, headers, hid, start, seen, headerSends, headerPolls, c, sent.ids)
      // No batch is sent only when the header request still waits, or the lock is held.
      ensures sent.Suspended? ==>
        || (c !in world.calls && lock != None)
        || (subs.headers && Unanswered(View(), h, BlockHeaderSubscribe, false, hid, start, seen, |headerPolls|)
            && Scheduled(old(View()), View(), h, BlockHeaderSubscribe, false, headers, hid, start, seen, headerSends,
                         headerPolls))
    {
      ghost var before := View();
      scripts, sent := [], Suspended;
      headers, hid, start, seen := CallOutcome.NoAnswer, 0, |notifs|, [];
      h := FreshCall();
      c := h;
      if subs.headers {
        headers, hid, start, seen := Call(h, BlockHeaderSubscribe, false, headerSends, headerPolls);
        if headers.NoAnswer? {
          return;
        }
        c := FreshCall();
      }
      ghost var now := View();
      scripts, sent := AskForScripts(subs, order, c, sends);
      ExtendsOn(before, now, View());
      if subs.headers && sent.Sending? {
        HeadersFirst(before, now, View(), h, headers, hid, start, seen, headerSends, headerPolls, c, sent.ids);
      }
      if sent.Sending? && InBound(View()) {
        assert DrawnSince(before, sent.ids);
      }
    }
  }
}
