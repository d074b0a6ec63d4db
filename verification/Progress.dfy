/** What can always still happen: nobody holds the inventory lock for good, a queued
    message can be delivered, and a response that follows the protocol reaches the
    waiter. Each result names the steps that lead there. */
module Progress {
  import opened Base
  import opened Messages
  import opened Responses
  import opened Framing
  import opened Machine
  import opened Frames
  import opened Ids
  import opened Queues
  import opened Transmission
  import opened Acknowledgements
  import opened Refinement
  import opened Growth
  import opened Agreement
  import opened Losses
  import opened Guarantees
  import opened Waiters
  import opened Calls
  import opened Server
  import opened Endings
  import opened Replies

  /** The steps can be taken one after the other from `s` and lead to `t`. */
  ghost predicate Path(s: State, steps: seq<Step>, t: State)
    decreases |steps|
  {
    if steps == [] then s == t else Enabled(s, steps[0]) && Path(Apply(s, steps[0]), steps[1..], t)
  }

  lemma FirstStep(s: State, step: Step, u: State, rest: seq<Step>, t: State)
    requires Enabled(s, step) && u == Apply(s, step) && Path(u, rest, t)
    ensures Path(s, [step] + rest, t)
  {
    assert ([step] + rest)[1..] == rest;
  }

  lemma {:induction false} PathOn(s: State, a: seq<Step>, u: State, b: seq<Step>, t: State)
    requires Path(s, a, u) && Path(u, b, t)
    ensures Path(s, a + b, t)
    decreases |a|
  {
    if a == [] {
      assert a + b == b;
    } else {
      PathOn(Apply(s, a[0]), a[1..], u, b, t);
      FirstStep(s, a[0], Apply(s, a[0]), a[1..] + b, t);
      assert a + b == [a[0]] + (a[1..] + b);
    }
  }

  lemma {:induction false} ReachedPath(s: State, steps: seq<Step>, t: State)
    requires Reached(s) && Path(s, steps, t)
    ensures Reached(t) && Extends(s, t)
    decreases |steps|
  {
    if steps != [] {
      ReachedStep(s, steps[0]);
      ReachedPath(Apply(s, steps[0]), steps[1..], t);
      ExtendsOn(s, Apply(s, steps[0]), t);
    }
  }

  // ----- the inventory lock

  ghost predicate OwnSteps(steps: seq<Step>, c: CallId) {
    forall i | 0 <= i < |steps| :: Own(steps[i], c)
  }

  /** How many steps a batch has to take before it releases the lock. */
  function StepsLeft(call: Call): nat
    requires call.Filling?
  {
    2 * |call.todo| + if call.drawn.Some? then 0 else 1
  }

  /** The next step of a batch that fills the inventory. */
  function NextStep(c: CallId, call: Call): Step
    requires call.Filling?
  {
    if call.drawn.Some? then BatchInsert(c) else if call.todo != [] then BatchDraw(c) else BatchUnlock(c)
  }

  /** A batch with a drawn id has a request left for it. */
  predicate BatchOk(call: Call) {
    call.Filling? && (call.drawn.Some? ==> call.todo != [])
  }

  lemma BatchMoves(s: State, c: CallId)
    requires c in s.calls && BatchOk(s.calls[c]) && s.lock == Some(c)
    ensures CallerEnabled(s, NextStep(c, s.calls[c]))
    ensures var t := ApplyCaller(s, NextStep(c, s.calls[c]));
      && c in t.calls
      && (t.lock == None || (t.lock == Some(c) && BatchOk(t.calls[c]) && StepsLeft(t.calls[c]) < StepsLeft(s.calls[c])))
  {
  }

  /** On every run: a filling batch that has drawn an id has a request left for it. */
  ghost predicate BatchesOk(s: State) {
    forall c | c in s.calls && s.calls[c].Filling? :: BatchOk(s.calls[c])
  }

  lemma CallerKeepsBatches(s: State, step: Step)
    requires BatchesOk(s) && CallerEnabled(s, step)
    ensures BatchesOk(ApplyCaller(s, step))
  {
    if step.TrySend? {
      OfferFrame(s, step.c, s.calls[step.c].sub.Event());
    }
  }

  lemma StepKeepsBatches(s: State, step: Step, t: State)
    requires BatchesOk(s) && Enabled(s, step) && t == Apply(s, step)
    ensures BatchesOk(t)
  {
    if step.Caller() {
      CallerKeepsBatches(s, step);
    } else if step.Sender() {
      SenderFrame(s, step);
    } else if step.Receiver() {
      ReceiverFrame(s, step);
    } else {
      ControlFrame(s, step);
    }
  }

  lemma {:induction false} RunKeepsBatches(states: seq<State>, steps: seq<Step>, i: nat)
    requires IsRun(states, steps) && i < |states|
    ensures BatchesOk(states[i])
  {
    if i > 0 {
      RunKeepsBatches(states, steps, i - 1);
      StepKeepsBatches(states[i - 1], steps[i - 1], states[i]);
    }
  }

  ghost predicate HoldsLock(s: State, c: CallId) {
    c in s.calls && BatchOk(s.calls[c]) && s.lock == Some(c)
  }

  lemma BatchStep(s: State, c: CallId) returns (step: Step, u: State)
    requires HoldsLock(s, c)
    ensures Enabled(s, step) && u == Apply(s, step) && Own(step, c)
    ensures u.lock == None || (HoldsLock(u, c) && StepsLeft(u.calls[c]) < StepsLeft(s.calls[c]))
  {
    step := NextStep(c, s.calls[c]);
    BatchMoves(s, c);
    u := ApplyCaller(s, step);
  }

  /** Wherever a batch holds the lock, its own next steps, which nothing can prevent, release it. */
  lemma {:induction false} LockIsReleased(s: State, c: CallId) returns (steps: seq<Step>, t: State)
    requires HoldsLock(s, c)
    ensures Path(s, steps, t) && OwnSteps(steps, c) && |steps| <= StepsLeft(s.calls[c]) && t.lock == None
    decreases StepsLeft(s.calls[c])
  {
    var step, u := BatchStep(s, c);
    if u.lock == None {
      steps, t := [], u;
    } else {
      steps, t := LockIsReleased(u, c);
    }
    FirstStep(s, step, u, steps, t);
    steps := [step] + steps;
  }

  /** At every moment of every run, if the inventory lock is held, its holder alone can
      release it, in two steps a request and one more. */
  lemma RunReleasesLock(states: seq<State>, steps: seq<Step>, i: nat) returns (more: seq<Step>, t: State)
    requires IsRun(states, steps) && i < |states| && states[i].lock.Some?
    ensures Path(states[i], more, t) && OwnSteps(more, states[i].lock.value) && t.lock == None
  {
    var s := states[i];
    ReachedAt(states, steps, i);
    ReachedIsLocked(s);
    RunKeepsBatches(states, steps, i);
    more, t := LockIsReleased(s, s.lock.value);
  }

  lemma ReachedAt(states: seq<State>, steps: seq<Step>, i: nat)
    requires IsRun(states, steps) && i < |states|
    ensures Reached(states[i])
  {
    assert IsRun(states[..i + 1], steps[..i]);
    assert states[..i + 1][|steps[..i]|] == states[i];
  }

  // ----- delivery

  predicate CarriesRequests(m: Message) {
    m.event.SendBatch? || (m.event.SendMsg? && m.event.msg.Request?)
  }

  /** What a caller enqueues can be written. */
  lemma CallsCarryRequests(s: State, m: Message)
    requires MessageOk(s, m) && m.origin.FromCall?
    ensures CarriesRequests(m)
  {
  }

  /** The sender `k` has taken `n` more messages and written them. */
  ghost predicate HasWritten(s: State, t: State, k: nat, n: nat) {
    && n <= |s.queue| && t.queue == s.queue[n..] && t.taken == s.taken + s.queue[..n]
    && SenderAt(t, k) == Draining && k < |t.conns|
    && t.calls == s.calls && t.failed == s.failed && t.issued == s.issued && t.enqueued == s.enqueued
  }

  lemma TakeFrame(s: State, k: nat)
    requires SenderEnabled(s, SenderTake(k))
    ensures var u := ApplySender(s, SenderTake(k));
      && u.queue == s.queue[1..] && u.taken == s.taken + [s.queue[0]] && SenderAt(u, k) == Holding(s.queue[0])
      && k < |u.conns| && u.failed == s.failed && SameCalls(s, u) && u.enqueued == s.enqueued
  {
  }

  lemma WriteOnFrame(s: State, k: nat, ms: seq<JsonRpcMsg>)
    requires k < |s.conns| && s.conns[k].sender.Holding? && AllRequests(ms)
    ensures var t := WriteAll(s, k, ms);
      && t.queue == s.queue && t.taken == s.taken && SenderAt(t, k) == Draining && k < |t.conns|
      && t.failed == s.failed && SameCalls(s, t) && t.enqueued == s.enqueued
  {
  }

  ghost predicate SenderSteps(steps: seq<Step>, k: nat) {
    forall i | 0 <= i < |steps| :: OfSender(steps[i], k)
  }

  ghost predicate Writes(s: State, steps: seq<Step>, t: State, k: nat, n: nat) {
    Path(s, steps, t) && SenderSteps(steps, k) && |steps| == 2 * n && HasWritten(s, t, k, n)
  }

  /** One message: two steps of the sender. */
  lemma WriteOne(s: State, k: nat) returns (two: seq<Step>, t: State)
    requires CanTake(s, k) && CarriesRequests(s.queue[0])
    ensures Writes(s, two, t, k, 1)
  {
    two := [SenderTake(k)] + [SenderWrite(k)];
    var u := TakeOne(s, k);
    WriteOnFrame(u, k, Payload(u.conns[k].sender.message.event));
    t := WriteAll(u, k, Payload(u.conns[k].sender.message.event));
    assert s.queue[..1] == [s.queue[0]];
    LastStep(u, SenderWrite(k), t);
    FirstStep(s, SenderTake(k), u, [SenderWrite(k)], t);
  }

  predicate CanTake(s: State, k: nat) {
    SenderAt(s, k) == Draining && k < |s.conns| && s.queue != []
  }

  lemma TakeOne(s: State, k: nat) returns (u: State)
    requires CanTake(s, k)
    ensures Enabled(s, SenderTake(k)) && u == Apply(s, SenderTake(k))
    ensures u.queue == s.queue[1..] && u.taken == s.taken + [s.queue[0]] && SenderAt(u, k) == Holding(s.queue[0])
    ensures k < |u.conns| && u.failed == s.failed && SameCalls(s, u) && u.enqueued == s.enqueued
  {
    TakeFrame(s, k);
    u := ApplySender(s, SenderTake(k));
  }

  lemma LastStep(s: State, step: Step, t: State)
    requires Enabled(s, step) && t == Apply(s, step)
    ensures Path(s, [step], t)
  {
    assert Path(t, [], t);
    FirstStep(s, step, t, [], t);
    assert [step] + [] == [step];
  }

  lemma WrittenOn(s: State, u: State, t: State, k: nat, n: nat)
    requires HasWritten(s, u, k, 1) && HasWritten(u, t, k, n)
    ensures HasWritten(s, t, k, n + 1)
  {
    assert s.queue[..n + 1] == s.queue[..1] + s.queue[1..][..n];
  }

  lemma WritesMore(s: State, a: seq<Step>, u: State, b: seq<Step>, t: State, k: nat, n: nat)
    requires Writes(s, a, u, k, 1) && Writes(u, b, t, k, n)
    ensures Writes(s, a + b, t, k, n + 1)
  {
    PathOn(s, a, u, b, t);
    WrittenOn(s, u, t, k, n);
  }

  predicate AllCarry(ms: seq<Message>) {
    forall q | 0 <= q < |ms| :: CarriesRequests(ms[q])
  }

  /** As long as the messages carry requests, the sender that drains the queue can write them one by one. */
  lemma {:induction false} CanWrite(s: State, k: nat, n: nat) returns (steps: seq<Step>, t: State)
    requires SenderAt(s, k) == Draining && k < |s.conns| && n <= |s.queue| && AllCarry(s.queue[..n])
    ensures Writes(s, steps, t, k, n)
    decreases n
  {
    if n == 0 {
      steps, t := [], s;
    } else {
      assert s.queue[..n][0] == s.queue[0] && s.queue[1..][..n - 1] == s.queue[..n][1..];
      var two, u := WriteOne(s, k);
      steps, t := CanWrite(u, k, n - 1);
      WritesMore(s, two, u, steps, t, k, n - 1);
      steps := two + steps;
    }
  }

  /** Only messages that were dealt with have failed. */
  lemma FailedWasDealt(s: State, p: nat)
    requires FailedOk(s) && FailedAt(s, p)
    ensures p < |s.taken|
  {
    var k :| k in s.failed && s.failed[k] == p;
    assert LostAt(s, k);
  }

  /** The message at `p` is not the one in hand, and its write did not fail. */
  lemma DeliveredIsShown(s: State, t: State, k: nat, p: nat)
    requires FailedOk(s) && t.failed == s.failed && |s.taken| <= p
    requires k < |t.conns| && SenderAt(t, k) == Draining && TurnsOk(t)
    ensures !InHand(t) && !FailedAt(t, p)
  {
    assert t.conns[k].sender.OwnsQueue();
    if FailedAt(t, p) {
      FailedWasDealt(s, p);
    }
  }

  lemma QueueCarries(s: State, p: nat)
    requires QueueOk(s) && |s.taken| <= p < |s.enqueued|
    requires forall q | |s.taken| <= q <= p :: s.enqueued[q].origin.FromCall?
    ensures p + 1 - |s.taken| <= |s.queue|
    ensures AllCarry(s.queue[..p + 1 - |s.taken|])
  {
    forall q | 0 <= q < p + 1 - |s.taken| ensures CarriesRequests(s.queue[q]) {
      assert s.queue[q] == s.enqueued[|s.taken| + q];
      CallsCarryRequests(s, s.enqueued[|s.taken| + q]);
    }
  }

  /** What has been written by the end of a run is acknowledged there with success. */
  lemma DeliveredAtEnd(states: seq<State>, steps: seq<Step>, p: nat)
    requires IsRun(states, steps) && InBound(states[|steps|])
    requires var t := states[|steps|]; p < |t.taken| && Awaited(t.taken[p]) && !InHand(t) && !FailedAt(t, p)
    ensures var t := states[|steps|]; AcknowledgedTruly(t, t.taken[p]) && t.acks[t.taken[p].origin.c].Wrote?
  {
    RunReplies(states, steps, |steps|, p);
    RunAccountsForTaken(states, steps, |steps|, p);
  }

  lemma DeliveredReached(t: State, p: nat)
    requires Reached(t) && InBound(t) && p < |t.taken| && Awaited(t.taken[p]) && !InHand(t) && !FailedAt(t, p)
    ensures AcknowledgedTruly(t, t.taken[p]) && t.acks[t.taken[p].origin.c].Wrote?
  {
    var states, steps :| IsRun(states, steps) && states[|steps|] == t;
    DeliveredAtEnd(states, steps, p);
  }

  /** The sender `k` drains the queue, and the awaited message at `p` is in it, with only callers' messages before it. */
  predicate WaitsInQueue(s: State, k: nat, p: nat) {
    && SenderAt(s, k) == Draining && k < |s.conns|
    && |s.taken| <= p < |s.enqueued| && Awaited(s.enqueued[p])
    && forall q | |s.taken| <= q < p :: s.enqueued[q].origin.FromCall?
  }

  lemma Delivers(s: State, k: nat, p: nat) returns (more: seq<Step>, t: State)
    requires Reached(s) && InBound(s) && QueueOk(s) && FailedOk(s) && WaitsInQueue(s, k, p)
    ensures Path(s, more, t) && SenderSteps(more, k) && t.calls == s.calls && Reached(t) && InBound(t)
    ensures p < |t.taken| && t.taken[p] == s.enqueued[p] && !FailedAt(t, p) && !InHand(t)
  {
    QueueCarries(s, p);
    more, t := CanWrite(s, k, p + 1 - |s.taken|);
    ReachedPath(s, more, t);
    ReachedIsOk(t);
    DeliveredIsShown(s, t, k, p);
    assert t.taken[p] == s.queue[p - |s.taken|] == s.enqueued[p];
  }

  lemma RunDelivers(states: seq<State>, steps: seq<Step>, i: nat, k: nat, p: nat)
    returns (more: seq<Step>, t: State)
    requires IsRun(states, steps) && i < |states| && InBound(states[i]) && WaitsInQueue(states[i], k, p)
    ensures Path(states[i], more, t) && SenderSteps(more, k) && t.calls == states[i].calls
    ensures AcknowledgedTruly(t, states[i].enqueued[p]) && t.acks[states[i].enqueued[p].origin.c].Wrote?
  {
    ReachedAt(states, steps, i);
    RunIsSettled(states, steps, i);
    RunKeepsLoss(states, steps, i);
    more, t := Delivers(states[i], k, p);
    DeliveredReached(t, p);
  }

  /** The sender `k` can have the queue, which is free, and the awaited message at `p` is in it. */
  predicate WaitsForSender(s: State, k: nat, p: nat) {
    && SenderAt(s, k) == Queueing && s.holder == None && k < |s.conns|
    && |s.taken| <= p < |s.enqueued| && Awaited(s.enqueued[p])
    && forall q | |s.taken| <= q < p :: s.enqueued[q].origin.FromCall?
  }

  lemma GetsQueue(s: State, k: nat, p: nat)
    requires WaitsForSender(s, k, p)
    ensures Enabled(s, SenderLock(k))
    ensures var u := Apply(s, SenderLock(k));
      WaitsInQueue(u, k, p) && u.calls == s.calls && u.enqueued == s.enqueued && u.issued == s.issued
  {
  }

  /** At every moment of every run at which a sender drains the queue, or can have it
      because it is free, a message that a call waits for, with only callers' messages
      before it, can be delivered by that sender alone: it takes and writes them, the
      call is acknowledged with success, and all of its requests are lines on the wires. */
  lemma RunCanDeliver(states: seq<State>, steps: seq<Step>, k: nat, p: nat) returns (more: seq<Step>, t: State)
    requires IsRun(states, steps) && InBound(states[|steps|])
    requires WaitsInQueue(states[|steps|], k, p) || WaitsForSender(states[|steps|], k, p)
    ensures Path(states[|steps|], more, t) && SenderSteps(more, k) && t.calls == states[|steps|].calls
    ensures var m := states[|steps|].enqueued[p]; AcknowledgedTruly(t, m) && t.acks[m.origin.c].Wrote?
  {
    var s := states[|steps|];
    if WaitsInQueue(s, k, p) {
      more, t := RunDelivers(states, steps, |steps|, k, p);
    } else {
      GetsQueue(s, k, p);
      RunGoesOn(states, steps, SenderLock(k));
      var u := Apply(s, SenderLock(k));
      more, t := RunDelivers(states + [u], steps + [SenderLock(k)], |steps| + 1, k, p);
      FirstStep(s, SenderLock(k), u, more, t);
      more := [SenderLock(k)] + more;
    }
  }

  /** At every moment of every run, the sender that owns the queue can take a step, or
      waits for a message; when it has left its loop, that step releases the queue. */
  lemma RunOwnerMoves(states: seq<State>, steps: seq<Step>, i: nat, k: nat) returns (step: Step)
    requires IsRun(states, steps) && i < |states| && InBound(states[i]) && states[i].holder == Some(k)
    ensures (OfSender(step, k) && Enabled(states[i], step)) || (SenderAt(states[i], k) == Draining && states[i].queue == [])
    ensures SenderAt(states[i], k).Ending? ==> Enabled(states[i], step) && Apply(states[i], step).holder == None
  {
    RunIsSettled(states, steps, i);
    step := OwnerMoves(states[i], k);
  }

  lemma OwnerMoves(s: State, k: nat) returns (step: Step)
    requires TurnsOk(s) && s.holder == Some(k)
    ensures (OfSender(step, k) && Enabled(s, step)) || (SenderAt(s, k) == Draining && s.queue == [])
    ensures SenderAt(s, k).Ending? ==> Enabled(s, step) && Apply(s, step).holder == None
  {
    assert s.conns[k].sender.OwnsQueue();
    match s.conns[k].sender
    case Draining => step := SenderTake(k);
    case Holding(m) =>
      step := match m.event
        case SendMsg(msg) => if msg.Request? then SenderWrite(k) else SenderSkip(k)
        case SendBatch(_) => SenderWrite(k)
        case Close => SenderClose(k)
        case Stop => SenderStop(k);
    case StopSeen => step := SenderStopped(k);
    case StopRecorded => step := SenderUnflag(k);
    case StopCleared => step := SenderNotify(k);
    case Ending(_) => step := SenderFinish(k);
  }

  // ----- the way back

  /** In a state of a run, while no batch holds the lock, any receiver that reads can be
      given the server's answer to a pending request: the response that the server meant
      is broadcast under its id, and that is the end of the id. A waiter that subscribed
      before, within the window, and polls often enough after, returns exactly that
      response. */
  lemma RunCanAnswer(states: seq<State>, steps: seq<Step>, k: nat, id: usize, r: Response, how: Style,
                     start: nat, seen: seq<nat>)
    requires IsRun(states, steps) && InBound(states[|steps|])
    requires ReceiverAt(states[|steps|], k) == Reading && k < |states[|steps|].conns|
    requires states[|steps|].lock == None && id in states[|steps|].inventory
    requires MayAnswer(r, states[|steps|].inventory[id]) && Fits(r) && r != Pong && r != Status(None)
    requires start <= |states[|steps|].notifs| < start + WINDOW
    requires |seen| > |states[|steps|].notifs| - start && forall n | 0 <= n < |seen| :: seen[n] == |states[|steps|].notifs| + 1
    ensures var s, step := states[|steps|], ReceiveLine(k, Json(AnswerDocument(id, WriteResult(r, how))));
      && Enabled(s, step)
      && var t := Apply(s, step);
        && t.notifs == s.notifs + [Answered(id, r)] && t.inventory == s.inventory - {id}
        && SeenIn(t.notifs, seen) && Scan(t.notifs, start, id, seen) == Got(r, |s.notifs|)
  {
    var s, line := states[|steps|], Json(AnswerDocument(id, WriteResult(r, how)));
    var step := ReceiveLine(k, line);
    WrittenAnswerIsPublished(s.inventory, id, r, how);
    AnswerIsReceived(s, k, line, id, r);
    RunGoesOn(states, steps, step);
    var t := Apply(s, step);
    var states1, steps1 := states + [t], steps + [step];
    assert states1[|steps1|] == t;
    RunScanFinds(states1, steps1, |steps1|, start, id, seen, |s.notifs|, 0, r);
  }

  lemma AnswerIsReceived(s: State, k: nat, line: Line, id: usize, r: Response)
    requires ReceiverAt(s, k) == Reading && k < |s.conns| && s.lock == None
    requires Effect(s.inventory, line) == Retires(id, Some(r))
    ensures Enabled(s, ReceiveLine(k, line))
    ensures var t := Apply(s, ReceiveLine(k, line));
      && t.notifs == s.notifs + [Answered(id, r)] && t.inventory == s.inventory - {id} && t.issued == s.issued
  {
  }
}
