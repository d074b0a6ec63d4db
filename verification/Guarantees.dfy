/** What a whole run guarantees to callers, to waiters and to the servers. */
module Guarantees {
  import opened Base
  import opened Messages
  import opened Responses
  import opened Lines
  import opened Framing
  import opened Machine
  import opened Ids
  import opened Queues
  import opened Transmission
  import opened Acknowledgements
  import opened Liveness
  import opened Refinement
  import opened Agreement
  import opened Losses
  import opened Runs
  import opened Waiters

  /** At every moment of every run, a call that waited and returned successfully has
      all of its requests written in full, side by side, on one connection. */
  lemma RunAcknowledgesTruly(states: seq<State>, steps: seq<Step>, i: nat, c: CallId)
    requires IsRun(states, steps) && i < |states| && InBound(states[i]) && c in states[i].calls
    requires var call := states[i].calls[c];
      call.Returned? && call.waited && call.result == Sent && call.sub.items != []
    ensures ShownWhole(states[i], Msgs(states[i].calls[c].sub.items))
  {
    RunKeepsInv(states, steps, i);
    SuccessWasWritten(states[i], c);
  }

  /** At every moment of every run, the lines on all wires together are a subsequence of
      the requests in the order in which they were enqueued, without repetition. */
  lemma RunTransmitsInOrder(states: seq<State>, steps: seq<Step>, i: nat)
    requires IsRun(states, steps) && i < |states| && InBound(states[i])
    ensures TurnsOk(states[i]) && AllRequests(Carried(states[i].enqueued))
    ensures var lines := LinesInOrder(states[i].conns, states[i].turns);
      && Subsequence(lines, Texts(Carried(states[i].enqueued)))
      && forall p, q | 0 <= p < q < |lines| :: lines[p] != lines[q]
  {
    RunKeepsInv(states, steps, i);
    TransmissionInOrder(states[i]);
  }

  /** When a line misses the inventory although its id had been on a wire, then an
      earlier line had answered that id. */
  lemma RunMissIsRepeat(states: seq<State>, steps: seq<Step>, i: nat, id: usize) returns (n: nat)
    requires IsRun(states, steps) && i < |steps| && InBound(states[i]) && steps[i].ReceiveLine?
    requires Effect(states[i].inventory, steps[i].line) == Misses(id) && HasBeenRead(states[i], id)
    ensures AnswersId(states[i], n, id)
  {
    RunKeepsInv(states, steps, i);
    n := MissIsRepeat(states[i], steps[i].line, id);
  }

  /** While the status is Connected, some connection is served or its write has failed,
      and no more Close events were ever enqueued than connections were made. */
  lemma RunServesConnected(states: seq<State>, steps: seq<Step>, i: nat)
    requires IsRun(states, steps) && i < |states| && InBound(states[i])
    ensures states[i].status == Connected ==>
      exists k | 0 <= k < |states[i].conns| :: Serves(states[i].conns[k].sender)
    ensures |CloseAt(states[i].enqueued)| <= |states[i].conns|
  {
    RunKeepsInv(states, steps, i);
    ClosesAreBounded(states[i]);
  }

  /** At every moment of every run, a taken message is still in its sender's hands, or
      all of its requests are lines on the wires if and only if its write did not fail. */
  lemma RunAccountsForTaken(states: seq<State>, steps: seq<Step>, i: nat, p: nat)
    requires IsRun(states, steps) && i < |states| && InBound(states[i]) && p < |states[i].taken|
    ensures (InHand(states[i]) && p == |states[i].taken| - 1)
      || (AllShown(states[i], Payload(states[i].taken[p].event)) <==> !FailedAt(states[i], p))
  {
    var s := states[i];
    RunKeepsInv(states, steps, i);
    RunKeepsLoss(states, steps, i);
    if !(InHand(s) && p == |s.taken| - 1) {
      assert p < |DealtWith(s)| && DealtWith(s)[p] == s.taken[p];
      PresentIffNotFailed(s, p);
      DealtIsShownIffOnWire(s, p);
    }
  }

  /** All of the requests are lines on the wires. */
  ghost predicate AllShown(s: State, ms: seq<JsonRpcMsg>)
    requires AllRequests(ms)
  {
    forall i | 0 <= i < |ms| :: ShownOnWire(s, RequestText(ms[i]))
  }

  lemma DealtIsShownIffOnWire(s: State, p: nat)
    requires Settled(s) && p < |DealtWith(s)|
    ensures AllShown(s, DealtPayload(s, p)) <==> AllOnWire(s.conns, DealtPayload(s, p))
  {
    var ms := DealtPayload(s, p);
    forall j | 0 <= j < |ms| ensures ShownOnWire(s, RequestText(ms[j])) <==> OnWire(s.conns, ms[j]) {
      DealtRequestIsShownIffOnWire(s, p, j);
    }
  }

  lemma DealtRequestIsShownIffOnWire(s: State, p: nat, j: nat)
    requires Settled(s) && p < |DealtWith(s)| && j < |DealtPayload(s, p)|
    ensures var m := DealtPayload(s, p)[j]; ShownOnWire(s, RequestText(m)) <==> OnWire(s.conns, m)
  {
    var m := DealtPayload(s, p)[j];
    assert DealtWith(s)[p] == s.taken[p] == s.enqueued[p];
    EnqueuedAgrees(s, p, j);
    RecordedIsShownIffOnWire(s, m);
  }

  lemma RecordedIsShownIffOnWire(s: State, m: JsonRpcMsg)
    requires Settled(s) && m.Request? && m.id in s.inserted && m == RequestMsg(m.id, s.inserted[m.id])
    ensures ShownOnWire(s, RequestText(m)) <==> OnWire(s.conns, m)
  {
    if OnWire(s.conns, m) {
      ShownIfOnWire(s, m);
    }
    if ShownOnWire(s, RequestText(m)) {
      OnWireIfShown(s, m.id);
    }
  }

  /** Along every run, a connection that has failed a message has written nothing since
      and fails no other: the entry stands. */
  lemma RunFailsOnce(states: seq<State>, steps: seq<Step>, i: nat, j: nat, k: nat)
    requires IsRun(states, steps) && i <= j < |states| && InBound(states[j]) && k in states[i].failed
    ensures k in states[j].failed && states[j].failed[k] == states[i].failed[k]
    ensures k < |states[j].conns|
    ensures states[j].conns[k].sender == Ending(true) || states[j].conns[k].sender == Finished(true)
  {
    RunFailuresStand(states, steps, i, j);
    RunKeepsLoss(states, steps, j);
    assert LostAt(states[j], k);
  }

  /** At every moment of every run, no two connections have failed the same message. */
  lemma RunFailsApart(states: seq<State>, steps: seq<Step>, i: nat, j: nat, k: nat)
    requires IsRun(states, steps) && i < |states| && InBound(states[i])
    requires j in states[i].failed && k in states[i].failed && j != k
    ensures states[i].failed[j] != states[i].failed[k]
  {
    RunFailuresApart(states, steps, i);
  }

  /** At every moment of every run, a call that was told that its message was not sent
      has its last request on no wire. So of the calls that wait for an acknowledgement
      and are told either way, those told of success are exactly those whose requests
      are all on one wire. */
  lemma RunRefusesTruly(states: seq<State>, steps: seq<Step>, i: nat, c: CallId)
    requires IsRun(states, steps) && i < |states| && InBound(states[i]) && c in states[i].calls
    requires var call := states[i].calls[c];
      call.Returned? && call.result == MessageNotSent && call.sub.items != []
    ensures LastIsMissing(states[i], Msgs(states[i].calls[c].sub.items))
  {
    RunKeepsInv(states, steps, i);
    RunKeepsLoss(states, steps, i);
    RunKeepsRefused(states, steps, i);
    RefusedIsMissing(states[i], c);
  }

  /** In particular a call with one request that was told so has nothing on a wire. */
  lemma RunRefusesSingle(states: seq<State>, steps: seq<Step>, i: nat, c: CallId)
    requires IsRun(states, steps) && i < |states| && InBound(states[i]) && c in states[i].calls
    requires var call := states[i].calls[c];
      call.Returned? && call.result == MessageNotSent && |call.sub.items| == 1
    ensures var e := states[i].calls[c].sub.items[0]; !ShownOnWire(states[i], RequestText(RequestMsg(e.id, e.req)))
  {
    RunRefusesTruly(states, steps, i, c);
    SingleIsMissing(states[i], states[i].calls[c].sub.items);
  }

  lemma SingleIsMissing(s: State, items: seq<Entry>)
    requires |items| == 1 && LastIsMissing(s, Msgs(items))
    ensures !ShownOnWire(s, RequestText(RequestMsg(items[0].id, items[0].req)))
  {
    assert Msgs(items)[|Msgs(items)| - 1] == RequestMsg(items[0].id, items[0].req);
  }

  /** The last of the requests is on no wire, so that they are not all there. */
  ghost predicate LastIsMissing(s: State, ms: seq<JsonRpcMsg>)
    requires AllRequests(ms) && ms != []
  {
    !ShownOnWire(s, RequestText(ms[|ms| - 1])) && !ShownWhole(s, ms)
  }

  lemma RefusedIsMissing(s: State, c: CallId)
    requires Settled(s) && LossOk(s) && RefusedOk(s) && c in s.calls
    requires s.calls[c].Returned? && s.calls[c].result == MessageNotSent && s.calls[c].sub.items != []
    ensures LastIsMissing(s, Msgs(s.calls[c].sub.items))
  {
    RefusedIsUnsent(s, c);
    LastIsNotShown(s, c);
  }

  lemma LastIsNotShown(s: State, c: CallId)
    requires Settled(s) && c in s.calls && s.calls[c].Returned? && s.calls[c].sub.items != []
    requires var ms := Msgs(s.calls[c].sub.items); !OnWire(s.conns, ms[|ms| - 1])
    ensures LastIsMissing(s, Msgs(s.calls[c].sub.items))
  {
    var ms := Msgs(s.calls[c].sub.items);
    var n := |ms| - 1;
    assert RecordsOwn(s, c);
    RecordedIsShownIffOnWire(s, ms[n]);
    if k: nat, at: nat :| k < |s.conns| && Shows(s.conns[k].wire, ms, at) {
      WholeShowsLast(s, ms, k, at);
    }
  }

  lemma WholeShowsLast(s: State, ms: seq<JsonRpcMsg>, k: nat, at: nat)
    requires AllRequests(ms) && ms != [] && k < |s.conns| && Shows(s.conns[k].wire, ms, at)
    ensures ShownOnWire(s, RequestText(ms[|ms| - 1]))
  {
    var lines, n := CompleteLines(s.conns[k].wire), |ms| - 1;
    TextAt(ms, n);
    SliceAt(lines, at, Texts(ms), n);
    assert lines[at + n] == RequestText(ms[n]);
  }

  lemma SliceAt(lines: seq<string>, at: nat, texts: seq<string>, i: nat)
    requires at + |texts| <= |lines| && lines[at..at + |texts|] == texts && i < |texts|
    ensures lines[at + i] == texts[i]
  {
    assert lines[at..at + |texts|][i] == lines[at + i];
  }

  /** The error of a receiving half whose sending half was dropped never occurs. */
  lemma RunDropsNoReply(states: seq<State>, steps: seq<Step>, i: nat, c: CallId)
    requires IsRun(states, steps) && i < |states| && InBound(states[i]) && c in states[i].calls
    ensures states[i].calls[c].Returned? ==> states[i].calls[c].result != OneShotRecvError
  {
    RunKeepsInv(states, steps, i);
    assert ResultOk(states[i], c);
  }

  /** In a run, a waiter whose response is broadcast at or after its subscription, and
      which polls often enough after that, ends up with exactly that response if it never
      lags behind the channel, and fails if it does. */
  lemma RunScanFinds(states: seq<State>, steps: seq<Step>, i: nat, start: nat, id: usize, seen: seq<nat>, p: nat,
                     early: nat, r: Response)
    requires IsRun(states, steps) && InBound(states[|steps|]) && i < |states|
    requires SeenIn(states[i].notifs, seen) && start <= p < |states[i].notifs|
    requires states[i].notifs[p] == Answered(id, r)
    requires early + (p - start) < |seen| && forall k | early <= k < |seen| :: p < seen[k]
    ensures Scan(states[i].notifs, start, id, seen)
         == if NeverLags(states[i].notifs, start, id, seen) then Got(r, p) else Failed
    ensures |states[i].notifs| <= start + WINDOW ==> NeverLags(states[i].notifs, start, id, seen)
  {
    var log := states[i].notifs;
    forall q | 0 <= q < |log| && q != p ensures !(log[q].Answered? && log[q].id == id) {
      if log[q].Answered? {
        OneResponsePerId(states, steps, i, if q < p then q else p, if q < p then p else q);
      }
    }
    ScanFinds(log, start, id, seen, p, early, r);
    ScanFailsIff(log, start, id, seen);
    if |log| <= start + WINDOW {
      FittingNeverLags(log, start, id, seen);
    }
  }

  /** At every poll that still waits, the waiter is within the channel's window. */
  ghost predicate NeverLags(log: seq<ClientNotification>, start: nat, id: usize, seen: seq<nat>)
    requires SeenIn(log, seen)
  {
    forall k | 0 <= k < |seen| && Scan(log, start, id, seen[..k]).Pending? ::
      !Lags(seen[k], Scan(log, start, id, seen[..k]).cursor)
  }

  /** In a run, a response that was broadcast before the subscription is missed for good. */
  lemma RunScanMisses(states: seq<State>, steps: seq<Step>, i: nat, start: nat, id: usize, seen: seq<nat>, p: nat,
                      r: Response)
    requires IsRun(states, steps) && InBound(states[|steps|]) && i < |states|
    requires SeenIn(states[i].notifs, seen) && p < start <= |states[i].notifs|
    requires states[i].notifs[p] == Answered(id, r)
    ensures !Scan(states[i].notifs, start, id, seen).Got?
  {
    var log := states[i].notifs;
    ScanIsExact(log, start, id, seen);
    var w := Scan(log, start, id, seen);
    if w.Got? {
      OneResponsePerId(states, steps, i, p, w.at);
    }
  }

  /** So, for a waiter that polls often enough and never lags, to have subscribed in time
      is the exact condition for getting the response. */
  lemma RunScanFindsIff(states: seq<State>, steps: seq<Step>, i: nat, start: nat, id: usize, seen: seq<nat>, p: nat,
                        early: nat, r: Response)
    requires IsRun(states, steps) && InBound(states[|steps|]) && i < |states|
    requires SeenIn(states[i].notifs, seen) && start <= |states[i].notifs| && p < |states[i].notifs|
    requires states[i].notifs[p] == Answered(id, r) && NeverLags(states[i].notifs, start, id, seen)
    requires early + (p - start) < |seen| && early <= |seen| && forall k | early <= k < |seen| :: p < seen[k]
    ensures Scan(states[i].notifs, start, id, seen) == Got(r, p) <==> start <= p
  {
    if start <= p {
      RunScanFinds(states, steps, i, start, id, seen, p, early, r);
    } else {
      RunScanMisses(states, steps, i, start, id, seen, p, r);
    }
  }

  /** At every poll that still collects, the batch waiter is within the channel's window. */
  ghost predicate NeverLagsBehind(log: seq<ClientNotification>, start: nat, ids: set<usize>, seen: seq<nat>)
    requires SeenIn(log, seen)
  {
    forall k | 0 <= k < |seen| :: !LagsAt(log, start, ids, seen, k)
  }

  /** In a run, a batch waiter whose responses are all broadcast at or after its
      subscription, the last of them at `p`, and which polls often enough after that,
      has collected exactly the published responses if it never lags behind the channel,
      and is cut off, short of some, if it does. */
  lemma RunGatherFinds(states: seq<State>, steps: seq<Step>, i: nat, start: nat, ids: set<usize>, seen: seq<nat>,
                       p: nat, early: nat)
    requires IsRun(states, steps) && InBound(states[|steps|]) && i < |states|
    requires SeenIn(states[i].notifs, seen) && start <= p < |states[i].notifs| && states[i].notifs[p].Answered?
    requires forall id | id in ids :: exists q | start <= q <= p ::
      states[i].notifs[q].Answered? && states[i].notifs[q].id == id
    requires early + (p - start) < |seen| && forall k | early <= k < |seen| :: p < seen[k]
    ensures var g := Gather(states[i].notifs, start, ids, seen);
      if NeverLagsBehind(states[i].notifs, start, ids, seen)
      then g.Complete? && forall id, r | id in ids :: Item(id, r) in g.got <==> IsAnswered(states[i], id, r)
      else g.Cut? && (ids != {} ==> IdsOf(g.got) < ids)
    ensures |states[i].notifs| <= start + WINDOW ==> NeverLagsBehind(states[i].notifs, start, ids, seen)
  {
    var log := states[i].notifs;
    var g := Gather(log, start, ids, seen);
    GatherFinds(log, start, ids, seen, p, early);
    GatherCutsIff(log, start, ids, seen);
    if g.Complete? {
      forall id, r | id in ids ensures Item(id, r) in g.got <==> IsAnswered(states[i], id, r) {
        RunGathersAll(states, steps, i, start, ids, seen, id, r);
      }
    } else if ids != {} {
      CutIsShort(log, start, ids, seen);
    }
    if |log| <= start + WINDOW {
      FittingNeverLagsBehind(log, start, ids, seen);
    }
  }

  /** No batch waiter lags while everything since its subscription fits into the channel. */
  lemma FittingNeverLagsBehind(log: seq<ClientNotification>, start: nat, ids: set<usize>, seen: seq<nat>)
    requires SeenIn(log, seen) && start <= |log| <= start + WINDOW
    ensures NeverLagsBehind(log, start, ids, seen)
  {
    forall k | 0 <= k < |seen| ensures !LagsAt(log, start, ids, seen, k) {
      if Gather(log, start, ids, seen[..k]).Collecting? {
        CollectingHasLooked(log, start, ids, seen[..k]);
      }
    }
  }

  /** In a run, a waiter that has completed its collection holds exactly the responses
      published under the requested ids: one for each, and no other was ever published. */
  lemma RunGathersAll(states: seq<State>, steps: seq<Step>, i: nat, start: nat, ids: set<usize>, seen: seq<nat>,
                      id: usize, r: Response)
    requires IsRun(states, steps) && InBound(states[|steps|]) && i < |states|
    requires SeenIn(states[i].notifs, seen) && start <= |states[i].notifs|
    requires Gather(states[i].notifs, start, ids, seen).Complete? && id in ids
    ensures Item(id, r) in Gather(states[i].notifs, start, ids, seen).got <==> IsAnswered(states[i], id, r)
  {
    var log := states[i].notifs;
    var got := Gather(log, start, ids, seen).got;
    GatherIsExact(log, start, ids, seen);
    assert id in IdsOf(got);
    var j :| 0 <= j < |got| && got[j].id == id;
    var at := PositionOf(log, got, j);
    if p :| 0 <= p < |log| && log[p] == Answered(id, r) {
      if p != at {
        OneResponsePerId(states, steps, i, if p < at then p else at, if p < at then at else p);
      }
    }
    if m :| 0 <= m < |got| && got[m] == Item(id, r) {
      assert m == j;
    }
  }

  lemma PositionOf(log: seq<ClientNotification>, got: seq<Item>, j: nat) returns (at: nat)
    requires GotOk(log, got, |log|) && j < |got|
    ensures at < |log| && log[at] == Answered(got[j].id, got[j].response)
  {
    assert log[..|log|] == log;
    var f: seq<nat> :| Embeds(AsNotifications(got), log, f);
    at := f[j];
  }

  /** No waiter lags while everything since its subscription fits into the channel. */
  lemma FittingNeverLags(log: seq<ClientNotification>, start: nat, id: usize, seen: seq<nat>)
    requires SeenIn(log, seen) && start <= |log| <= start + WINDOW
    ensures NeverLags(log, start, id, seen)
  {
    forall k | 0 <= k < |seen| && Scan(log, start, id, seen[..k]).Pending?
      ensures !Lags(seen[k], Scan(log, start, id, seen[..k]).cursor)
    {
      ScanIsExact(log, start, id, seen[..k]);
    }
  }
}
