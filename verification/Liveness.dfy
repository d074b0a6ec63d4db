/** Bookkeeping of connections: what the status Connected says, and how often a
    connection can be closed. */
module Liveness {
  import opened Base
  import opened Framing
  import opened Machine
  import opened Frames
  import opened Queues

  /** The sender has neither recorded the end of its connection nor finished, unless a write failed. */
  predicate Serves(sender: SenderTask) {
    || sender.Queueing? || sender.Draining? || sender.Holding? || sender.StopSeen?
    || sender == Ending(true) || sender == Finished(true)
  }

  /** While the status is Connected, the latest connection is being served or its write failed. */
  predicate ConnectedOk(s: State) {
    s.status == Connected ==> s.conns != [] && Serves(s.conns[|s.conns| - 1].sender)
  }

  lemma StepKeepsConnected(s: State, step: Step)
    requires ConnectedOk(s) && Enabled(s, step)
    ensures ConnectedOk(Apply(s, step))
  {
    if step.Caller() {
      CallerFrame(s, step);
    } else if step.Sender() {
      SenderKeepsConnected(s, step);
    } else if step.Receiver() {
      ReceiverFrame(s, step);
    }
  }

  lemma SenderKeepsConnected(s: State, step: Step)
    requires ConnectedOk(s) && SenderEnabled(s, step)
    ensures ConnectedOk(ApplySender(s, step))
  {
  }

  // ----- counting

  function CloseAt(ms: seq<Message>): set<nat> {
    set p | 0 <= p < |ms| && ms[p].event == ClientEvent.Close
  }

  /** Positions with distinct owners below `n` are at most `n`. */
  lemma {:induction false} AtMostOwners(ps: set<nat>, owner: map<nat, nat>, n: nat)
    requires ps <= owner.Keys && forall p | p in ps :: owner[p] < n
    requires forall p, q | p in ps && q in ps && owner[p] == owner[q] :: p == q
    ensures |ps| <= n
  {
    if n == 0 {
      if p :| p in ps {
        assert false;
      }
    } else if p :| p in ps && owner[p] == n - 1 {
      AtMostOwners(ps - {p}, owner, n - 1);
    } else {
      AtMostOwners(ps, owner, n - 1);
    }
  }

  /** No more Close events are ever enqueued than connections were made. */
  lemma ClosesAreBounded(s: State)
    requires QueueOk(s) && ShapesOk(s)
    ensures |CloseAt(s.enqueued)| <= |s.conns|
  {
    var ps := CloseAt(s.enqueued);
    forall p | p in ps ensures s.enqueued[p].origin.FromReceiver? && s.enqueued[p].origin.k < |s.conns| {
      assert MessageOk(s, s.enqueued[p]);
    }
    var owner := map p | p in ps :: s.enqueued[p].origin.k;
    forall p, q | p in ps && q in ps && owner[p] == owner[q] ensures p == q {
      assert s.enqueued[p].origin == s.enqueued[q].origin;
    }
    AtMostOwners(ps, owner, |s.conns|);
  }
}
