/** How the two tasks of a connection end, and what they leave behind: over every run,
    however many ids it draws (`disconnect` and the sender loop, src/client.rs). */
module Endings {
  import opened Base
  import opened Messages
  import opened Responses
  import opened Framing
  import opened Machine
  import opened Frames
  import opened Queues
  import opened Growth
  import opened Readings

  // ----- who moves a task

  lemma SenderMovesItself(s: State, step: Step, k: nat)
    requires Enabled(s, step) && k < |s.conns|
    ensures k < |Apply(s, step).conns|
    ensures !(step.Sender() && step.k == k) ==> Apply(s, step).conns[k].sender == s.conns[k].sender
  {
    if step.Caller() {
      CallerFrame(s, step);
    } else if step.Sender() {
      SendersApart(s, step, k);
    } else if step.Receiver() {
      ReceiverFrame(s, step);
    }
  }

  lemma SendersApart(s: State, step: Step, k: nat)
    requires SenderEnabled(s, step) && k < |s.conns|
    ensures |ApplySender(s, step).conns| == |s.conns|
    ensures step.k != k ==> ApplySender(s, step).conns[k] == s.conns[k]
  {
  }

  lemma ReceiverMovesItself(s: State, step: Step, k: nat)
    requires Enabled(s, step) && k < |s.conns|
    ensures k < |Apply(s, step).conns|
    ensures !(step.Receiver() && step.k == k) ==> Apply(s, step).conns[k].receiver == s.conns[k].receiver
  {
    if step.Caller() {
      CallerFrame(s, step);
    } else if step.Sender() {
      SenderReceivers(s, step);
    } else if step.ReceiveLine? {
      if step.k == k {
        OwnLine(s, k, step.line, Effect(s.inventory, step.line));
      } else {
        LinesApart(s, step.k, step.line, Effect(s.inventory, step.line), k);
      }
    }
  }

  lemma LinesApart(s: State, j: nat, line: Line, e: LineEffect, k: nat)
    requires j < |s.conns| && k < |s.conns| && j != k
    ensures |Receive(s, j, line, e).conns| == |s.conns| && Receive(s, j, line, e).conns[k] == s.conns[k]
  {
  }

  lemma OwnLine(s: State, k: nat, line: Line, e: LineEffect)
    requires k < |s.conns|
    ensures |Receive(s, k, line, e).conns| == |s.conns|
    ensures Receive(s, k, line, e).conns[k].receiver == if e.Panics? then Crashed else s.conns[k].receiver
  {
  }

  lemma NewConnection(s: State, step: Step, k: nat)
    requires Enabled(s, step) && |s.conns| <= k < |Apply(s, step).conns|
    ensures Apply(s, step).conns[k].receiver == Reading && Apply(s, step).conns[k].sender == Queueing
  {
    if step.Caller() {
      CallerFrame(s, step);
    } else if step.Sender() {
      SenderReceivers(s, step);
    } else if step.Receiver() {
      ReceiverFrame(s, step);
    }
  }

  /** A connection that is not there yet counts as at its beginning. */
  function ReceiverAt(s: State, k: nat): ReceiverTask {
    if k < |s.conns| then s.conns[k].receiver else Reading
  }

  function SenderAt(s: State, k: nat): SenderTask {
    if k < |s.conns| then s.conns[k].sender else Queueing
  }

  predicate OfReceiver(step: Step, k: nat) {
    step.Receiver() && step.k == k
  }

  predicate OfSender(step: Step, k: nat) {
    step.Sender() && step.k == k
  }

  lemma ReceiverStays(s: State, step: Step, k: nat)
    requires Enabled(s, step) && !OfReceiver(step, k)
    ensures ReceiverAt(Apply(s, step), k) == ReceiverAt(s, k)
  {
    if k < |s.conns| {
      ReceiverMovesItself(s, step, k);
    } else if k < |Apply(s, step).conns| {
      NewConnection(s, step, k);
    }
  }

  lemma SenderStays(s: State, step: Step, k: nat)
    requires Enabled(s, step) && !OfSender(step, k)
    ensures SenderAt(Apply(s, step), k) == SenderAt(s, k)
  {
    if k < |s.conns| {
      SenderMovesItself(s, step, k);
    } else if k < |Apply(s, step).conns| {
      NewConnection(s, step, k);
    }
  }

  /** Of a value that only its owner changes: the owner's last step. */
  lemma {:induction false} LastOwn<T>(values: seq<T>, own: seq<bool>, i: nat) returns (j: nat)
    requires |values| == |own| + 1 && i < |values| && values[i] != values[0]
    requires forall x | 0 <= x < |own| && !own[x] :: values[x + 1] == values[x]
    ensures j < i && own[j] && values[j + 1] == values[i]
  {
    if own[i - 1] {
      j := i - 1;
    } else {
      j := LastOwn(values, own, i - 1);
    }
  }

  /** The last step of a receiver that is not reading any more. */
  lemma LastReceiverStep(states: seq<State>, steps: seq<Step>, i: nat, k: nat) returns (j: nat)
    requires IsRun(states, steps) && i < |states| && ReceiverAt(states[i], k) != Reading
    ensures j < i && OfReceiver(steps[j], k) && ReceiverAt(states[j + 1], k) == ReceiverAt(states[i], k)
  {
    var values := seq(|states|, x requires 0 <= x < |states| => ReceiverAt(states[x], k));
    var own := seq(|steps|, x requires 0 <= x < |steps| => OfReceiver(steps[x], k));
    forall x | 0 <= x < |own| && !own[x] ensures values[x + 1] == values[x] {
      ReceiverStays(states[x], steps[x], k);
    }
    j := LastOwn(values, own, i);
  }

  /** The last step of a sender that has got the queue. */
  lemma LastSenderStep(states: seq<State>, steps: seq<Step>, i: nat, k: nat) returns (j: nat)
    requires IsRun(states, steps) && i < |states| && SenderAt(states[i], k) != Queueing
    ensures j < i && OfSender(steps[j], k) && SenderAt(states[j + 1], k) == SenderAt(states[i], k)
  {
    var values := seq(|states|, x requires 0 <= x < |states| => SenderAt(states[x], k));
    var own := seq(|steps|, x requires 0 <= x < |steps| => OfSender(steps[x], k));
    forall x | 0 <= x < |own| && !own[x] ensures values[x + 1] == values[x] {
      SenderStays(states[x], steps[x], k);
    }
    j := LastOwn(values, own, i);
  }

  // ----- how a receiver ends

  /** At step `j` the receiver, which has left its loop, looks at the status. */
  predicate Looks(states: seq<State>, steps: seq<Step>, j: nat, k: nat) {
    && j < |steps| && j < |states| && steps[j] == ReceiverStatus(k)
    && k < |states[j].conns| && states[j].conns[k].receiver == Leaving
  }

  predicate CloseFrom(m: Message, k: nat) {
    m.origin == FromReceiver(k)
  }

  /** The messages from this receiver are one Close at position `p`. */
  ghost predicate OneClose(s: State, k: nat, p: nat) {
    && p < |s.enqueued| && s.enqueued[p] == Message(ClientEvent.Close, FromReceiver(k), false)
    && forall q | 0 <= q < |s.enqueued| && q != p :: !CloseFrom(s.enqueued[q], k)
  }

  ghost predicate NoClose(s: State, k: nat) {
    forall q | 0 <= q < |s.enqueued| :: !CloseFrom(s.enqueued[q], k)
  }

  /** A receiver that is not gone has enqueued nothing. */
  lemma NotGoneNoClose(states: seq<State>, steps: seq<Step>, i: nat, k: nat)
    requires IsRun(states, steps) && i < |states|
    requires k < |states[i].conns| && states[i].conns[k].receiver != Gone
    ensures NoClose(states[i], k)
  {
    RunKeepsSources(states, steps, i);
    forall q | 0 <= q < |states[i].enqueued| ensures !CloseFrom(states[i].enqueued[q], k) {
      assert MessageOk(states[i], states[i].enqueued[q]);
    }
  }

  /** Once gone, it stays so, and enqueues nothing more. */
  lemma GoneIsQuiet(s: State, step: Step, k: nat)
    requires Enabled(s, step) && k < |s.conns| && s.conns[k].receiver == Gone
    ensures k < |Apply(s, step).conns| && Apply(s, step).conns[k].receiver == Gone
    ensures s.enqueued <= Apply(s, step).enqueued
    ensures forall q | |s.enqueued| <= q < |Apply(s, step).enqueued| :: !CloseFrom(Apply(s, step).enqueued[q], k)
  {
    ReceiverMovesItself(s, step, k);
    if step.TrySend? {
      OfferFrame(s, step.c, s.calls[step.c].sub.Event());
    } else if step.Caller() {
      CallerQuiet(s, step);
    } else if step.Sender() {
      SenderFrame(s, step);
    } else if step.Receiver() {
      ReceiverExtends(s, step);
      if !step.ReceiverClose? {
        ReceiverSources(s, step);
      }
    }
  }

  lemma {:induction false} GoneStaysQuiet(states: seq<State>, steps: seq<Step>, i: nat, j: nat, k: nat)
    requires IsRun(states, steps) && i <= j < |states|
    requires k < |states[i].conns| && states[i].conns[k].receiver == Gone
    ensures k < |states[j].conns| && states[j].conns[k].receiver == Gone && states[i].enqueued <= states[j].enqueued
    ensures forall q | |states[i].enqueued| <= q < |states[j].enqueued| :: !CloseFrom(states[j].enqueued[q], k)
  {
    if i < j {
      GoneStaysQuiet(states, steps, i, j - 1, k);
      GoneIsQuiet(states[j - 1], steps[j - 1], k);
    }
  }

  /** What a receiver's own step makes of it. */
  lemma ReceiverStepTo(s: State, step: Step)
    requires ReceiverEnabled(s, step)
    ensures step.k < |ApplyReceiver(s, step).conns|
    ensures var r := ApplyReceiver(s, step).conns[step.k].receiver;
      && (r == Closing ==> step.ReceiverStatus? && s.status != Disconnected && s.status != Stopped)
      && (r == Crashed ==> step.ReceiveLine? && Effect(s.inventory, step.line).Panics?)
      && (r == Gone ==>
           || step.ReceiverAbort?
           || (step.ReceiverClose? && s.conns[step.k].receiver == Closing)
           || (step.ReceiverStatus? && (s.status == Disconnected || s.status == Stopped)))
  {
    if step.ReceiveLine? {
      OwnLine(s, step.k, step.line, Effect(s.inventory, step.line));
    }
  }

  /** What a step to close adds to the queue. */
  lemma CloseEnqueues(s: State, k: nat)
    requires ReceiverEnabled(s, ReceiverClose(k)) && NoClose(s, k)
    ensures var t := ApplyReceiver(s, ReceiverClose(k));
      if Room(s) then OneClose(t, k, |s.enqueued|) else NoClose(t, k)
  {
  }

  lemma QuietKeepsNone(s: State, t: State, k: nat)
    requires NoClose(s, k) && s.enqueued <= t.enqueued
    requires forall q | |s.enqueued| <= q < |t.enqueued| :: !CloseFrom(t.enqueued[q], k)
    ensures NoClose(t, k)
  {
  }

  lemma QuietKeepsOne(s: State, t: State, k: nat, p: nat)
    requires OneClose(s, k, p) && s.enqueued <= t.enqueued
    requires forall q | |s.enqueued| <= q < |t.enqueued| :: !CloseFrom(t.enqueued[q], k)
    ensures OneClose(t, k, p)
  {
  }

  lemma NothingEnqueued(s: State, step: Step, t: State, k: nat)
    requires ReceiverEnabled(s, step) && !step.ReceiverClose? && t == ApplyReceiver(s, step) && NoClose(s, k)
    ensures NoClose(t, k)
  {
    ReceiverSources(s, step);
  }

  /** A receiver that takes a step is there and not gone. */
  lemma NotGoneYet(s: State, step: Step)
    requires ReceiverEnabled(s, step)
    ensures step.k < |s.conns| && s.conns[step.k].receiver != Gone
  {
  }

  lemma NoCloseAfter(states: seq<State>, steps: seq<Step>, j: nat, k: nat)
    requires IsRun(states, steps) && j < |steps| && OfReceiver(steps[j], k) && !steps[j].ReceiverClose?
    ensures NoClose(states[j + 1], k)
  {
    NotGoneYet(states[j], steps[j]);
    NotGoneNoClose(states, steps, j, k);
    NothingEnqueued(states[j], steps[j], states[j + 1], k);
  }

  /** The receiver becomes gone by step `j`, without a Close. */
  lemma GoneWithout(states: seq<State>, steps: seq<Step>, j: nat, i: nat, k: nat)
    requires IsRun(states, steps) && j < i < |states| && OfReceiver(steps[j], k) && !steps[j].ReceiverClose?
    requires k < |states[j + 1].conns| && states[j + 1].conns[k].receiver == Gone
    ensures NoClose(states[i], k)
  {
    NoCloseAfter(states, steps, j, k);
    GoneStaysQuiet(states, steps, j + 1, i, k);
    QuietKeepsNone(states[j + 1], states[i], k);
  }

  /** The receiver closes at step `l`. */
  lemma GoneWith(states: seq<State>, steps: seq<Step>, l: nat, i: nat, k: nat)
    requires IsRun(states, steps) && l < i < |states| && steps[l] == ReceiverClose(k)
    ensures if Room(states[l]) then OneClose(states[i], k, |states[l].enqueued|) else NoClose(states[i], k)
  {
    var s, t := states[l], states[l + 1];
    NotGoneNoClose(states, steps, l, k);
    CloseEnqueues(s, k);
    GoneStaysQuiet(states, steps, l + 1, i, k);
    if Room(s) {
      QuietKeepsOne(t, states[i], k, |s.enqueued|);
    } else {
      QuietKeepsNone(t, states[i], k);
    }
  }

  /** The step gives the receiver a line whose reading panics. */
  predicate LinePanics(s: State, step: Step) {
    step.ReceiveLine? && Effect(s.inventory, step.line).Panics?
  }

  /** What a receiver's own step in a run says about the step. */
  lemma ReceiverStepAt(states: seq<State>, steps: seq<Step>, j: nat, k: nat)
    requires IsRun(states, steps) && j < |steps| && OfReceiver(steps[j], k)
    ensures k < |states[j].conns| && k < |states[j + 1].conns|
    ensures var r := states[j + 1].conns[k].receiver;
      && (r == Closing ==> LooksOpen(states, steps, j, k))
      && (r == Crashed ==> ReceiverEnabled(states[j], steps[j]) && LinePanics(states[j], steps[j]))
      && (r == Gone && !steps[j].ReceiverAbort? && !steps[j].ReceiverClose? ==> LooksGivenUp(states, steps, j, k))
      && (steps[j].ReceiverClose? ==> states[j].conns[k].receiver == Closing)
  {
    ReceiverStepTo(states[j], steps[j]);
  }

  /** When the receiver, which has left its loop, looks at the status, it is given up. */
  predicate LooksGivenUp(states: seq<State>, steps: seq<Step>, j: nat, k: nat) {
    && j < |steps| && j < |states| && steps[j] == ReceiverStatus(k)
    && (states[j].status == Disconnected || states[j].status == Stopped)
  }

  predicate LooksOpen(states: seq<State>, steps: seq<Step>, j: nat, k: nat) {
    && j < |steps| && j < |states| && steps[j] == ReceiverStatus(k)
    && states[j].status != Disconnected && states[j].status != Stopped
  }

  /** At step `l` the receiver asks for the end of the connection: its Close is the one
      message it ever enqueues, unless it finds the queue full. */
  ghost predicate AsksAt(states: seq<State>, steps: seq<Step>, l: nat, i: nat, k: nat) {
    && l < i < |states| && l < |steps| && steps[l] == ReceiverClose(k)
    && if |states[l].queue| < CAPACITY then OneClose(states[i], k, |states[l].enqueued|) else NoClose(states[i], k)
  }

  lemma AskingLooks(states: seq<State>, steps: seq<Step>, l: nat, i: nat, k: nat) returns (j: nat)
    requires IsRun(states, steps) && l < i < |states| && steps[l] == ReceiverClose(k)
    ensures j < l && LooksOpen(states, steps, j, k) && AsksAt(states, steps, l, i, k)
  {
    ReceiverStepAt(states, steps, l, k);
    GoneWith(states, steps, l, i, k);
    j := LastReceiverStep(states, steps, l, k);
    ReceiverStepAt(states, steps, j, k);
  }

  /** Over every run, a receiver that is gone was aborted by its own connection's end and
      has enqueued nothing, or it has left by itself. Then it has looked at the status at
      some step `j`, and if it saw Disconnected or Stopped it has enqueued nothing;
      otherwise it has enqueued exactly one Close at a later step `l`, or found the queue
      full there. */
  lemma RunClosesTruly(states: seq<State>, steps: seq<Step>, i: nat, k: nat) returns (j: nat, l: nat)
    requires IsRun(states, steps) && i < |states| && ReceiverAt(states[i], k) == Gone
    ensures j < i && (steps[j] == ReceiverAbort(k) || LooksGivenUp(states, steps, j, k) || LooksOpen(states, steps, j, k))
    ensures steps[j] == ReceiverAbort(k) || LooksGivenUp(states, steps, j, k) ==> NoClose(states[i], k)
    ensures LooksOpen(states, steps, j, k) ==> j < l && AsksAt(states, steps, l, i, k)
  {
    j := LastReceiverStep(states, steps, i, k);
    l := j;
    ReceiverStepAt(states, steps, j, k);
    if steps[j].ReceiverClose? {
      j := AskingLooks(states, steps, l, i, k);
    } else {
      GoneWithout(states, steps, j, i, k);
    }
  }

  /** A receiver that has left looks at the status only once. */
  lemma RunLooksOnce(states: seq<State>, steps: seq<Step>, i: nat, j: nat, k: nat)
    requires IsRun(states, steps) && i < j < |steps| && steps[i] == ReceiverStatus(k)
    ensures steps[j] != ReceiverStatus(k) && steps[j] != ReceiverLeave(k)
  {
    AfterLooking(states, steps, i, j, k);
  }

  lemma {:induction false} AfterLooking(states: seq<State>, steps: seq<Step>, i: nat, j: nat, k: nat)
    requires IsRun(states, steps) && i < j < |states| && steps[i] == ReceiverStatus(k)
    ensures ReceiverAt(states[j], k) == Closing || ReceiverAt(states[j], k) == Gone
  {
    if i + 1 == j {
      ReceiverLooks(states[i], k);
    } else {
      AfterLooking(states, steps, i, j - 1, k);
      StaysOut(states[j - 1], steps[j - 1], states[j], k);
    }
  }

  lemma ReceiverLooks(s: State, k: nat)
    requires ReceiverEnabled(s, ReceiverStatus(k))
    ensures var t := ApplyReceiver(s, ReceiverStatus(k)); ReceiverAt(t, k) == Closing || ReceiverAt(t, k) == Gone
  {
  }

  lemma StaysOut(s: State, step: Step, t: State, k: nat)
    requires Enabled(s, step) && t == Apply(s, step) && (ReceiverAt(s, k) == Closing || ReceiverAt(s, k) == Gone)
    ensures ReceiverAt(t, k) == Closing || ReceiverAt(t, k) == Gone
  {
    if !OfReceiver(step, k) {
      ReceiverStays(s, step, k);
    }
  }

  // ----- a reading that panics

  /** The line responds to a pending request for headers with a list that claims too many. */
  ghost predicate Overclaims(inventory: map<usize, Request>, line: Line) {
    line.Json? && exists id: usize, v: Value :: OverclaimsAs(inventory, line.doc, id, v)
  }

  ghost predicate OverclaimsAs(inventory: map<usize, Request>, doc: Document, id: usize, v: Value) {
    id in inventory && inventory[id].GetBlockHeaders? && Responds(doc, id, Some(v)) && ClaimsTooMany(v)
  }

  lemma PanicIsOverclaim(inventory: map<usize, Request>, line: Line)
    ensures Effect(inventory, line).Panics? <==> Overclaims(inventory, line)
  {
    var e := Effect(inventory, line);
    if e.Panics? {
      MissAndPanicAreExact(inventory, line.doc, e.id);
      var v: Value :| Responds(line.doc, e.id, Some(v)) && ClaimsTooMany(v);
      assert OverclaimsAs(inventory, line.doc, e.id, v);
    }
    if Overclaims(inventory, line) {
      var id: usize, v: Value :| OverclaimsAs(inventory, line.doc, id, v);
      MissAndPanicAreExact(inventory, line.doc, id);
    }
  }

  /** At step `j` the receiver is given such a line. */
  ghost predicate KilledAt(states: seq<State>, steps: seq<Step>, j: nat, k: nat) {
    && j < |steps| && j < |states| && steps[j].ReceiveLine? && steps[j].k == k
    && Overclaims(states[j].inventory, steps[j].line)
  }

  lemma {:induction false} CrashedStays(states: seq<State>, steps: seq<Step>, j: nat, i: nat, k: nat)
    requires IsRun(states, steps) && j <= i < |states| && ReceiverAt(states[j], k) == Crashed
    ensures ReceiverAt(states[i], k) == Crashed
  {
    if j < i {
      CrashedStays(states, steps, j, i - 1, k);
      if !OfReceiver(steps[i - 1], k) {
        ReceiverStays(states[i - 1], steps[i - 1], k);
      }
    }
  }

  lemma PanicCrashes(s: State, k: nat, line: Line, e: LineEffect)
    requires k < |s.conns| && e.Panics?
    ensures ReceiverAt(Receive(s, k, line, e), k) == Crashed && Receive(s, k, line, e).inventory == s.inventory
    ensures Receive(s, k, line, e).notifs == s.notifs
  {
  }

  lemma KilledCrashes(states: seq<State>, steps: seq<Step>, j: nat, k: nat)
    requires IsRun(states, steps) && KilledAt(states, steps, j, k)
    ensures ReceiverAt(states[j + 1], k) == Crashed
    ensures states[j + 1].inventory == states[j].inventory && states[j + 1].notifs == states[j].notifs
  {
    PanicIsOverclaim(states[j].inventory, steps[j].line);
    PanicCrashes(states[j], k, steps[j].line, Effect(states[j].inventory, steps[j].line));
  }

  lemma CrashedWasKilled(states: seq<State>, steps: seq<Step>, i: nat, k: nat) returns (j: nat)
    requires IsRun(states, steps) && i < |states| && ReceiverAt(states[i], k) == Crashed
    ensures j < i && KilledAt(states, steps, j, k)
  {
    j := LastReceiverStep(states, steps, i, k);
    ReceiverStepAt(states, steps, j, k);
    PanicIsOverclaim(states[j].inventory, steps[j].line);
  }

  lemma KilledStaysDead(states: seq<State>, steps: seq<Step>, j: nat, i: nat, k: nat)
    requires IsRun(states, steps) && j < i < |states| && KilledAt(states, steps, j, k)
    ensures ReceiverAt(states[i], k) == Crashed
  {
    KilledCrashes(states, steps, j, k);
    CrashedStays(states, steps, j + 1, i, k);
  }

  /** Over every run, a receiver is dead if and only if it was once given a line that
      responds to a pending request for headers with a list that claims too many. */
  lemma RunCrashesIff(states: seq<State>, steps: seq<Step>, i: nat, k: nat)
    requires IsRun(states, steps) && i < |states|
    ensures ReceiverAt(states[i], k) == Crashed <==> exists j: nat | j < i :: KilledAt(states, steps, j, k)
  {
    if ReceiverAt(states[i], k) == Crashed {
      var j := CrashedWasKilled(states, steps, i, k);
    }
    if j: nat :| j < i && KilledAt(states, steps, j, k) {
      KilledStaysDead(states, steps, j, i, k);
    }
  }

  // ----- how a sender ends

  predicate HoldsEvent(s: State, k: nat, e: ClientEvent) {
    k < |s.conns| && s.conns[k].sender.Holding? && s.conns[k].sender.message.event == e
  }

  /** The sender has left its loop, and no write of it failed. */
  predicate Ended(sender: SenderTask) {
    sender == Ending(false) || sender == Finished(false)
  }

  lemma CloseStep(s: State, step: Step)
    requires SenderEnabled(s, step) && HoldsEvent(s, step.k, ClientEvent.Close)
    ensures step.SenderClose?
    ensures var t := ApplySender(s, step); t.status == Disconnected && SenderAt(t, step.k) == Ending(false)
  {
  }

  lemma EndedStep(s: State, step: Step)
    requires SenderEnabled(s, step) && Ended(SenderAt(s, step.k))
    ensures Ended(SenderAt(ApplySender(s, step), step.k))
  {
  }

  /** At step `l` the sender acts on a Close: the status is Disconnected and it leaves its loop. */
  predicate HonoursClose(states: seq<State>, steps: seq<Step>, l: nat, k: nat) {
    && l + 1 < |states| && l < |steps| && HoldsEvent(states[l], k, ClientEvent.Close) && OfSender(steps[l], k)
    && states[l + 1].status == Disconnected && SenderAt(states[l + 1], k) == Ending(false)
  }

  /** Over every run, a sender that has taken a Close either still has it in hand, or has
      recorded Disconnected at some step `l` and left its loop for good. */
  lemma {:induction false} RunHonoursClose(states: seq<State>, steps: seq<Step>, j: nat, i: nat, k: nat) returns (l: nat)
    requires IsRun(states, steps) && j <= i < |states| && HoldsEvent(states[j], k, ClientEvent.Close)
    ensures SenderAt(states[i], k) == SenderAt(states[j], k)
         || (j <= l < i && HonoursClose(states, steps, l, k) && Ended(SenderAt(states[i], k)))
  {
    l := j;
    if j < i {
      l := RunHonoursClose(states, steps, j, i - 1, k);
      var s, step := states[i - 1], steps[i - 1];
      if !OfSender(step, k) {
        SenderStays(s, step, k);
      } else if Ended(SenderAt(s, k)) {
        EndedStep(s, step);
      } else {
        l := i - 1;
        CloseStep(s, step);
      }
    }
  }

  // ----- a Stop with the flag set

  /** From `b` to the next state the sender records the status. */
  predicate Records(states: seq<State>, b: nat, k: nat) {
    && b + 1 < |states| && SenderAt(states[b], k) == StopSeen && SenderAt(states[b + 1], k) == StopRecorded
    && states[b + 1].status == Stopped
  }

  predicate Clears(states: seq<State>, c: nat, k: nat) {
    && c + 1 < |states| && SenderAt(states[c], k) == StopRecorded && SenderAt(states[c + 1], k) == StopCleared
    && !states[c + 1].stopFlag
  }

  predicate Tells(states: seq<State>, d: nat, k: nat) {
    && d + 1 < |states| && SenderAt(states[d], k) == StopCleared && SenderAt(states[d + 1], k) == Ending(false)
    && states[d + 1].notifs == states[d].notifs + [StopNotified]
  }

  /** How far the sender has come by `i` with a Stop that it acted on at `l`: it records
      the status at `b`, then clears the flag at `c`, then broadcasts the stop at `d`,
      and then leaves its loop. */
  predicate Stopping(states: seq<State>, l: nat, i: nat, k: nat, b: nat, c: nat, d: nat)
    requires i < |states|
  {
    match SenderAt(states[i], k)
    case StopSeen => true
    case StopRecorded => l < b < i && Records(states, b, k)
    case StopCleared => l < b < c < i && Records(states, b, k) && Clears(states, c, k)
    case Ending(failed) => !failed && d < i && Stops(states, l, k, b, c, d)
    case Finished(failed) => !failed && d < i && Stops(states, l, k, b, c, d)
    case _ => false
  }

  predicate Stops(states: seq<State>, l: nat, k: nat, b: nat, c: nat, d: nat) {
    l < b < c < d && Records(states, b, k) && Clears(states, c, k) && Tells(states, d, k)
  }

  /** The next step of such a sender. */
  lemma StopStep(s: State, step: Step)
    requires SenderEnabled(s, step)
    ensures var t, was := ApplySender(s, step), SenderAt(s, step.k);
      && (was == StopSeen ==> SenderAt(t, step.k) == StopRecorded && t.status == Stopped)
      && (was == StopRecorded ==> SenderAt(t, step.k) == StopCleared && !t.stopFlag)
      && (was == StopCleared ==> SenderAt(t, step.k) == Ending(false) && t.notifs == s.notifs + [StopNotified])
      && (HoldsEvent(s, step.k, ClientEvent.Stop) ==>
            t.status == s.status && SenderAt(t, step.k) == if s.stopFlag then StopSeen else Draining)
  {
  }

  lemma StoppingRests(states: seq<State>, l: nat, i: nat, k: nat, b: nat, c: nat, d: nat)
    requires i + 1 < |states| && Stopping(states, l, i, k, b, c, d)
    requires SenderAt(states[i + 1], k) == SenderAt(states[i], k)
    ensures Stopping(states, l, i + 1, k, b, c, d)
  {
  }

  lemma StoppingMoves(states: seq<State>, steps: seq<Step>, l: nat, i: nat, k: nat, b: nat, c: nat, d: nat)
    returns (b': nat, c': nat, d': nat)
    requires i + 1 < |states| && i < |steps| && l < i && Stopping(states, l, i, k, b, c, d)
    requires OfSender(steps[i], k) && SenderEnabled(states[i], steps[i])
    requires states[i + 1] == ApplySender(states[i], steps[i])
    ensures Stopping(states, l, i + 1, k, b', c', d')
  {
    b', c', d' := b, c, d;
    var was := SenderAt(states[i], k);
    StopStep(states[i], steps[i]);
    if was == StopSeen {
      b' := i;
    } else if was == StopRecorded {
      c' := i;
    } else if was == StopCleared {
      d' := i;
    } else {
      EndedStep(states[i], steps[i]);
    }
  }

  lemma StoppingGoesOn(states: seq<State>, steps: seq<Step>, l: nat, i: nat, k: nat, b: nat, c: nat, d: nat)
    returns (b': nat, c': nat, d': nat)
    requires IsRun(states, steps) && l < i < |steps| && Stopping(states, l, i, k, b, c, d)
    ensures Stopping(states, l, i + 1, k, b', c', d')
  {
    if OfSender(steps[i], k) {
      b', c', d' := StoppingMoves(states, steps, l, i, k, b, c, d);
    } else {
      b', c', d' := b, c, d;
      SenderStays(states[i], steps[i], k);
      StoppingRests(states, l, i, k, b, c, d);
    }
  }

  /** At step `l` the sender acts on a Stop, and the flag is set. */
  predicate ActsOnStop(states: seq<State>, steps: seq<Step>, l: nat, k: nat) {
    && l < |states| && l < |steps| && OfSender(steps[l], k)
    && HoldsEvent(states[l], k, ClientEvent.Stop) && states[l].stopFlag
  }

  lemma StoppingBegins(states: seq<State>, steps: seq<Step>, l: nat, k: nat)
    requires IsRun(states, steps) && l < |steps| && ActsOnStop(states, steps, l, k)
    ensures Stopping(states, l, l + 1, k, 0, 0, 0)
  {
    StopStep(states[l], steps[l]);
  }

  /** Without the flag the sender goes on draining the queue. */
  lemma RunIgnoresStop(states: seq<State>, steps: seq<Step>, l: nat, k: nat)
    requires IsRun(states, steps) && l < |steps| && OfSender(steps[l], k)
    requires HoldsEvent(states[l], k, ClientEvent.Stop) && !states[l].stopFlag
    ensures SenderAt(states[l + 1], k) == Draining && states[l + 1].status == states[l].status
  {
    StopStep(states[l], steps[l]);
  }

  /** Over every run, a sender that acts on a Stop while the flag is set records the
      status, clears the flag, broadcasts the stop and leaves its loop, in this order and
      without doing anything else; `i` is any later moment. */
  lemma {:induction false} RunHonoursStop(states: seq<State>, steps: seq<Step>, l: nat, i: nat, k: nat)
    returns (b: nat, c: nat, d: nat)
    requires IsRun(states, steps) && l < i < |states|
    requires ActsOnStop(states, steps, l, k)
    ensures Stopping(states, l, i, k, b, c, d)
  {
    if l + 1 == i {
      StoppingBegins(states, steps, l, k);
      b, c, d := 0, 0, 0;
    } else {
      b, c, d := RunHonoursStop(states, steps, l, i - 1, k);
      b, c, d := StoppingGoesOn(states, steps, l, i - 1, k, b, c, d);
    }
  }

  // ----- why a sender has ended

  /** What a sender's own step in a run says about the step. */
  lemma SenderStepAt(states: seq<State>, steps: seq<Step>, j: nat, k: nat)
    requires IsRun(states, steps) && j < |steps| && OfSender(steps[j], k)
    ensures var was, now := SenderAt(states[j], k), SenderAt(states[j + 1], k);
      && (now == Ending(false) ==> HonoursClose(states, steps, j, k) || was == StopCleared)
      && (now == Ending(true) ==> FailsAt(states, steps, j, k))
      && (now == StopCleared ==> was == StopRecorded) && (now == StopRecorded ==> was == StopSeen)
      && (now == StopSeen ==> HoldsEvent(states[j], k, ClientEvent.Stop) && states[j].stopFlag)
      && (now.Finished? ==> was == Ending(now.failed))
  {
    SenderStepTo(states[j], steps[j]);
  }

  lemma SenderStepTo(s: State, step: Step)
    requires SenderEnabled(s, step)
    ensures var t := ApplySender(s, step);
      var was, now := SenderAt(s, step.k), SenderAt(t, step.k);
      && (now == Ending(false) ==>
           (HoldsEvent(s, step.k, ClientEvent.Close) && t.status == Disconnected) || was == StopCleared)
      && (now == Ending(true) ==> step.SenderFail? && was.Holding?)
      && (now == StopCleared ==> was == StopRecorded) && (now == StopRecorded ==> was == StopSeen)
      && (now == StopSeen ==> HoldsEvent(s, step.k, ClientEvent.Stop) && s.stopFlag)
      && (now.Finished? ==> was == Ending(now.failed))
  {
  }

  /** The write of the message in hand fails. */
  predicate FailsAt(states: seq<State>, steps: seq<Step>, j: nat, k: nat) {
    && j < |states| && j < |steps| && steps[j].SenderFail? && steps[j].k == k
    && SenderAt(states[j], k).Holding?
  }

  lemma EndingBegan(states: seq<State>, steps: seq<Step>, i: nat, k: nat, failed: bool) returns (j: nat)
    requires IsRun(states, steps) && i < |states|
    requires SenderAt(states[i], k) == Ending(failed) || SenderAt(states[i], k) == Finished(failed)
    ensures j < i && OfSender(steps[j], k) && SenderAt(states[j + 1], k) == Ending(failed)
  {
    j := LastSenderStep(states, steps, i, k);
    if SenderAt(states[i], k).Finished? {
      SenderStepAt(states, steps, j, k);
      j := LastSenderStep(states, steps, j, k);
    }
  }

  lemma ClearedWasSeen(states: seq<State>, steps: seq<Step>, i: nat, k: nat) returns (l: nat)
    requires IsRun(states, steps) && i < |states| && SenderAt(states[i], k) == StopCleared
    ensures l < i && ActsOnStop(states, steps, l, k)
  {
    var c := LastSenderStep(states, steps, i, k);
    SenderStepAt(states, steps, c, k);
    var b := LastSenderStep(states, steps, c, k);
    SenderStepAt(states, steps, b, k);
    l := LastSenderStep(states, steps, b, k);
    SenderStepAt(states, steps, l, k);
  }

  /** Over every run, a sender that has left its loop had its write fail, or honoured a
      Close, or acted on a Stop with the flag set and went through with it: there is no
      other way out. */
  lemma RunEndsThus(states: seq<State>, steps: seq<Step>, i: nat, k: nat) returns (j: nat, b: nat, c: nat, d: nat)
    requires IsRun(states, steps) && i < |states| && (SenderAt(states[i], k).Ending? || SenderAt(states[i], k).Finished?)
    ensures j < i
    ensures SenderAt(states[i], k).failed ==> FailsAt(states, steps, j, k)
    ensures !SenderAt(states[i], k).failed && !HonoursClose(states, steps, j, k) ==>
      ActsOnStop(states, steps, j, k) && d < i && Stops(states, j, k, b, c, d)
  {
    b, c, d := 0, 0, 0;
    j := EndingBegan(states, steps, i, k, SenderAt(states[i], k).failed);
    SenderStepAt(states, steps, j, k);
    if !SenderAt(states[i], k).failed && !HonoursClose(states, steps, j, k) {
      j := ClearedWasSeen(states, steps, j, k);
      b, c, d := RunHonoursStop(states, steps, j, i, k);
    }
  }
}
