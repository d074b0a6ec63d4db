/** The machine of concurrent tasks refines the table of requests, step by step and over whole runs. */
module Refinement {
  import opened Base
  import opened Messages
  import opened Responses
  import opened Machine
  import opened Frames
  import opened Ids
  import opened Publishing
  import opened Queues
  import opened Transmission
  import opened Acknowledgements
  import opened Liveness
  import R = RpcTable

  // ----- the invariant

  ghost predicate Inv(s: State) {
    IdsOk(s) && PublishOk(s) && QueueOk(s) && ShapesOk(s) && TransmissionOk(s) && AllAcksOk(s) && ConnectedOk(s)
  }

  lemma StartIsOk()
    ensures Inv(Start)
  {
    var f: seq<nat> := [];
    assert Embeds(Transmitted(Start.conns, Start.turns), Carried(DealtWith(Start)), f);
  }

  lemma StepKeepsInv(s: State, step: Step)
    requires Inv(s) && Enabled(s, step) && InBound(Apply(s, step))
    ensures Inv(Apply(s, step))
  {
    StepKeepsIds(s, step);
    StepKeepsPublish(s, step);
    StepKeepsQueue(s, step);
    StepKeepsTransmission(s, step);
    StepKeepsAcks(s, step);
    StepKeepsConnected(s, step);
  }

  lemma DrawsOnlyGrow(s: State, step: Step)
    requires Enabled(s, step)
    ensures |s.issued| <= |Apply(s, step).issued|
  {
    if step.Caller() {
      CallerHasEffect(s, step);
    } else if step.Sender() {
      SenderFrame(s, step);
    } else if step.Receiver() {
      ReceiverFrame(s, step);
    } else {
      ControlFrame(s, step);
    }
  }

  lemma {:induction false} EarlierDraws(states: seq<State>, steps: seq<Step>, i: nat, j: nat)
    requires IsRun(states, steps) && i <= j < |states|
    ensures |states[i].issued| <= |states[j].issued|
  {
    if i < j {
      EarlierDraws(states, steps, i, j - 1);
      DrawsOnlyGrow(states[j - 1], steps[j - 1]);
    }
  }

  /** Every state of a run that draws no more ids than a word can tell apart keeps the invariant. */
  lemma {:induction false} RunKeepsInv(states: seq<State>, steps: seq<Step>, i: nat)
    requires IsRun(states, steps) && i < |states| && InBound(states[i])
    ensures Inv(states[i])
  {
    if i == 0 {
      StartIsOk();
    } else {
      EarlierDraws(states, steps, i - 1, i);
      RunKeepsInv(states, steps, i - 1);
      StepKeepsInv(states[i - 1], steps[i - 1]);
    }
  }

  // ----- the abstraction

  function PhaseOf(s: State, id: usize): R.Phase {
    if id in s.retired then R.Retired
    else if id in s.inventory then R.Pending(s.inventory[id])
    else R.Reserved
  }

  function Publications(ns: seq<ClientNotification>): seq<R.Publication> {
    if ns == [] then []
    else
      var last := ns[|ns| - 1];
      Publications(ns[..|ns| - 1]) + if last.Answered? then [R.Publication(last.id, last.response)] else []
  }

  function TableOf(s: State): R.Table {
    R.Table(map id: usize | 0 <= id < |s.issued| :: PhaseOf(s, id), Publications(s.notifs))
  }

  function CallerOp(s: State, step: Step): R.Op
    requires CallerEnabled(s, step)
  {
    if DrawsId(step) then R.Draw(s.lastId)
    else if Inserts(step) then R.Submit(EntryOf(s, step).id, EntryOf(s, step).req)
    else R.Skip
  }

  function LineOp(e: LineEffect): R.Op {
    if e.Retires? then R.Retire(e.id, e.published) else R.Skip
  }

  /** The operation on the table that a step performs. */
  function OpOf(s: State, step: Step): R.Op
    requires Enabled(s, step)
  {
    if step.Caller() then CallerOp(s, step)
    else if step.ReceiveLine? then LineOp(Effect(s.inventory, step.line))
    else R.Skip
  }

  lemma PublicationsGrow(ns: seq<ClientNotification>, n: ClientNotification)
    ensures Publications(ns + [n])
         == Publications(ns) + if n.Answered? then [R.Publication(n.id, n.response)] else []
  {
    assert (ns + [n])[..|ns|] == ns;
  }

  // ----- one lemma a kind of operation

  lemma DrawRefines(s: State, t: State, c: CallId)
    requires CounterOk(s) && Recorded(s) && Stored(s) && Draws(s, t, c) && InBound(t) && t.retired == s.retired && t.notifs == s.notifs
    ensures R.Allowed(TableOf(s), R.Draw(s.lastId)) && TableOf(t) == R.Do(TableOf(s), R.Draw(s.lastId))
  {
    var id := s.lastId;
    assert id == |s.issued| && id !in s.inserted;
    assert TableOf(t).phase == TableOf(s).phase[id := R.Reserved];
  }

  lemma SubmitRefines(s: State, t: State, c: CallId, e: Entry)
    requires Held(s) && Stored(s) && Records(s, t, c, e) && t.retired == s.retired && t.notifs == s.notifs
    ensures R.Allowed(TableOf(s), R.Submit(e.id, e.req)) && TableOf(t) == R.Do(TableOf(s), R.Submit(e.id, e.req))
  {
    assert HoldsFresh(s, c);
    assert TableOf(t).phase == TableOf(s).phase[e.id := R.Pending(e.req)];
  }

  lemma SkipRefines(s: State, t: State)
    requires t.issued == s.issued && t.inventory == s.inventory && t.retired == s.retired
    requires Publications(t.notifs) == Publications(s.notifs)
    ensures TableOf(t) == TableOf(s)
  {
    assert TableOf(t).phase == TableOf(s).phase;
  }

  lemma AnswerPublishes(ns: seq<ClientNotification>, id: usize, published: Option<Response>)
    ensures Publications(ns + AnswerFor(id, published))
         == Publications(ns) + if published.Some? then [R.Publication(id, published.value)] else []
  {
    if published.Some? {
      PublicationsGrow(ns, Answered(id, published.value));
    } else {
      assert ns + [] == ns;
    }
  }

  lemma RetireRefines(s: State, t: State, id: usize, published: Option<Response>)
    requires Recorded(s) && Stored(s) && id in s.inventory && (published.Some? ==> Answers(published.value, s.inventory[id]))
    requires t.issued == s.issued && t.inventory == s.inventory - {id} && t.notifs == s.notifs + AnswerFor(id, published)
    requires t.retired.Keys == s.retired.Keys + {id}
    ensures R.Allowed(TableOf(s), R.Retire(id, published)) && TableOf(t) == R.Do(TableOf(s), R.Retire(id, published))
  {
    AnswerPublishes(s.notifs, id, published);
    assert TableOf(t).phase == TableOf(s).phase[id := R.Retired];
  }

  lemma EffectIsTyped(inventory: map<usize, Request>, line: Line)
    ensures var e := Effect(inventory, line);
      e.Retires? && e.published.Some? ==> e.id in inventory && Answers(e.published.value, inventory[e.id])
  {
    var e := Effect(inventory, line);
    if e.Retires? && e.published.Some? {
      PublishedAnswers(line.doc, inventory[e.id], e.published.value);
    }
  }

  lemma LineRefines(s: State, k: nat, line: Line, e: LineEffect)
    requires IdsOk(s) && k < |s.conns|
    requires e.Retires? ==> e.id in s.inventory
    requires e.Retires? && e.published.Some? ==> Answers(e.published.value, s.inventory[e.id])
    ensures R.Allowed(TableOf(s), LineOp(e)) && TableOf(Receive(s, k, line, e)) == R.Do(TableOf(s), LineOp(e))
  {
    var t := Receive(s, k, line, e);
    if e.Retires? {
      RetireRefines(s, t, e.id, e.published);
    } else {
      if e.Notices? { PublicationsGrow(s.notifs, Notified(e.notice)); }
      SkipRefines(s, t);
    }
  }

  lemma CallerRefines(s: State, t: State, step: Step)
    requires IdsOk(s) && CallerEnabled(s, step) && CallerEffect(s, t, step) && InBound(t)
    requires t.retired == s.retired && t.notifs == s.notifs
    ensures R.Allowed(TableOf(s), CallerOp(s, step)) && TableOf(t) == R.Do(TableOf(s), CallerOp(s, step))
  {
    if DrawsId(step) {
      DrawRefines(s, t, step.c);
    } else if Inserts(step) {
      SubmitRefines(s, t, step.c, EntryOf(s, step));
    } else {
      SkipRefines(s, t);
    }
  }

  /** Every step of the machine is a step of the table, or leaves the table as it is. */
  lemma StepRefines(s: State, step: Step)
    requires IdsOk(s) && Enabled(s, step) && InBound(Apply(s, step))
    ensures R.Allowed(TableOf(s), OpOf(s, step))
    ensures TableOf(Apply(s, step)) == R.Do(TableOf(s), OpOf(s, step))
  {
    var t := Apply(s, step);
    if step.Caller() {
      CallerFrame(s, step);
      CallerHasEffect(s, step);
      CallerRefines(s, t, step);
    } else if step.Sender() {
      SenderFrame(s, step);
      SenderNotifs(s, step);
      PublicationsGrow(s.notifs, StopNotified);
      SkipRefines(s, t);
    } else if step.ReceiveLine? {
      EffectIsTyped(s.inventory, step.line);
      LineRefines(s, step.k, step.line, Effect(s.inventory, step.line));
    } else if step.Receiver() {
      SkipRefines(s, t);
    } else {
      ControlFrame(s, step);
      SkipRefines(s, t);
    }
  }
}
