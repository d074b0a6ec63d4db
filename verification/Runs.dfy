/** The main results, over whole runs: any callers, any connections, any lines from the servers. */
module Runs {
  import opened Base
  import opened Messages
  import opened Responses
  import opened Lines
  import opened Framing
  import opened Machine
  import opened Frames
  import opened Ids
  import opened Publishing
  import opened Queues
  import opened Transmission
  import opened Refinement
  import R = RpcTable

  // ----- the machine refines the table

  function Tables(states: seq<State>): (ts: seq<R.Table>)
    ensures |ts| == |states|
  {
    seq(|states|, i requires 0 <= i < |states| => TableOf(states[i]))
  }

  function Ops(states: seq<State>, steps: seq<Step>): (ops: seq<R.Op>)
    requires IsRun(states, steps)
    ensures |ops| == |steps|
  {
    seq(|steps|, i requires 0 <= i < |steps| => OpOf(states[i], steps[i]))
  }

  /** Every run that draws no more ids than a word can tell apart is a run of the table of requests. */
  lemma RunRefinesTable(states: seq<State>, steps: seq<Step>)
    requires IsRun(states, steps) && InBound(states[|steps|])
    ensures R.IsTableRun(Tables(states), Ops(states, steps))
  {
    assert TableOf(Start).phase == map[];
    forall i | 0 <= i < |steps|
      ensures R.Allowed(TableOf(states[i]), OpOf(states[i], steps[i]))
      ensures TableOf(states[i + 1]) == R.Do(TableOf(states[i]), OpOf(states[i], steps[i]))
    {
      EarlierDraws(states, steps, i, |steps|);
      EarlierDraws(states, steps, i + 1, |steps|);
      RunKeepsInv(states, steps, i);
      StepRefines(states[i], steps[i]);
    }
  }

  lemma {:induction false} PublicationOf(ns: seq<ClientNotification>, p: nat) returns (q: nat)
    requires p < |ns| && ns[p].Answered?
    ensures q < |Publications(ns)| && Publications(ns)[q] == R.Publication(ns[p].id, ns[p].response)
    ensures q == |Publications(ns[..p])|
  {
    var n := |ns| - 1;
    if p < n {
      q := PublicationOf(ns[..n], p);
      assert ns[..n][..p] == ns[..p];
    } else {
      q := |Publications(ns[..n])|;
    }
  }

  lemma {:induction false} PublicationsCount(ns: seq<ClientNotification>, p: nat, q: nat)
    requires p < q <= |ns| && ns[p].Answered?
    ensures |Publications(ns[..p])| < |Publications(ns[..q])|
  {
    assert ns[..q][..q - 1] == ns[..q - 1];
    if p < q - 1 {
      PublicationsCount(ns, p, q - 1);
    }
  }

  /** Over a whole run at most one response is broadcast under an id, however often
      the servers repeat, reorder or invent ids. This is the table's property. */
  lemma OneResponsePerId(states: seq<State>, steps: seq<Step>, i: nat, p: nat, q: nat)
    requires IsRun(states, steps) && InBound(states[|steps|]) && i < |states|
    requires p < q < |states[i].notifs| && states[i].notifs[p].Answered? && states[i].notifs[q].Answered?
    ensures states[i].notifs[p].id != states[i].notifs[q].id
  {
    RunRefinesTable(states, steps);
    R.TableRunSafe(Tables(states), Ops(states, steps), i);
    var ns := states[i].notifs;
    var a := PublicationOf(ns, p);
    var b := PublicationOf(ns, q);
    PublicationsCount(ns, p, q);
    assert TableOf(states[i]).published == Publications(ns);
  }

  /** Ids only move forward, and nothing published is taken back or changed. */
  lemma IdsMoveForward(states: seq<State>, steps: seq<Step>, i: nat, j: nat)
    requires IsRun(states, steps) && InBound(states[|steps|]) && i <= j < |states|
    ensures R.Follows(TableOf(states[i]), TableOf(states[j]))
  {
    RunRefinesTable(states, steps);
    R.TableRunForward(Tables(states), Ops(states, steps), i, j);
  }

  // ----- the line that retires an id decides for good

  lemma RetirementStands(s: State, step: Step, id: usize)
    requires Inv(s) && Enabled(s, step) && id in s.retired
    ensures id in Apply(s, step).retired && Apply(s, step).retired[id] == s.retired[id]
  {
    if step.Caller() {
      CallerFrame(s, step);
    } else if step.Sender() {
      SenderFrame(s, step);
    } else if step.ReceiveLine? {
      LineRetires(s, step.k, step.line, Effect(s.inventory, step.line), id);
    } else if !step.Receiver() {
      ControlFrame(s, step);
    }
  }

  lemma LineRetires(s: State, k: nat, line: Line, e: LineEffect, id: usize)
    requires Stored(s) && k < |s.conns| && id in s.retired && (e.Retires? ==> e.id in s.inventory)
    ensures id in Receive(s, k, line, e).retired && Receive(s, k, line, e).retired[id] == s.retired[id]
  {
  }

  lemma {:induction false} RetirementLasts(states: seq<State>, steps: seq<Step>, i: nat, j: nat, id: usize)
    requires IsRun(states, steps) && InBound(states[|steps|]) && i <= j < |states| && id in states[i].retired
    ensures id in states[j].retired && states[j].retired[id] == states[i].retired[id]
  {
    if i < j {
      RetirementLasts(states, steps, i, j - 1, id);
      EarlierDraws(states, steps, j - 1, |steps|);
      RunKeepsInv(states, steps, j - 1);
      RetirementStands(states[j - 1], steps[j - 1], id);
    }
  }

  ghost predicate IsAnswered(s: State, id: usize, r: Response) {
    exists p | 0 <= p < |s.notifs| :: s.notifs[p] == Answered(id, r)
  }

  lemma AnsweredAsRetired(s: State, id: usize, r: Response)
    requires PublishOk(s) && id in s.retired
    ensures IsAnswered(s, id, r) <==> s.retired[id].published == Some(r)
  {
    assert Logged(s, id, s.retired[id]);
    if p :| 0 <= p < |s.notifs| && s.notifs[p] == Answered(id, r) {
      assert PublishedAt(s, p);
    }
  }

  /** The first line that answers a pending id decides: at every later moment the id
      has been answered with `r` if and only if that line, read against the recorded
      request, is the typed response `r`. A null result, an error or a result of the
      wrong shape therefore leaves the caller without an answer for the rest of the run. */
  lemma FirstLineDecides(states: seq<State>, steps: seq<Step>, i: nat, j: nat, id: usize, r: Response)
    requires IsRun(states, steps) && InBound(states[|steps|]) && i < j < |states|
    requires steps[i].ReceiveLine? && Effect(states[i].inventory, steps[i].line).Retires?
    requires Effect(states[i].inventory, steps[i].line).id == id
    ensures id in states[i].inventory
    ensures IsAnswered(states[j], id, r)
        <==> Publishable(DecodeLine(steps[i].line).value, states[i].inventory[id]) == Some(r)
  {
    LineRetiresFor(states, steps, i, j, id);
    EarlierDraws(states, steps, j, |steps|);
    RunKeepsInv(states, steps, j);
    AnsweredAsRetired(states[j], id, r);
  }

  /** What a line retires an id with stays on record. */
  lemma LineRetiresFor(states: seq<State>, steps: seq<Step>, i: nat, j: nat, id: usize)
    requires IsRun(states, steps) && InBound(states[|steps|]) && i < j < |states|
    requires steps[i].ReceiveLine? && Effect(states[i].inventory, steps[i].line).Retires?
    requires Effect(states[i].inventory, steps[i].line).id == id
    ensures id in states[i].inventory && DecodeLine(steps[i].line).Some? && id in states[j].retired
    ensures states[j].retired[id].published == Publishable(DecodeLine(steps[i].line).value, states[i].inventory[id])
  {
    RetiresAs(states[i], steps[i].k, steps[i].line, id);
    assert states[i + 1] == Apply(states[i], steps[i]);
    RetirementLasts(states, steps, i + 1, j, id);
  }

  lemma RetiresAs(s: State, k: nat, line: Line, id: usize)
    requires Enabled(s, ReceiveLine(k, line))
    requires Effect(s.inventory, line).Retires? && Effect(s.inventory, line).id == id
    ensures id in s.inventory && DecodeLine(line).Some?
    ensures var t := Apply(s, ReceiveLine(k, line));
      id in t.retired && t.retired[id].published == Publishable(DecodeLine(line).value, s.inventory[id])
  {
    var e := Effect(s.inventory, line);
    assert e.published == Publishable(DecodeLine(line).value, s.inventory[id]);
  }

  /** A null or missing result retires a pending id and silences it for good, error or no error. */
  lemma NullResultSilences(states: seq<State>, steps: seq<Step>, i: nat, j: nat, id: usize, r: Response)
    requires IsRun(states, steps) && InBound(states[|steps|]) && i < j < |states|
    requires steps[i].ReceiveLine? && steps[i].line.Json?
    requires Effect(states[i].inventory, steps[i].line).Retires? && Effect(states[i].inventory, steps[i].line).id == id
    requires Find(steps[i].line.doc, "result") == Present(Null) || Find(steps[i].line.doc, "result") == Absent
    ensures !IsAnswered(states[j], id, r)
  {
    FirstLineDecides(states, steps, i, j, id, r);
    RetiringIsResponse(states[i].inventory, steps[i].line);
    NullResultIsSilent(steps[i].line.doc, states[i].inventory[id]);
  }

  lemma RetiringIsResponse(inventory: map<usize, Request>, line: Line)
    requires Effect(inventory, line).Retires?
    ensures DecodeLine(line).Some? && DecodeLine(line).value.Response?
  {
  }

  // ----- conservation of ids

  function HeldIds(s: State): set<usize> {
    set c | c in s.calls && s.calls[c].Held().Some? :: s.calls[c].Held().value
  }

  function DrawnIds(n: nat): (ids: set<usize>)
    requires n <= WORD
    ensures |ids| == n && forall id: usize :: id in ids <==> id < n
  {
    if n == 0 then {} else DrawnIds(n - 1) + {n - 1}
  }

  /** Every id drawn is in exactly one place: held by the call that drew it, pending,
      or retired. Refused and lost requests stay pending. */
  lemma IdsAreConserved(s: State)
    requires IdsOk(s) && InBound(s)
    ensures HeldIds(s) !! s.inventory.Keys && HeldIds(s) !! s.retired.Keys && s.inventory.Keys !! s.retired.Keys
    ensures HeldIds(s) + s.inventory.Keys + s.retired.Keys == DrawnIds(|s.issued|)
    ensures |s.inserted| == |s.inventory| + |s.retired|
    ensures |s.issued| == |HeldIds(s)| + |s.inventory| + |s.retired|
  {
    HeldAreFresh(s);
    var held, pending, retired, drawn := HeldIds(s), s.inventory.Keys, s.retired.Keys, DrawnIds(|s.issued|);
    ThreeParts(held, pending, retired, s.inserted.Keys, drawn);
  }

  lemma ThreeParts(a: set<usize>, b: set<usize>, c: set<usize>, bc: set<usize>, all: set<usize>)
    requires b !! c && b + c == bc && bc <= all
    requires forall id :: id in a <==> id in all && id !in bc
    ensures a !! b && a !! c && a + b + c == all
    ensures |bc| == |b| + |c| && |all| == |a| + |b| + |c|
  {
    assert |b + c| == |b| + |c|;
    assert a !! bc && a + bc == all;
    assert |a + bc| == |a| + |bc|;
  }

  lemma HeldAreFresh(s: State)
    requires IdsOk(s)
    ensures forall id: usize :: id in HeldIds(s) <==> id < |s.issued| && id !in s.inserted
  {
    forall id: usize ensures id in HeldIds(s) <==> id < |s.issued| && id !in s.inserted {
      if id in HeldIds(s) {
        var c :| c in s.calls && s.calls[c].Held() == Some(id);
        assert HoldsFresh(s, c);
      }
      if id < |s.issued| && id !in s.inserted {
        assert HeldByDrawer(s, id);
      }
    }
  }

  /** At every reachable state. */
  lemma RunConservesIds(states: seq<State>, steps: seq<Step>, i: nat)
    requires IsRun(states, steps) && i < |states| && InBound(states[i])
    ensures HeldIds(states[i]) + states[i].inventory.Keys + states[i].retired.Keys == DrawnIds(|states[i].issued|)
    ensures |states[i].issued| == |HeldIds(states[i])| + |states[i].inventory| + |states[i].retired|
  {
    RunKeepsInv(states, steps, i);
    IdsAreConserved(states[i]);
  }

  // ----- the counter wraps around

  lemma StepKeepsCounter(s: State, step: Step)
    requires CounterOk(s) && Enabled(s, step)
    ensures CounterOk(Apply(s, step))
  {
    if step.Caller() {
      CallerHasEffect(s, step);
    } else if step.Sender() {
      SenderFrame(s, step);
    } else if step.Receiver() {
      ReceiverFrame(s, step);
    } else {
      ControlFrame(s, step);
    }
  }

  lemma {:induction false} RunKeepsCounter(states: seq<State>, steps: seq<Step>, i: nat)
    requires IsRun(states, steps) && i < |states|
    ensures CounterOk(states[i])
  {
    if i > 0 {
      RunKeepsCounter(states, steps, i - 1);
      StepKeepsCounter(states[i - 1], steps[i - 1]);
    }
  }

  /** Without a bound on the run: the next id was drawn before, as draw number `d`,
      if and only if a whole word of ids has been drawn already. So the bound in the
      results above is exact. */
  lemma DrawRepeatsIff(states: seq<State>, steps: seq<Step>, i: nat)
    requires IsRun(states, steps) && i < |states|
    ensures (exists d: nat | d < |states[i].issued| :: d % WORD == states[i].lastId) <==> |states[i].issued| >= WORD
  {
    RunKeepsCounter(states, steps, i);
    var n := |states[i].issued|;
    if n >= WORD {
      assert (n - WORD) % WORD == n % WORD;
    } else {
      assert forall d: nat | d < n :: d % WORD == d;
    }
  }

  // ----- batches

  lemma StepKeepsLocked(s: State, step: Step)
    requires Locked(s) && Enabled(s, step)
    ensures Locked(Apply(s, step))
  {
    if step.Caller() {
      CallerKeepsLocked(s, step);
    } else if step.Sender() {
      SenderFrame(s, step);
    } else if step.Receiver() {
      ReceiverFrame(s, step);
    } else {
      ControlFrame(s, step);
    }
  }

  /** On every run, bounded or not, only a batch that is filling the inventory holds its lock. */
  lemma {:induction false} RunKeepsLocked(states: seq<State>, steps: seq<Step>, i: nat)
    requires IsRun(states, steps) && i < |states|
    ensures Locked(states[i])
  {
    if i > 0 {
      RunKeepsLocked(states, steps, i - 1);
      StepKeepsLocked(states[i - 1], steps[i - 1]);
    }
  }

  /** Whenever a response can be looked up, every batch is in the record as a whole:
      none is half recorded. */
  lemma BatchesAreSeenWhole(s: State, k: nat, line: Line, c: CallId)
    requires Inv(s) && Enabled(s, ReceiveLine(k, line)) && DecodeLine(line).Some? && DecodeLine(line).value.Response?
    requires c in s.calls
    ensures !s.calls[c].Filling?
    ensures forall e | e in s.calls[c].Recorded() :: e.id in s.inserted && s.inserted[e.id] == e.req
  {
    assert RecordsOwn(s, c);
  }

  // ----- the queue across connections

  /** Only the owner of the queue takes from it, the oldest message first; at every
      other step the queued messages stay, in place. */
  lemma QueueSurvives(s: State, step: Step)
    requires Enabled(s, step)
    ensures step.SenderTake? ==> s.queue != [] && Apply(s, step).queue == s.queue[1..]
    ensures !step.SenderTake? ==> s.queue <= Apply(s, step).queue
  {
    if step.Caller() {
      if step.TrySend? {
        OfferAppends(s, step.c, s.calls[step.c].sub.Event());
      } else {
        CallerQuiet(s, step);
      }
    } else if step.ReceiveLine? {
      LineFrame(s, step.k, step.line, Effect(s.inventory, step.line));
    }
  }

  lemma OfferAppends(s: State, c: CallId, event: ClientEvent)
    requires c in s.calls && s.calls[c].Ready?
    ensures s.queue <= Offer(s, c, event).queue
  {
  }
}
