/** The simple view of the client: a table of ids in which every request is
    answered at most once, and with a response of its own type. */
module RpcTable {
  import opened Base
  import opened Messages
  import opened Responses

  /** An id that is not in the table is fresh. */
  datatype Phase = Reserved | Pending(req: Request) | Retired

  datatype Publication = Publication(id: usize, response: Response)

  datatype Table = Table(phase: map<usize, Phase>, published: seq<Publication>)

  datatype Op =
    | Draw(id: usize)
    | Submit(id: usize, req: Request)
    | Retire(id: usize, response: Option<Response>)
    | Skip

  const EmptyTable := Table(map[], [])

  /** An id moves from fresh to reserved to pending to retired, and only the last
      move may publish, a response that answers the pending request. */
  predicate Allowed(t: Table, op: Op) {
    match op
    case Draw(id) => id !in t.phase
    case Submit(id, _) => id in t.phase && t.phase[id] == Reserved
    case Retire(id, response) =>
      id in t.phase && t.phase[id].Pending? && (response.Some? ==> Answers(response.value, t.phase[id].req))
    case Skip => true
  }

  function Do(t: Table, op: Op): Table {
    match op
    case Draw(id) => t.(phase := t.phase[id := Reserved])
    case Submit(id, req) => t.(phase := t.phase[id := Pending(req)])
    case Retire(id, response) =>
      Table(t.phase[id := Retired],
            t.published + if response.Some? then [Publication(id, response.value)] else [])
    case Skip => t
  }

  ghost predicate IsTableRun(tables: seq<Table>, ops: seq<Op>) {
    && |tables| == |ops| + 1 && tables[0] == EmptyTable
    && forall i | 0 <= i < |ops| :: Allowed(tables[i], ops[i]) && tables[i + 1] == Do(tables[i], ops[i])
  }

  // ----- what every run of the table keeps

  ghost predicate TableOk(t: Table) {
    && (forall p | 0 <= p < |t.published| :: t.published[p].id in t.phase && t.phase[t.published[p].id] == Retired)
    && (forall p, q | 0 <= p < q < |t.published| :: t.published[p].id != t.published[q].id)
  }

  function Rank(t: Table, id: usize): nat {
    if id !in t.phase then 0
    else match t.phase[id]
         case Reserved => 1
         case Pending(_) => 2
         case Retired => 3
  }

  /** Ids only move forward, pending requests do not change, and nothing published is taken back. */
  ghost predicate Follows(t: Table, u: Table) {
    && (forall id: usize :: Rank(t, id) <= Rank(u, id))
    && (forall id | id in t.phase && t.phase[id].Pending? :: id in u.phase && (u.phase[id] == t.phase[id] || u.phase[id] == Retired))
    && t.published <= u.published
  }

  lemma OpKeeps(t: Table, op: Op)
    requires TableOk(t) && Allowed(t, op)
    ensures TableOk(Do(t, op)) && Follows(t, Do(t, op))
  {
  }

  lemma FollowsOn(t: Table, u: Table, v: Table)
    requires Follows(t, u) && Follows(u, v)
    ensures Follows(t, v)
  {
    forall id: usize ensures Rank(t, id) <= Rank(v, id) {
      assert Rank(t, id) <= Rank(u, id) <= Rank(v, id);
    }
    forall id | id in u.phase && u.phase[id] == Retired ensures id in v.phase && v.phase[id] == Retired {
      assert Rank(u, id) == 3 && Rank(u, id) <= Rank(v, id);
    }
  }

  lemma {:induction false} TableRunSafe(tables: seq<Table>, ops: seq<Op>, j: nat)
    requires IsTableRun(tables, ops) && j < |tables|
    ensures TableOk(tables[j])
  {
    if j > 0 {
      TableRunSafe(tables, ops, j - 1);
      OpKeeps(tables[j - 1], ops[j - 1]);
    }
  }

  lemma {:induction false} TableRunForward(tables: seq<Table>, ops: seq<Op>, i: nat, j: nat)
    requires IsTableRun(tables, ops) && i <= j < |tables|
    ensures Follows(tables[i], tables[j])
  {
    if i < j {
      TableRunForward(tables, ops, i, j - 1);
      TableRunSafe(tables, ops, j - 1);
      OpKeeps(tables[j - 1], ops[j - 1]);
      FollowsOn(tables[i], tables[j - 1], tables[j]);
    }
  }
}
