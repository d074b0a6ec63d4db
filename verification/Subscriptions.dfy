/** The active subscriptions and what is requested again after a connect
    (`ActiveSubscriptions` and the subscribe calls in src/client.rs). */
module Subscriptions {
  import opened Base
  import opened Messages

  datatype SubscribeResult = Subscribed | AlreadySubscribed(script: ScriptHash) | NotSubscribed(script: ScriptHash)

  // ----- the sets that the operations leave behind

  /** The first script that is active already or occurs earlier in the list. */
  ghost predicate FirstConflict(active: set<ScriptHash>, scripts: seq<ScriptHash>, n: nat) {
    && n < |scripts| && (scripts[n] in active || scripts[n] in scripts[..n])
    && NoConflict(active, scripts[..n])
  }

  /** Pairwise distinct and disjoint from the active set. */
  ghost predicate NoConflict(active: set<ScriptHash>, scripts: seq<ScriptHash>) {
    && (forall i, j | 0 <= i < j < |scripts| :: scripts[i] != scripts[j])
    && (forall i | 0 <= i < |scripts| :: scripts[i] !in active)
  }

  /** The result names the first conflict, and the set has grown by exactly the scripts before it. */
  ghost predicate StoppedByConflict(active: set<ScriptHash>, scripts: seq<ScriptHash>, after: set<ScriptHash>,
                                    r: SubscribeResult) {
    exists n | 0 <= n < |scripts| ::
      FirstConflict(active, scripts, n) && r == AlreadySubscribed(scripts[n])
      && after == active + Elements(scripts[..n])
  }

  function Elements(scripts: seq<ScriptHash>): set<ScriptHash> {
    set s | s in scripts
  }

  /** What happens to the set, as a record of operations. */
  datatype SubOp = Subscribe(script: ScriptHash) | Unsubscribe(script: ScriptHash) | BatchSubscribe(scripts: seq<ScriptHash>)

  /** The scripts of a batch up to its first conflict, or all of them. */
  function Accepted(active: set<ScriptHash>, scripts: seq<ScriptHash>): (prefix: seq<ScriptHash>)
    ensures prefix <= scripts
  {
    if scripts == [] then []
    else
      var before := Accepted(active, scripts[..|scripts| - 1]);
      var last := scripts[|scripts| - 1];
      if |before| < |scripts| - 1 || last in active || last in before then before else scripts
  }

  function AfterOp(active: set<ScriptHash>, op: SubOp): set<ScriptHash> {
    match op
    case Subscribe(s) => active + {s}
    case Unsubscribe(s) => active - {s}
    case BatchSubscribe(scripts) => active + Elements(Accepted(active, scripts))
  }

  /** The active set after a history of calls, whether they succeeded or not. */
  function Active(history: seq<SubOp>): set<ScriptHash> {
    if history == [] then {} else AfterOp(Active(history[..|history| - 1]), history[|history| - 1])
  }

  lemma {:induction false} AcceptedIsExact(active: set<ScriptHash>, scripts: seq<ScriptHash>)
    ensures Accepted(active, scripts) == scripts <==> NoConflict(active, scripts)
    ensures NoConflict(active, Accepted(active, scripts))
    ensures |Accepted(active, scripts)| < |scripts| ==> FirstConflict(active, scripts, |Accepted(active, scripts)|)
  {
    if scripts != [] {
      var n := |scripts| - 1;
      var before := Accepted(active, scripts[..n]);
      AcceptedIsExact(active, scripts[..n]);
      if |before| < n {
        assert scripts[..n][..|before|] == scripts[..|before|];
        assert scripts[..n][|before|] == scripts[|before|];
      } else {
        assert before == scripts[..n];
      }
    }
  }

  /** The set that a batch without conflicts leaves behind. */
  lemma CleanBatchLeaves(active: set<ScriptHash>, batch: seq<ScriptHash>)
    requires NoConflict(active, batch)
    ensures AfterOp(active, BatchSubscribe(batch)) == active + Elements(batch)
  {
    AcceptedIsExact(active, batch);
  }

  /** The set that a batch with a conflict leaves behind. */
  lemma ConflictLeaves(active: set<ScriptHash>, batch: seq<ScriptHash>, n: nat)
    requires FirstConflict(active, batch, n)
    ensures !NoConflict(active, batch) && AfterOp(active, BatchSubscribe(batch)) == active + Elements(batch[..n])
  {
    AcceptedIsExact(active, batch);
    FirstConflictIsUnique(active, batch, n, |Accepted(active, batch)|);
  }

  lemma FirstConflictIsUnique(active: set<ScriptHash>, scripts: seq<ScriptHash>, m: nat, n: nat)
    requires FirstConflict(active, scripts, m)
    ensures !NoConflict(active, scripts)
    ensures FirstConflict(active, scripts, n) ==> m == n
  {
    if FirstConflict(active, scripts, n) {
      if m < n {
        ConflictSpoils(active, scripts[..n], m);
      } else if n < m {
        ConflictSpoils(active, scripts[..m], n);
      }
    }
    ConflictSpoils(active, scripts, m);
  }

  lemma ConflictSpoils(active: set<ScriptHash>, scripts: seq<ScriptHash>, m: nat)
    requires m < |scripts| && (scripts[m] in active || scripts[m] in scripts[..m])
    ensures !NoConflict(active, scripts)
  {
    if scripts[m] in scripts[..m] {
      var i :| 0 <= i < m && scripts[..m][i] == scripts[m];
      assert scripts[i] == scripts[m];
    }
  }

  // ----- a script is active if and only if the last call that touched it put it there

  /** The call would have put the script into the set, given the set it found. */
  predicate Adds(active: set<ScriptHash>, op: SubOp, s: ScriptHash) {
    match op
    case Subscribe(t) => s == t
    case Unsubscribe(_) => false
    case BatchSubscribe(scripts) => s in Accepted(active, scripts)
  }

  predicate Removes(op: SubOp, s: ScriptHash) {
    op == Unsubscribe(s)
  }

  /** The last call that adds or removes the script adds it. */
  ghost predicate LastAdded(history: seq<SubOp>, s: ScriptHash) {
    exists i | 0 <= i < |history| :: AddedAt(history, s, i)
  }

  /** The call number `i` adds the script, and no later one removes it. */
  ghost predicate AddedAt(history: seq<SubOp>, s: ScriptHash, i: nat) {
    && i < |history| && Adds(Active(history[..i]), history[i], s)
    && forall j | i < j < |history| :: !Removes(history[j], s)
  }

  lemma AddedAtPrefix(history: seq<SubOp>, op: SubOp, s: ScriptHash, i: nat)
    requires i < |history|
    ensures AddedAt(history + [op], s, i) <==> AddedAt(history, s, i) && !Removes(op, s)
  {
    var more := history + [op];
    assert more[..i] == history[..i] && more[|history|] == op;
    if AddedAt(more, s, i) {
      forall j | i < j < |history| ensures !Removes(history[j], s) { assert more[j] == history[j]; }
    }
  }

  lemma AddedAtEnd(history: seq<SubOp>, op: SubOp, s: ScriptHash)
    ensures AddedAt(history + [op], s, |history|) <==> Adds(Active(history), op, s)
  {
    assert (history + [op])[..|history|] == history;
  }

  lemma ActiveNext(history: seq<SubOp>, op: SubOp)
    ensures Active(history + [op]) == AfterOp(Active(history), op)
  {
    assert (history + [op])[..|history|] == history;
  }

  lemma {:induction false} ActiveIffLastAdded(history: seq<SubOp>, s: ScriptHash)
    ensures s in Active(history) <==> LastAdded(history, s)
  {
    if history != [] {
      var n := |history| - 1;
      var before, op := history[..n], history[n];
      assert history == before + [op];
      ActiveIffLastAdded(before, s);
      ActiveNext(before, op);
      AddedAtEnd(before, op, s);
      forall i | 0 <= i < n ensures AddedAt(history, s, i) <==> AddedAt(before, s, i) && !Removes(op, s) {
        AddedAtPrefix(before, op, s, i);
      }
    }
  }

  // ----- the object

  /** The locks on its fields are held for the whole of each method, so that each runs as one step. */
  class ActiveSubscriptions {
    var headers: bool
    var scripts: set<ScriptHash>
    ghost var history: seq<SubOp>

    ghost predicate Valid()
      reads this
    {
      scripts == Active(history)
    }

    constructor ()
      ensures Valid() && !headers && scripts == {}
    {
      headers := false;
      scripts := {};
      history := [];
    }

    method SetHeaders(enabled: bool)
      requires Valid()
      modifies this`headers
      ensures Valid() && headers == enabled
    {
      headers := enabled;
    }

    /** The check and insertion of `script_subscribe`. */
    method Insert(script: ScriptHash) returns (r: SubscribeResult)
      requires Valid()
      modifies this`scripts, this`history
      ensures Valid() && history == old(history) + [Subscribe(script)]
      ensures r == if script in old(scripts) then AlreadySubscribed(script) else Subscribed
      ensures scripts == old(scripts) + {script}
    {
      ActiveNext(history, Subscribe(script));
      history := history + [Subscribe(script)];
      if script in scripts {
        assert scripts == scripts + {script};
        return AlreadySubscribed(script);
      }
      scripts := scripts + {script};
      r := Subscribed;
    }

    /** The check and removal of `script_unsubscribe`. */
    method Remove(script: ScriptHash) returns (r: SubscribeResult)
      requires Valid()
      modifies this`scripts, this`history
      ensures Valid() && history == old(history) + [Unsubscribe(script)]
      ensures r == if script in old(scripts) then Subscribed else NotSubscribed(script)
      ensures scripts == old(scripts) - {script}
    {
      ActiveNext(history, Unsubscribe(script));
      history := history + [Unsubscribe(script)];
      if script !in scripts {
        assert scripts == scripts - {script};
        return NotSubscribed(script);
      }
      scripts := scripts - {script};
      r := Subscribed;
    }

    /** The insertion loop of `batch_script_subscribe`: the number of scripts it gets through. */
    method InsertUntilConflict(batch: seq<ScriptHash>) returns (i: nat)
      modifies this`scripts
      ensures i <= |batch| && NoConflict(old(scripts), batch[..i])
      ensures i < |batch| ==> FirstConflict(old(scripts), batch, i)
      ensures scripts == old(scripts) + Elements(batch[..i])
    {
      ghost var active := scripts;
      i := 0;
      while i < |batch|
        invariant 0 <= i <= |batch|
        invariant NoConflict(active, batch[..i])
        invariant scripts == active + Elements(batch[..i])
      {
        var script := batch[i];
        if script in scripts {
          return;
        }
        assert batch[..i + 1] == batch[..i] + [script];
        scripts := scripts + {script};
        i := i + 1;
      }
    }

    /** The loop passes if and only if the scripts are distinct and new. Otherwise the
        call names the first conflict, and the scripts before that one stay in the set. */
    method InsertAll(batch: seq<ScriptHash>) returns (r: SubscribeResult)
      requires Valid()
      modifies this`scripts, this`history
      ensures Valid() && history == old(history) + [BatchSubscribe(batch)]
      ensures r == Subscribed <==> NoConflict(old(scripts), batch)
      ensures r == Subscribed ==> scripts == old(scripts) + Elements(batch)
      ensures r != Subscribed ==> StoppedByConflict(old(scripts), batch, scripts, r)
    {
      ghost var active := scripts;
      ActiveNext(history, BatchSubscribe(batch));
      history := history + [BatchSubscribe(batch)];
      var n := InsertUntilConflict(batch);
      if n < |batch| {
        ConflictLeaves(active, batch, n);
        r := AlreadySubscribed(batch[n]);
      } else {
        assert batch[..n] == batch;
        CleanBatchLeaves(active, batch);
        r := Subscribed;
      }
    }

    /** The active scripts in some order; the order is that of a hash set, here an input. */
    method Snapshot(order: seq<ScriptHash>) returns (r: seq<ScriptHash>)
      requires Valid()
      ensures forall s :: s in r <==> s in scripts
      ensures forall i, j | 0 <= i < j < |r| :: r[i] != r[j]
    {
      r := [];
      var rest := scripts;
      var i := 0;
      while i < |order|
        invariant 0 <= i <= |order|
        invariant rest <= scripts && (forall s :: s in r <==> s in scripts && s !in rest)
        invariant forall i, j | 0 <= i < j < |r| :: r[i] != r[j]
      {
        if order[i] in rest {
          r := r + [order[i]];
          rest := rest - {order[i]};
        }
        i := i + 1;
      }
      while rest != {}
        invariant rest <= scripts && (forall s :: s in r <==> s in scripts && s !in rest)
        invariant forall i, j | 0 <= i < j < |r| :: r[i] != r[j]
        decreases rest
      {
        var s :| s in rest;
        r := r + [s];
        rest := rest - {s};
      }
    }
  }
}
