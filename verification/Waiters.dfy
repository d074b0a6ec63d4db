/** Waiting for responses on the broadcast channel: `get_response` and
    `get_batch_response` as functions of what each poll of the channel sees.

    `log` is everything broadcast so far, `start` its length when the waiter
    subscribed, and `seen[k]` its length at the waiter's poll number `k`. The channel
    keeps the last 1024 notifications; a receiver that falls further behind gets an
    error instead of the next notification. */
module Waiters {
  import opened Base
  import opened Messages
  import opened Responses
  import opened Machine
  import opened Transmission

  const WINDOW := 1024

  /** The log has the lengths that the polls claim to have seen. */
  predicate SeenIn(log: seq<ClientNotification>, seen: seq<nat>) {
    forall k | 0 <= k < |seen| :: seen[k] <= |log|
  }

  predicate Lags(length: nat, cursor: nat) {
    length > cursor + WINDOW
  }

  // ----- one response

  datatype Wait =
    | Pending(cursor: nat)
    | Got(response: Response, at: nat)
    | Failed                           // the channel reported an error

  /** The waiter for `id` after all of the polls. */
  function Scan(log: seq<ClientNotification>, start: nat, id: usize, seen: seq<nat>): Wait
    requires SeenIn(log, seen)
  {
    if seen == [] then Pending(start)
    else
      match Scan(log, start, id, seen[..|seen| - 1])
      case Pending(cursor) => Look(log, seen[|seen| - 1], cursor, id)
      case done => done
  }

  /** One poll. */
  function Look(log: seq<ClientNotification>, length: nat, cursor: nat, id: usize): Wait
    requires length <= |log|
  {
    if Lags(length, cursor) then Failed
    else if cursor >= length then Pending(cursor)
    else if log[cursor].Answered? && log[cursor].id == id then Got(log[cursor].response, cursor)
    else Pending(cursor + 1)
  }

  predicate Quiet(log: seq<ClientNotification>, id: usize, from: nat, to: nat)
    requires to <= |log|
  {
    forall p | from <= p < to :: !(log[p].Answered? && log[p].id == id)
  }

  lemma {:induction false} ScanIsExact(log: seq<ClientNotification>, start: nat, id: usize, seen: seq<nat>)
    requires SeenIn(log, seen) && start <= |log|
    ensures match Scan(log, start, id, seen)
      case Pending(cursor) => start <= cursor <= |log| && Quiet(log, id, start, cursor)
      case Got(r, at) => start <= at < |log| && log[at] == Answered(id, r) && Quiet(log, id, start, at)
      case Failed => true
  {
    if seen != [] {
      ScanIsExact(log, start, id, seen[..|seen| - 1]);
    }
  }

  /** Later broadcasts do not change what earlier polls have led to. */
  lemma {:induction false} ScanStays(log: seq<ClientNotification>, more: seq<ClientNotification>, start: nat,
                                     id: usize, seen: seq<nat>)
    requires SeenIn(log, seen) && log <= more
    ensures SeenIn(more, seen) && Scan(more, start, id, seen) == Scan(log, start, id, seen)
  {
    if seen != [] {
      ScanStays(log, more, start, id, seen[..|seen| - 1]);
    }
  }

  /** The last poll was made because the waiter was still waiting. */
  predicate StillScanning(log: seq<ClientNotification>, start: nat, id: usize, seen: seq<nat>)
    requires SeenIn(log, seen)
  {
    seen != [] ==> Scan(log, start, id, seen[..|seen| - 1]).Pending?
  }

  /** One more poll, which sees the log at its present length. */
  lemma ScanMore(log: seq<ClientNotification>, more: seq<ClientNotification>, start: nat, id: usize, seen: seq<nat>)
    requires SeenIn(log, seen) && log <= more && Scan(log, start, id, seen).Pending?
    ensures SeenIn(more, seen + [|more|])
    ensures Scan(more, start, id, seen + [|more|]) == Look(more, |more|, Scan(log, start, id, seen).cursor, id)
    ensures StillScanning(more, start, id, seen + [|more|])
  {
    ScanStays(log, more, start, id, seen);
    assert (seen + [|more|])[..|seen|] == seen;
  }

  /** Once the response is in the log, every further poll that does not fail gets closer to it. */
  lemma {:induction false} ScanAdvances(log: seq<ClientNotification>, start: nat, id: usize, seen: seq<nat>, p: nat,
                                        early: nat)
    requires SeenIn(log, seen) && start <= p < |log| && Quiet(log, id, start, p)
    requires early <= |seen| && forall k | early <= k < |seen| :: p < seen[k]
    requires Scan(log, start, id, seen).Pending?
    ensures log[p].Answered? && log[p].id == id ==> Scan(log, start, id, seen).cursor <= p
    ensures log[p].Answered? && log[p].id == id ==> Scan(log, start, id, seen).cursor >= start + |seen| - early
  {
    ScanIsExact(log, start, id, seen);
    if |seen| > early {
      ScanAdvances(log, start, id, seen[..|seen| - 1], p, early);
    }
  }

  /** A waiter whose response `r` is broadcast at or after its subscription, and which
      polls often enough after that, ends up with exactly `r` unless a poll fails. */
  lemma ScanFinds(log: seq<ClientNotification>, start: nat, id: usize, seen: seq<nat>, p: nat, early: nat, r: Response)
    requires SeenIn(log, seen) && start <= p < |log| && log[p] == Answered(id, r)
    requires forall q | 0 <= q < |log| && q != p :: !(log[q].Answered? && log[q].id == id)
    requires early + (p - start) < |seen| && forall k | early <= k < |seen| :: p < seen[k]
    ensures Scan(log, start, id, seen) == Got(r, p) || Scan(log, start, id, seen) == Failed
  {
    ScanIsExact(log, start, id, seen);
    if Scan(log, start, id, seen).Pending? {
      ScanAdvances(log, start, id, seen, p, early);
    }
  }

  /** A poll fails exactly when more than a window of notifications lies between the waiter and the end of the log. */
  lemma {:induction false} ScanFailsIff(log: seq<ClientNotification>, start: nat, id: usize, seen: seq<nat>)
    requires SeenIn(log, seen)
    ensures Scan(log, start, id, seen) == Failed <==>
      exists k | 0 <= k < |seen| ::
        Scan(log, start, id, seen[..k]).Pending? && Lags(seen[k], Scan(log, start, id, seen[..k]).cursor)
  {
    if seen != [] {
      var n := |seen| - 1;
      var before := seen[..n];
      ScanFailsIff(log, start, id, before);
      forall k | 0 <= k < n ensures before[..k] == seen[..k] {}
      if k :| 0 <= k < |seen| && Scan(log, start, id, seen[..k]).Pending? && Lags(seen[k], Scan(log, start, id, seen[..k]).cursor) {
        if k < n {
          assert before[..k] == seen[..k] && before[k] == seen[k];
        }
      }
      if Scan(log, start, id, before) == Failed {
        var k :| 0 <= k < n && Scan(log, start, id, before[..k]).Pending? && Lags(before[k], Scan(log, start, id, before[..k]).cursor);
        assert seen[..k] == before[..k];
      }
    }
  }

  // ----- the responses of a batch

  datatype Item = Item(id: usize, response: Response)

  datatype Gathering =
    | Collecting(cursor: nat, missing: set<usize>, got: seq<Item>)
    | Complete(got: seq<Item>)
    | Cut(got: seq<Item>)              // the channel reported an error

  /** The waiter for the responses to `ids` after all of the polls. */
  function Gather(log: seq<ClientNotification>, start: nat, ids: set<usize>, seen: seq<nat>): Gathering
    requires SeenIn(log, seen)
  {
    if seen == [] then Collecting(start, ids, [])
    else
      match Gather(log, start, ids, seen[..|seen| - 1])
      case Collecting(cursor, missing, got) => Collect(log, seen[|seen| - 1], cursor, missing, got)
      case done => done
  }

  /** One poll. Whether anything is still missing is looked at only after a response, wanted or not. */
  function Collect(log: seq<ClientNotification>, length: nat, cursor: nat, missing: set<usize>,
                   got: seq<Item>): Gathering
    requires length <= |log|
  {
    if Lags(length, cursor) then Cut(got)
    else if cursor >= length then Collecting(cursor, missing, got)
    else if !log[cursor].Answered? then Collecting(cursor + 1, missing, got)
    else
      var id := log[cursor].id;
      var got1 := if id in missing then got + [Item(id, log[cursor].response)] else got;
      if missing - {id} == {} then Complete(got1) else Collecting(cursor + 1, missing - {id}, got1)
  }

  lemma {:induction false} GatherStays(log: seq<ClientNotification>, more: seq<ClientNotification>, start: nat,
                                       ids: set<usize>, seen: seq<nat>)
    requires SeenIn(log, seen) && log <= more
    ensures SeenIn(more, seen) && Gather(more, start, ids, seen) == Gather(log, start, ids, seen)
  {
    if seen != [] {
      GatherStays(log, more, start, ids, seen[..|seen| - 1]);
    }
  }

  /** The last poll was made because the waiter was still collecting. */
  predicate StillCollecting(log: seq<ClientNotification>, start: nat, ids: set<usize>, seen: seq<nat>)
    requires SeenIn(log, seen)
  {
    seen != [] ==> Gather(log, start, ids, seen[..|seen| - 1]).Collecting?
  }

  /** One more poll, which sees the log at its present length. */
  lemma GatherMore(log: seq<ClientNotification>, more: seq<ClientNotification>, start: nat, ids: set<usize>,
                   seen: seq<nat>)
    requires SeenIn(log, seen) && log <= more && Gather(log, start, ids, seen).Collecting?
    ensures SeenIn(more, seen + [|more|])
    ensures var g := Gather(log, start, ids, seen);
      Gather(more, start, ids, seen + [|more|]) == Collect(more, |more|, g.cursor, g.missing, g.got)
    ensures StillCollecting(more, start, ids, seen + [|more|])
  {
    GatherStays(log, more, start, ids, seen);
    assert (seen + [|more|])[..|seen|] == seen;
  }

  function IdsOf(got: seq<Item>): set<usize> {
    set i | 0 <= i < |got| :: got[i].id
  }

  function AsNotifications(got: seq<Item>): (ns: seq<ClientNotification>)
    ensures |ns| == |got|
  {
    seq(|got|, i requires 0 <= i < |got| => Answered(got[i].id, got[i].response))
  }

  /** What was collected answers distinct ids, and lies in the log in the order of arrival. */
  ghost predicate GotOk(log: seq<ClientNotification>, got: seq<Item>, to: nat)
    requires to <= |log|
  {
    && (forall i, j | 0 <= i < j < |got| :: got[i].id != got[j].id)
    && Subsequence(AsNotifications(got), log[..to])
  }

  lemma EmptyGotOk(log: seq<ClientNotification>, to: nat)
    requires to <= |log|
    ensures GotOk(log, [], to)
  {
    var f: seq<nat> := [];
    assert Embeds(AsNotifications([]), log[..to], f);
  }

  lemma GotMore(log: seq<ClientNotification>, got: seq<Item>, to: nat, take: bool)
    requires to < |log| && GotOk(log, got, to)
    requires take ==> log[to].Answered? && log[to].id !in IdsOf(got)
    ensures GotOk(log, if take then got + [Item(log[to].id, log[to].response)] else got, to + 1)
  {
    var a, b := AsNotifications(got), log[..to];
    var n := if take then 1 else 0;
    SubsequenceGrows(a, b, [log[to]], n);
    assert log[..to + 1] == b + [log[to]];
    if take {
      var got1 := got + [Item(log[to].id, log[to].response)];
      assert AsNotifications(got1) == a + [log[to]][..1];
      forall i | 0 <= i < |got| ensures got[i].id != log[to].id { assert got[i].id in IdsOf(got); }
    } else {
      assert a + [log[to]][..0] == a;
    }
  }

  /** Collected and missing ids partition the requested set at every moment, and a
      complete collection misses none. */
  lemma {:induction false} GatherIsExact(log: seq<ClientNotification>, start: nat, ids: set<usize>, seen: seq<nat>)
    requires SeenIn(log, seen) && start <= |log|
    ensures match Gather(log, start, ids, seen)
      case Collecting(cursor, missing, got) =>
        cursor <= |log| && GotOk(log, got, cursor) && IdsOf(got) !! missing && IdsOf(got) + missing == ids
      case Complete(got) => GotOk(log, got, |log|) && IdsOf(got) == ids
      case Cut(got) => GotOk(log, got, |log|) && IdsOf(got) <= ids
  {
    if seen == [] {
      EmptyGotOk(log, start);
    } else {
      var before := seen[..|seen| - 1];
      GatherIsExact(log, start, ids, before);
      match Gather(log, start, ids, before)
      case Collecting(cursor, missing, got) => CollectIsExact(log, seen[|seen| - 1], cursor, ids, missing, got);
      case _ =>
    }
  }

  lemma CollectIsExact(log: seq<ClientNotification>, length: nat, cursor: nat, ids: set<usize>, missing: set<usize>,
                       got: seq<Item>)
    requires length <= |log| && cursor <= |log| && GotOk(log, got, cursor)
    requires IdsOf(got) !! missing && IdsOf(got) + missing == ids
    ensures match Collect(log, length, cursor, missing, got)
      case Collecting(c, m, g) => c <= |log| && GotOk(log, g, c) && IdsOf(g) !! m && IdsOf(g) + m == ids
      case Complete(g) => GotOk(log, g, |log|) && IdsOf(g) == ids
      case Cut(g) => GotOk(log, g, |log|) && IdsOf(g) <= ids
  {
    if Lags(length, cursor) {
      GotWider(log, got, cursor);
    } else if cursor < length {
      var n := log[cursor];
      var take := n.Answered? && n.id in missing;
      GotMore(log, got, cursor, take);
      if take {
        IdsOfMore(got, Item(n.id, n.response));
        GotWider(log, got + [Item(n.id, n.response)], cursor + 1);
      } else {
        assert n.Answered? ==> missing - {n.id} == missing;
        GotWider(log, got, cursor + 1);
      }
    }
  }

  /** A waiter that is still collecting has looked at everything before its cursor: no
      response there is one it still misses, and there is none at all if it misses nothing. */
  lemma {:induction false} CollectingHasLooked(log: seq<ClientNotification>, start: nat, ids: set<usize>,
                                               seen: seq<nat>)
    requires SeenIn(log, seen) && start <= |log| && Gather(log, start, ids, seen).Collecting?
    ensures var g := Gather(log, start, ids, seen);
      && start <= g.cursor <= |log|
      && forall p | start <= p < g.cursor && log[p].Answered? :: log[p].id !in g.missing && g.missing != {}
  {
    if seen != [] {
      CollectingHasLooked(log, start, ids, seen[..|seen| - 1]);
    }
  }

  lemma {:induction false} GatherAdvances(log: seq<ClientNotification>, start: nat, ids: set<usize>, seen: seq<nat>,
                                          p: nat, early: nat)
    requires SeenIn(log, seen) && early <= |seen| && forall k | early <= k < |seen| :: p < seen[k]
    requires Gather(log, start, ids, seen).Collecting? && start <= |log|
    ensures var c := Gather(log, start, ids, seen).cursor; c > p || c >= start + |seen| - early
  {
    CollectingHasLooked(log, start, ids, seen);
    if |seen| > early {
      GatherAdvances(log, start, ids, seen[..|seen| - 1], p, early);
    }
  }

  /** A waiter whose responses are all broadcast at or after its subscription, the last
      of them at `p`, and which polls often enough after that, is done. For an empty set
      of ids this takes some response to anybody at `p`. */
  lemma GatherFinds(log: seq<ClientNotification>, start: nat, ids: set<usize>, seen: seq<nat>, p: nat, early: nat)
    requires SeenIn(log, seen) && start <= p < |log| && log[p].Answered?
    requires forall id | id in ids :: exists q | start <= q <= p :: log[q].Answered? && log[q].id == id
    requires early + (p - start) < |seen| && forall k | early <= k < |seen| :: p < seen[k]
    ensures !Gather(log, start, ids, seen).Collecting?
  {
    var g := Gather(log, start, ids, seen);
    if g.Collecting? {
      CollectingHasLooked(log, start, ids, seen);
      GatherAdvances(log, start, ids, seen, p, early);
      GatherIsExact(log, start, ids, seen);
    }
  }

  /** At its poll number `k` the batch waiter still collects, and more than a window of
      notifications lies between it and the end of the log. */
  predicate LagsAt(log: seq<ClientNotification>, start: nat, ids: set<usize>, seen: seq<nat>, k: nat)
    requires SeenIn(log, seen) && k < |seen|
  {
    var g := Gather(log, start, ids, seen[..k]);
    g.Collecting? && Lags(seen[k], g.cursor)
  }

  /** A batch waiter is cut off exactly when it lags at some poll. */
  lemma {:induction false} GatherCutsIff(log: seq<ClientNotification>, start: nat, ids: set<usize>, seen: seq<nat>)
    requires SeenIn(log, seen)
    ensures Gather(log, start, ids, seen).Cut? <==> exists k | 0 <= k < |seen| :: LagsAt(log, start, ids, seen, k)
  {
    if seen != [] {
      var n := |seen| - 1;
      var before := seen[..n];
      GatherCutsIff(log, start, ids, before);
      forall k | 0 <= k < n ensures LagsAt(log, start, ids, before, k) <==> LagsAt(log, start, ids, seen, k) {
        assert before[..k] == seen[..k];
      }
      if Gather(log, start, ids, before).Cut? {
        var k :| 0 <= k < n && LagsAt(log, start, ids, before, k);
        assert LagsAt(log, start, ids, seen, k);
      } else {
        assert LagsAt(log, start, ids, seen, n) <==> Gather(log, start, ids, seen).Cut?;
      }
    }
  }

  /** A waiter that wants something and is still collecting misses something. */
  lemma {:induction false} CollectingMisses(log: seq<ClientNotification>, start: nat, ids: set<usize>, seen: seq<nat>)
    requires SeenIn(log, seen) && ids != {} && Gather(log, start, ids, seen).Collecting?
    ensures Gather(log, start, ids, seen).missing != {}
  {
    if seen != [] {
      CollectingMisses(log, start, ids, seen[..|seen| - 1]);
    }
  }

  /** A collection that was cut off is short. */
  lemma {:induction false} CutIsShort(log: seq<ClientNotification>, start: nat, ids: set<usize>, seen: seq<nat>)
    requires SeenIn(log, seen) && start <= |log| && ids != {} && Gather(log, start, ids, seen).Cut?
    ensures IdsOf(Gather(log, start, ids, seen).got) < ids
  {
    var before := seen[..|seen| - 1];
    var g := Gather(log, start, ids, before);
    if g.Cut? {
      CutIsShort(log, start, ids, before);
    } else {
      GatherIsExact(log, start, ids, before);
      CollectingMisses(log, start, ids, before);
    }
  }

  // ----- an input at which both kinds of waiter lose a response

  /** A response, and 1024 other notifications after it. */
  function BusyLog(id: usize, r: Response): (log: seq<ClientNotification>)
    ensures |log| == WINDOW + 1 && log[0] == Answered(id, r)
  {
    [Answered(id, r)] + seq(WINDOW, _ => StopNotified)
  }

  /** A waiter that is resumed for the first time when 1025 notifications have been
      broadcast since its subscription gets nothing, although the first of them was its
      response; one notification earlier it would have got it. */
  lemma LaggingWaiterLoses(id: usize, r: Response)
    ensures SeenIn(BusyLog(id, r), [WINDOW + 1]) && SeenIn(BusyLog(id, r), [WINDOW])
    ensures Scan(BusyLog(id, r), 0, id, [WINDOW + 1]) == Failed
    ensures Gather(BusyLog(id, r), 0, {id}, [WINDOW + 1]) == Cut([])
    ensures Scan(BusyLog(id, r), 0, id, [WINDOW]) == Got(r, 0)
    ensures Gather(BusyLog(id, r), 0, {id}, [WINDOW]) == Complete([Item(id, r)])
  {
    var log := BusyLog(id, r);
    assert [WINDOW + 1][..0] == [] && [WINDOW][..0] == [];
    assert Scan(log, 0, id, []) == Pending(0) && Gather(log, 0, {id}, []) == Collecting(0, {id}, []);
    assert {id} - {id} == {};
  }

  lemma IdsOfMore(got: seq<Item>, item: Item)
    ensures IdsOf(got + [item]) == IdsOf(got) + {item.id}
  {
    var more := got + [item];
    forall i | 0 <= i < |got| ensures more[i].id in IdsOf(more) {}
    forall id | id in IdsOf(got) + {item.id} ensures id in IdsOf(more) {
      if id == item.id {
        assert more[|got|] == item;
      } else {
        var i :| 0 <= i < |got| && got[i].id == id;
        assert more[i].id == id;
      }
    }
  }

  lemma GotWider(log: seq<ClientNotification>, got: seq<Item>, to: nat)
    requires to <= |log| && GotOk(log, got, to)
    ensures GotOk(log, got, |log|)
  {
    var a := AsNotifications(got);
    SubsequenceGrows(a, log[..to], log[to..], 0);
    assert a + log[to..][..0] == a && log[..to] + log[to..] == log && log[..|log|] == log;
  }
}
