/** Where every id is: drawn and held by one call, pending in the inventory, or retired. */
module Ids {
  import opened Base
  import opened Messages
  import opened Machine
  import opened Frames

  /** The call `c` holds the id it has drawn, and nobody has recorded that id. */
  predicate HoldsFresh(s: State, c: CallId)
    requires c in s.calls
  {
    var held := s.calls[c].Held();
    held.Some? ==> held.value < |s.issued| && s.issued[held.value] == c && held.value !in s.inserted
  }

  predicate HeldByDrawer(s: State, id: usize)
    requires id < |s.issued|
  {
    var c := s.issued[id];
    c in s.calls && s.calls[c].Held() == Some(id)
  }

  /** The call `c` drew the ids it has recorded, in increasing order, and recorded
      its own requests under them; the one it still holds is higher. */
  predicate RecordsOwn(s: State, c: CallId)
    requires c in s.calls
  {
    var items := s.calls[c].Recorded();
    && (forall i | 0 <= i < |items| ::
          && items[i].id < |s.issued| && s.issued[items[i].id] == c
          && items[i].id in s.inserted && s.inserted[items[i].id] == items[i].req)
    && (forall i, j | 0 <= i < j < |items| :: items[i].id < items[j].id)
    && (s.calls[c].Held().Some? ==> forall i | 0 <= i < |items| :: items[i].id < s.calls[c].Held().value)
  }

  ghost predicate CounterOk(s: State) {
    s.lastId == |s.issued| % WORD
  }

  ghost predicate Held(s: State) {
    && (forall c | c in s.calls :: HoldsFresh(s, c))
    && (forall id: usize | id < |s.issued| && id !in s.inserted :: HeldByDrawer(s, id))
  }

  ghost predicate Recorded(s: State) {
    && (forall c | c in s.calls :: RecordsOwn(s, c))
    && (forall id | id in s.inserted :: id < |s.issued|)
  }

  ghost predicate Stored(s: State) {
    && s.inventory.Keys !! s.retired.Keys
    && s.inventory.Keys + s.retired.Keys == s.inserted.Keys
    && (forall id | id in s.inventory :: s.inserted[id] == s.inventory[id])
  }

  /** Only the batch that fills the inventory holds its lock. */
  ghost predicate Locked(s: State) {
    && (s.lock.Some? ==> s.lock.value in s.calls && s.calls[s.lock.value].Filling?)
    && (forall c | c in s.calls && s.calls[c].Filling? :: s.lock == Some(c))
  }

  ghost predicate IdsOk(s: State) {
    CounterOk(s) && Held(s) && Recorded(s) && Stored(s) && Locked(s)
  }

  // ----- one call changes, the others stay

  /** The record of draws and insertions only grows. */
  ghost predicate Grows(s: State, t: State) {
    && |s.issued| <= |t.issued|
    && (forall i | 0 <= i < |s.issued| :: t.issued[i] == s.issued[i])
    && (forall id | id in s.inserted :: id in t.inserted && t.inserted[id] == s.inserted[id])
  }

  /** At most the call `c` differs, and it is present afterwards. */
  ghost predicate OnlyCall(s: State, t: State, c: CallId) {
    c in t.calls && t.calls == s.calls[c := t.calls[c]]
  }

  function HeldOf(s: State, c: CallId): Option<usize> {
    if c in s.calls then s.calls[c].Held() else None
  }

  function RecordedOf(s: State, c: CallId): seq<Entry> {
    if c in s.calls then s.calls[c].Recorded() else []
  }

  lemma QuietHeld(s: State, t: State, c: CallId)
    requires Held(s) && OnlyCall(s, t, c) && t.issued == s.issued && t.inserted == s.inserted
    requires t.calls[c].Held() == HeldOf(s, c)
    ensures Held(t)
  {
    forall d | d in t.calls ensures HoldsFresh(t, d) {
      if d in s.calls { assert HoldsFresh(s, d); }
    }
    forall id: usize | id < |t.issued| && id !in t.inserted ensures HeldByDrawer(t, id) {
      assert HeldByDrawer(s, id);
    }
  }

  lemma DrawHeld(s: State, t: State, c: CallId)
    requires Held(s) && OnlyCall(s, t, c) && t.issued == s.issued + [c] && t.inserted == s.inserted
    requires HeldOf(s, c) == None && |s.issued| < WORD && t.calls[c].Held() == Some(|s.issued|)
    requires forall id | id in s.inserted :: id < |s.issued|
    ensures Held(t)
  {
    forall d | d in t.calls ensures HoldsFresh(t, d) {
      if d != c { assert HoldsFresh(s, d); }
    }
    forall id: usize | id < |t.issued| && id !in t.inserted ensures HeldByDrawer(t, id) {
      if id < |s.issued| { assert HeldByDrawer(s, id); }
    }
  }

  lemma RecordHeld(s: State, t: State, c: CallId, e: Entry)
    requires Held(s) && OnlyCall(s, t, c) && t.issued == s.issued && t.inserted == s.inserted[e.id := e.req]
    requires HeldOf(s, c) == Some(e.id) && t.calls[c].Held() == None
    ensures Held(t)
  {
    assert HoldsFresh(s, c);
    forall d | d in t.calls ensures HoldsFresh(t, d) {
      if d != c { assert HoldsFresh(s, d); }
    }
    forall id: usize | id < |t.issued| && id !in t.inserted ensures HeldByDrawer(t, id) {
      assert HeldByDrawer(s, id);
    }
  }

  lemma OwnRecordsStay(s: State, t: State, c: CallId)
    requires c in s.calls && c in t.calls && RecordsOwn(s, c) && Grows(s, t)
    requires t.calls[c].Recorded() == s.calls[c].Recorded()
    requires t.calls[c].Held() == s.calls[c].Held() || t.calls[c].Held() == None
    ensures RecordsOwn(t, c)
  {
  }

  lemma OthersStay(s: State, t: State, c: CallId)
    requires Recorded(s) && Grows(s, t) && OnlyCall(s, t, c)
    requires RecordsOwn(t, c)
    requires forall id | id in t.inserted :: id in s.inserted || id < |t.issued|
    ensures Recorded(t)
  {
    forall d | d in t.calls ensures RecordsOwn(t, d) {
      if d != c {
        assert RecordsOwn(s, d);
        OwnRecordsStay(s, t, d);
      }
    }
  }

  lemma QuietRecorded(s: State, t: State, c: CallId)
    requires Recorded(s) && OnlyCall(s, t, c) && t.issued == s.issued && t.inserted == s.inserted
    requires t.calls[c].Recorded() == RecordedOf(s, c)
    requires t.calls[c].Held() == HeldOf(s, c)
    ensures Recorded(t)
  {
    if c in s.calls {
      assert RecordsOwn(s, c);
      OwnRecordsStay(s, t, c);
    }
    OthersStay(s, t, c);
  }

  lemma DrawRecorded(s: State, t: State, c: CallId)
    requires Recorded(s) && OnlyCall(s, t, c) && t.issued == s.issued + [c] && t.inserted == s.inserted
    requires t.calls[c].Recorded() == RecordedOf(s, c) && t.calls[c].Held() == Some(|s.issued|)
    ensures Recorded(t)
  {
    if c in s.calls {
      assert RecordsOwn(s, c);
    }
    OthersStay(s, t, c);
  }

  lemma RecordRecorded(s: State, t: State, c: CallId, e: Entry)
    requires Recorded(s) && Held(s) && OnlyCall(s, t, c)
    requires t.issued == s.issued && t.inserted == s.inserted[e.id := e.req]
    requires HeldOf(s, c) == Some(e.id) && t.calls[c].Held() == None
    requires t.calls[c].Recorded() == RecordedOf(s, c) + [e]
    ensures Recorded(t)
  {
    assert HoldsFresh(s, c) && RecordsOwn(s, c);
    OthersStay(s, t, c);
  }

  lemma RecordStored(s: State, t: State, c: CallId, e: Entry)
    requires Stored(s) && Held(s) && HeldOf(s, c) == Some(e.id)
    requires t.inventory == s.inventory[e.id := e.req] && t.inserted == s.inserted[e.id := e.req]
    requires t.retired == s.retired
    ensures Stored(t)
  {
    assert HoldsFresh(s, c);
    assert e.id !in s.inventory.Keys + s.retired.Keys;
  }

  /** A draw below the word size yields an id that was never drawn before. */
  lemma DrawIsFresh(s: State)
    requires CounterOk(s) && |s.issued| < WORD
    ensures s.lastId == |s.issued|
  {
  }

  // ----- steps

  /** The bound under which the counter has not wrapped around. */
  ghost predicate InBound(s: State) {
    |s.issued| <= WORD
  }

  /** The step draws an id for `c`. */
  ghost predicate Draws(s: State, t: State, c: CallId) {
    && OnlyCall(s, t, c) && t.issued == s.issued + [c] && t.inserted == s.inserted
    && HeldOf(s, c) == None && t.calls[c].Held() == Some(s.lastId)
    && t.calls[c].Recorded() == RecordedOf(s, c)
    && t.lastId == (s.lastId + 1) % WORD && t.inventory == s.inventory
  }

  /** The step records under the id that `c` holds. */
  ghost predicate Records(s: State, t: State, c: CallId, e: Entry) {
    && OnlyCall(s, t, c) && t.issued == s.issued && t.inserted == s.inserted[e.id := e.req]
    && HeldOf(s, c) == Some(e.id) && t.calls[c].Held() == None
    && t.calls[c].Recorded() == RecordedOf(s, c) + [e]
    && t.lastId == s.lastId && t.inventory == s.inventory[e.id := e.req]
  }

  ghost predicate Quiet(s: State, t: State, c: CallId) {
    && OnlyCall(s, t, c) && t.issued == s.issued && t.inserted == s.inserted
    && t.calls[c].Held() == HeldOf(s, c) && t.calls[c].Recorded() == RecordedOf(s, c)
    && t.lastId == s.lastId && t.inventory == s.inventory
  }

  predicate DrawsId(step: Step) {
    step.Reserve? || step.BatchDraw?
  }

  predicate Inserts(step: Step) {
    step.Insert? || step.BatchInsert?
  }

  /** What a recording step records. */
  function EntryOf(s: State, step: Step): Entry
    requires CallerEnabled(s, step) && Inserts(step)
  {
    if step.Insert? then s.calls[step.c].entry else NextEntry(s.calls[step.c])
  }

  ghost predicate CallerEffect(s: State, t: State, step: Step)
    requires CallerEnabled(s, step)
  {
    if DrawsId(step) then Draws(s, t, step.c)
    else if Inserts(step) then Records(s, t, step.c, EntryOf(s, step))
    else Quiet(s, t, step.c)
  }

  lemma DrawEffect(s: State, step: Step)
    requires CallerEnabled(s, step) && DrawsId(step)
    ensures Draws(s, ApplyCaller(s, step), step.c)
  {
  }

  lemma InsertEffect(s: State, step: Step)
    requires CallerEnabled(s, step) && Inserts(step)
    ensures Records(s, ApplyCaller(s, step), step.c, EntryOf(s, step))
  {
  }

  lemma QuietEffect(s: State, step: Step)
    requires CallerEnabled(s, step) && !DrawsId(step) && !Inserts(step)
    ensures Quiet(s, ApplyCaller(s, step), step.c)
  {
    if step.TrySend? {
      OfferFrame(s, step.c, s.calls[step.c].sub.Event());
    }
  }

  lemma CallerHasEffect(s: State, step: Step)
    requires CallerEnabled(s, step)
    ensures CallerEffect(s, ApplyCaller(s, step), step)
  {
    if DrawsId(step) {
      DrawEffect(s, step);
    } else if Inserts(step) {
      InsertEffect(s, step);
    } else {
      QuietEffect(s, step);
    }
  }

  lemma CallerKeepsHeld(s: State, t: State, step: Step)
    requires IdsOk(s) && CallerEnabled(s, step) && CallerEffect(s, t, step) && InBound(t)
    ensures Held(t) && Recorded(t)
  {
    if DrawsId(step) {
      DrawIsFresh(s);
      DrawHeld(s, t, step.c);
      DrawRecorded(s, t, step.c);
    } else if Inserts(step) {
      RecordHeld(s, t, step.c, EntryOf(s, step));
      RecordRecorded(s, t, step.c, EntryOf(s, step));
    } else {
      QuietHeld(s, t, step.c);
      QuietRecorded(s, t, step.c);
    }
  }

  lemma CallerKeepsStored(s: State, t: State, step: Step)
    requires Held(s) && Stored(s) && t.retired == s.retired
    requires CallerEnabled(s, step) && CallerEffect(s, t, step)
    ensures Stored(t)
  {
    if Inserts(step) {
      RecordStored(s, t, step.c, EntryOf(s, step));
    }
  }

  lemma CallerKeepsCounter(s: State, t: State, step: Step)
    requires CounterOk(s) && CallerEnabled(s, step) && CallerEffect(s, t, step)
    ensures CounterOk(t)
  {
  }

  /** Apart from taking and releasing the lock, a step changes neither the lock nor who needs it. */
  lemma LockRests(s: State, step: Step)
    requires CallerEnabled(s, step) && !step.BatchLock? && !step.BatchUnlock?
    ensures var t := ApplyCaller(s, step);
      && t.lock == s.lock && OnlyCall(s, t, step.c)
      && (t.calls[step.c].Filling? <==> step.c in s.calls && s.calls[step.c].Filling?)
  {
    if step.TrySend? {
      OfferFrame(s, step.c, s.calls[step.c].sub.Event());
    }
  }

  lemma CallerKeepsLocked(s: State, step: Step)
    requires Locked(s) && CallerEnabled(s, step)
    ensures Locked(ApplyCaller(s, step))
  {
    if !step.BatchLock? && !step.BatchUnlock? {
      LockRests(s, step);
    }
  }

  lemma CallerKeepsIds(s: State, step: Step)
    requires IdsOk(s) && CallerEnabled(s, step) && InBound(ApplyCaller(s, step))
    ensures IdsOk(ApplyCaller(s, step))
  {
    CallerHasEffect(s, step);
    CallerKeepsHeld(s, ApplyCaller(s, step), step);
    CallerFrame(s, step);
    CallerKeepsStored(s, ApplyCaller(s, step), step);
    CallerKeepsCounter(s, ApplyCaller(s, step), step);
    CallerKeepsLocked(s, step);
  }

  lemma SameHeld(s: State, t: State)
    requires Held(s) && SameCalls(s, t)
    ensures Held(t)
  {
    forall d | d in t.calls ensures HoldsFresh(t, d) { assert HoldsFresh(s, d); }
    forall id: usize | id < |t.issued| && id !in t.inserted ensures HeldByDrawer(t, id) { assert HeldByDrawer(s, id); }
  }

  lemma SameRecorded(s: State, t: State)
    requires Recorded(s) && SameCalls(s, t)
    ensures Recorded(t)
  {
    forall d | d in t.calls ensures RecordsOwn(t, d) { assert RecordsOwn(s, d); }
  }

  lemma SameKeep(s: State, t: State)
    requires IdsOk(s) && SameCalls(s, t) && Stored(t)
    ensures IdsOk(t)
  {
    SameHeld(s, t);
    SameRecorded(s, t);
  }

  lemma RetireStored(s: State, t: State, id: usize, r: Retirement)
    requires Stored(s) && id in s.inventory && t.inserted == s.inserted
    requires t.inventory == s.inventory - {id} && t.retired == s.retired[id := r]
    ensures Stored(t)
  {
    assert t.inventory.Keys + t.retired.Keys == s.inventory.Keys + s.retired.Keys;
  }

  /** A line either leaves the store alone or moves one id from the inventory to the retired ones. */
  lemma LineKeepsStored(s: State, k: nat, line: Line, e: LineEffect)
    requires Stored(s) && k < |s.conns| && (e.Retires? ==> e.id in s.inventory)
    ensures SameCalls(s, Receive(s, k, line, e)) && Stored(Receive(s, k, line, e))
  {
    if e.Retires? {
      var t := Receive(s, k, line, e);
      RetireStored(s, t, e.id, t.retired[e.id]);
    }
  }

  lemma ReceiverKeepsStored(s: State, step: Step)
    requires Stored(s) && ReceiverEnabled(s, step)
    ensures SameCalls(s, ApplyReceiver(s, step)) && Stored(ApplyReceiver(s, step))
  {
    if step.ReceiveLine? {
      LineKeepsStored(s, step.k, step.line, Effect(s.inventory, step.line));
    }
  }

  lemma StepKeepsIds(s: State, step: Step)
    requires IdsOk(s) && Enabled(s, step) && InBound(Apply(s, step))
    ensures IdsOk(Apply(s, step))
  {
    var t := Apply(s, step);
    if step.Caller() {
      CallerKeepsIds(s, step);
    } else if step.Sender() {
      SenderFrame(s, step);
      SameKeep(s, t);
    } else if step.Receiver() {
      ReceiverKeepsStored(s, step);
      SameKeep(s, t);
    } else {
      ControlFrame(s, step);
      SameKeep(s, t);
    }
  }
}
