/** Which responses have been published, and for which lines. */
module Publishing {
  import opened Base
  import opened Messages
  import opened Responses
  import opened Machine
  import opened Frames
  import opened Ids

  /** A line read against two stores that agree on its id has the same effect. */
  lemma EffectAgrees(m: map<usize, Request>, n: map<usize, Request>, line: Line)
    requires var e := Effect(m, line); e.Retires? && e.id in n && n[e.id] == m[e.id]
    ensures Effect(n, line) == Effect(m, line)
  {
  }

  /** A retired id was retired by a line that answers the request recorded under it,
      and what was published is what that line reads as. */
  ghost predicate RetiredBy(s: State, id: usize, r: Retirement) {
    && id in s.inserted && r.line < |s.received|
    && Effect(s.inserted, s.received[r.line]) == Retires(id, r.published)
  }

  /** What an id was retired with is in the log of notifications. */
  ghost predicate Logged(s: State, id: usize, r: Retirement) {
    r.published.Some? ==> r.at < |s.notifs| && s.notifs[r.at] == Answered(id, r.published.value)
  }

  /** A published response is the one that its id was retired with. */
  ghost predicate PublishedAt(s: State, p: nat)
    requires p < |s.notifs|
  {
    s.notifs[p].Answered? ==>
      s.notifs[p].id in s.retired && s.retired[s.notifs[p].id].published.Some? && s.retired[s.notifs[p].id].at == p
  }

  ghost predicate RetiredOk(s: State) {
    forall id | id in s.retired :: RetiredBy(s, id, s.retired[id])
  }

  ghost predicate LogOk(s: State) {
    && (forall id | id in s.retired :: Logged(s, id, s.retired[id]))
    && (forall p | 0 <= p < |s.notifs| :: PublishedAt(s, p))
  }

  ghost predicate PublishOk(s: State) {
    RetiredOk(s) && LogOk(s)
  }

  ghost predicate RecordGrows(s: State, t: State) {
    && (forall id | id in s.inserted :: id in t.inserted && t.inserted[id] == s.inserted[id])
    && s.received <= t.received
  }

  lemma RetirementStays(s: State, t: State, id: usize, r: Retirement)
    requires RecordGrows(s, t) && RetiredBy(s, id, r)
    ensures RetiredBy(t, id, r)
  {
    EffectAgrees(s.inserted, t.inserted, s.received[r.line]);
  }

  lemma RetiredStay(s: State, t: State)
    requires RetiredOk(s) && RecordGrows(s, t)
    requires forall id | id in t.retired ::
      (id in s.retired && t.retired[id] == s.retired[id]) || RetiredBy(t, id, t.retired[id])
    ensures RetiredOk(t)
  {
    forall id | id in t.retired && id in s.retired && t.retired[id] == s.retired[id]
      ensures RetiredBy(t, id, t.retired[id])
    {
      RetirementStays(s, t, id, s.retired[id]);
    }
  }

  lemma NoNewAnswer(s: State, t: State)
    requires PublishOk(s) && RecordGrows(s, t) && t.retired == s.retired && s.notifs <= t.notifs
    requires forall p | |s.notifs| <= p < |t.notifs| :: !t.notifs[p].Answered?
    ensures PublishOk(t)
  {
    RetiredStay(s, t);
    forall p | 0 <= p < |t.notifs| ensures PublishedAt(t, p) {
      if p < |s.notifs| { assert PublishedAt(s, p); }
    }
  }

  lemma OneLogged(s: State, t: State, id: usize, r: Retirement)
    requires LogOk(s) && id !in s.retired && t.retired == s.retired[id := r]
    requires t.notifs == s.notifs + AnswerFor(id, r.published) && r.at == |s.notifs|
    ensures LogOk(t)
  {
    forall d | d in t.retired ensures Logged(t, d, t.retired[d]) {
      if d != id { assert Logged(s, d, s.retired[d]); }
    }
    forall p | 0 <= p < |t.notifs| ensures PublishedAt(t, p) {
      if p < |s.notifs| { assert PublishedAt(s, p); }
    }
  }

  lemma LineKeepsPublish(s: State, k: nat, line: Line, e: LineEffect)
    requires PublishOk(s) && Stored(s) && k < |s.conns| && e == Effect(s.inventory, line)
    ensures PublishOk(Receive(s, k, line, e))
  {
    var t := Receive(s, k, line, e);
    LineFrame(s, k, line, e);
    if e.Retires? {
      EffectAgrees(s.inventory, s.inserted, line);
      assert t.received[|s.received|] == line;
      RetiredStay(s, t);
      OneLogged(s, t, e.id, t.retired[e.id]);
    } else {
      NoNewAnswer(s, t);
    }
  }

  lemma RecordingGrows(s: State, t: State, step: Step)
    requires Held(s) && CallerEnabled(s, step) && CallerEffect(s, t, step)
    ensures forall id | id in s.inserted :: id in t.inserted && t.inserted[id] == s.inserted[id]
  {
    if Inserts(step) {
      assert HoldsFresh(s, step.c);
    }
  }

  lemma StepKeepsPublish(s: State, step: Step)
    requires PublishOk(s) && IdsOk(s) && Enabled(s, step)
    ensures PublishOk(Apply(s, step))
  {
    var t := Apply(s, step);
    if step.Caller() {
      CallerFrame(s, step);
      CallerHasEffect(s, step);
      RecordingGrows(s, t, step);
      NoNewAnswer(s, t);
    } else if step.Sender() {
      SenderFrame(s, step);
      SenderNotifs(s, step);
      NoNewAnswer(s, t);
    } else if step.ReceiveLine? {
      LineKeepsPublish(s, step.k, step.line, Effect(s.inventory, step.line));
    } else if step.Receiver() {
      NoNewAnswer(s, t);
    } else {
      ControlFrame(s, step);
      NoNewAnswer(s, t);
    }
  }

  // ----- what this means for callers

  /** At most one response is ever published under an id. */
  lemma AtMostOnce(s: State, p: nat, q: nat)
    requires PublishOk(s) && p < |s.notifs| && q < |s.notifs|
    requires s.notifs[p].Answered? && s.notifs[q].Answered? && s.notifs[p].id == s.notifs[q].id
    ensures p == q
  {
    assert PublishedAt(s, p) && PublishedAt(s, q);
  }

  /** A published response is the typed reading of a line that was received, against
      the very request recorded under its id, and has the variant that request is
      answered with. */
  lemma PublishedIsTyped(s: State, p: nat)
    requires PublishOk(s) && p < |s.notifs| && s.notifs[p].Answered?
    ensures var id, r := s.notifs[p].id, s.notifs[p].response;
      && id in s.retired && id in s.inserted
      && s.retired[id].line < |s.received|
      && var line := s.received[s.retired[id].line];
        && line.Json? && Decode(line.doc).Some? && Decode(line.doc).value.Response? && Decode(line.doc).value.id == id
        && ToResponse(Decode(line.doc).value, s.inserted[id]) == Typed(r)
        && Answers(r, s.inserted[id])
  {
    var id := s.notifs[p].id;
    assert PublishedAt(s, p);
    assert RetiredBy(s, id, s.retired[id]) && Logged(s, id, s.retired[id]);
    var line := s.received[s.retired[id].line];
    PublishedAnswers(line.doc, s.inserted[id], s.notifs[p].response);
  }

  /** A retired id has a published response if and only if the line that retired it
      reads as a typed response other than null. */
  lemma PublishedIff(s: State, id: usize)
    requires PublishOk(s) && id in s.retired
    ensures RetiredBy(s, id, s.retired[id])
    ensures (exists p | 0 <= p < |s.notifs| :: s.notifs[p].Answered? && s.notifs[p].id == id)
        <==> Publishable(DecodeLine(s.received[s.retired[id].line]).value, s.inserted[id]).Some?
  {
    var r := s.retired[id];
    assert RetiredBy(s, id, r) && Logged(s, id, r);
    if r.published.Some? {
      assert s.notifs[r.at].Answered?;
    }
    if p :| 0 <= p < |s.notifs| && s.notifs[p].Answered? && s.notifs[p].id == id {
      assert PublishedAt(s, p);
    }
  }
}
