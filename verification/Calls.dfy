/** How one call runs among all the other tasks, and what it may say when it ends
    (src/client.rs). */
module Calls {
  import opened Base
  import opened Messages
  import opened Responses
  import opened Lines
  import opened Framing
  import opened Machine
  import opened Ids
  import opened Publishing
  import opened Queues
  import opened Transmission
  import opened Acknowledgements
  import opened Refinement
  import opened Growth
  import opened Runs
  import opened Waiters
  import opened Subscriptions
  import Frames

  /** Steps of other tasks. */
  type Others = seq<Step>

  /** The step is taken by the call `c` itself. */
  predicate Own(step: Step, c: CallId) {
    step.Caller() && step.c == c
  }

  /** The other tasks take those of the steps that are enabled when their turn comes. */
  function After(s: State, c: CallId, others: Others): State {
    if others == [] then s
    else
      var t, step := After(s, c, others[..|others| - 1]), others[|others| - 1];
      if Enabled(t, step) && !Own(step, c) then Apply(t, step) else t
  }

  /** The other tasks' turns, one schedule after the other. */
  function AfterPolls(s: State, c: CallId, polls: seq<Others>): State {
    if polls == [] then s
    else After(AfterPolls(s, c, polls[..|polls| - 1]), c, polls[|polls| - 1])
  }

  lemma AfterPollsMore(s: State, c: CallId, polls: seq<Others>, n: nat)
    requires n < |polls|
    ensures AfterPolls(s, c, polls[..n + 1]) == After(AfterPolls(s, c, polls[..n]), c, polls[n])
  {
    assert polls[..n + 1][..n] == polls[..n];
  }

  /** What other tasks can and cannot do to the state that a task works on. */
  ghost predicate Interferes(s: State, t: State, c: CallId) {
    && Extends(s, t)
    && (c in t.calls <==> c in s.calls) && (c in s.calls ==> t.calls[c] == s.calls[c])
    && (s.lock == Some(c) ==> t.lock == Some(c))
  }

  /** The state is one that some run of the machine reaches. */
  ghost predicate Reached(s: State) {
    exists states, steps :: IsRun(states, steps) && states[|steps|] == s
  }

  lemma ReachedStart()
    ensures Reached(Start)
  {
    assert IsRun([Start], []);
  }

  lemma RunGoesOn(states: seq<State>, steps: seq<Step>, step: Step)
    requires IsRun(states, steps) && Enabled(states[|steps|], step)
    ensures IsRun(states + [Apply(states[|steps|], step)], steps + [step])
  {
    var states1, steps1 := states + [Apply(states[|steps|], step)], steps + [step];
    forall i | 0 <= i < |steps1|
      ensures Enabled(states1[i], steps1[i]) && states1[i + 1] == Apply(states1[i], steps1[i])
    {
      if i < |steps| {
        assert states1[i] == states[i] && states1[i + 1] == states[i + 1] && steps1[i] == steps[i];
      }
    }
  }

  /** A step leads on to a state that is reached as well, and takes nothing back. */
  lemma ReachedStep(s: State, step: Step)
    requires Reached(s) && Enabled(s, step)
    ensures Reached(Apply(s, step)) && Extends(s, Apply(s, step))
  {
    var states, steps :| IsRun(states, steps) && states[|steps|] == s;
    RunGoesOn(states, steps, step);
    StepExtends(s, step);
    var states1, steps1 := states + [Apply(s, step)], steps + [step];
    assert IsRun(states1, steps1) && states1[|steps1|] == Apply(s, step);
  }

  lemma ReachedOffer(s: State, c: CallId, event: ClientEvent)
    requires Reached(s) && c in s.calls && s.calls[c].Ready? && event == s.calls[c].sub.Event()
    ensures Reached(Offer(s, c, event)) && Extends(s, Offer(s, c, event))
  {
    ReachedStep(s, Step.TrySend(c));
  }

  lemma ReachedIsOk(s: State)
    requires Reached(s)
    ensures InBound(s) ==> Inv(s)
  {
    var states, steps :| IsRun(states, steps) && states[|steps|] == s;
    if InBound(s) {
      RunKeepsInv(states, steps, |steps|);
    }
  }

  lemma ReachedIsLocked(s: State)
    requires Reached(s)
    ensures Locked(s)
  {
    var states, steps :| IsRun(states, steps) && states[|steps|] == s;
    RunKeepsLocked(states, steps, |steps|);
  }

  lemma ReachedHasSources(s: State)
    requires Reached(s)
    ensures SourcesOk(s)
  {
    var states, steps :| IsRun(states, steps) && states[|steps|] == s;
    RunKeepsSources(states, steps, |steps|);
  }

  /** At most the call that takes the step changes, and a lock stays with its holder. */
  lemma OtherCaller(s: State, step: Step, c: CallId)
    requires Locked(s) && CallerEnabled(s, step) && step.c != c
    ensures var t := ApplyCaller(s, step);
      && (c in t.calls <==> c in s.calls) && (c in s.calls ==> t.calls[c] == s.calls[c])
      && (s.lock == Some(c) ==> t.lock == Some(c))
  {
    if step.TrySend? {
      Frames.OfferFrame(s, step.c, s.calls[step.c].sub.Event());
    }
  }

  lemma OtherStep(s: State, step: Step, c: CallId)
    requires Reached(s) && Enabled(s, step) && !Own(step, c)
    ensures Interferes(s, Apply(s, step), c)
  {
    ReachedIsLocked(s);
    StepExtends(s, step);
    if step.Caller() {
      OtherCaller(s, step, c);
    } else if step.Sender() {
      Frames.SenderFrame(s, step);
    } else if step.Receiver() {
      Frames.ReceiverFrame(s, step);
    } else {
      Frames.ControlFrame(s, step);
    }
  }

  lemma InterferesOn(s: State, t: State, u: State, c: CallId)
    requires Interferes(s, t, c) && Interferes(t, u, c)
    ensures Interferes(s, u, c)
  {
    ExtendsOn(s, t, u);
  }

  /** Entry by entry, an id and the request recorded under it. */
  function Entries(ids: seq<usize>, reqs: seq<Request>): (es: seq<Entry>)
    requires |ids| == |reqs|
    ensures |es| == |ids|
  {
    seq(|ids|, i requires 0 <= i < |ids| => Entry(ids[i], reqs[i]))
  }

  lemma EntriesMore(ids: seq<usize>, reqs: seq<Request>, id: usize, req: Request)
    requires |ids| == |reqs|
    ensures Entries(ids + [id], reqs + [req]) == Entries(ids, reqs) + [Entry(id, req)]
    ensures Msgs(Entries(ids + [id], reqs + [req])) == Msgs(Entries(ids, reqs)) + [RequestMsg(id, req)]
  {
  }

  /** The batch has drawn an id for each of its requests, in order, and recorded it. */
  ghost predicate RecordedInOrder(s: State, c: CallId, ids: seq<usize>, reqs: seq<Request>) {
    && |ids| == |reqs|
    && (forall i, j | 0 <= i < j < |ids| :: ids[i] < ids[j])
    && (forall i | 0 <= i < |ids| ::
          && ids[i] < |s.issued| && s.issued[ids[i]] == c
          && ids[i] in s.inserted && s.inserted[ids[i]] == reqs[i])
  }

  lemma RecordedBy(s: State, c: CallId, ids: seq<usize>, reqs: seq<Request>)
    requires IdsOk(s) && c in s.calls && |ids| == |reqs| && s.calls[c].Recorded() == Entries(ids, reqs)
    ensures RecordedInOrder(s, c, ids, reqs)
  {
    assert RecordsOwn(s, c);
    forall i | 0 <= i < |ids| ensures Entries(ids, reqs)[i] == Entry(ids[i], reqs[i]) {}
  }

  /** The ids were drawn after the moment `s`. */
  predicate DrawnSince(s: State, ids: seq<usize>) {
    forall i | 0 <= i < |ids| :: |s.issued| <= ids[i]
  }

  /** When a call that began after `s` has recorded its requests, it drew their ids
      since then, in the order of the requests. */
  lemma RecordedAtEnd(s: State, t: State, c: CallId, ids: seq<usize>, reqs: seq<Request>)
    requires Reached(s) && Reached(t) && Extends(s, t) && c !in s.calls
    requires c in t.calls && |ids| == |reqs| && t.calls[c].Recorded() == Entries(ids, reqs)
    ensures InBound(t) ==> RecordedInOrder(t, c, ids, reqs) && DrawnSince(s, ids)
  {
    ReachedHasSources(s);
    ReachedIsOk(t);
    if InBound(t) {
      RecordedBy(t, c, ids, reqs);
      forall i | 0 <= i < |ids| ensures |s.issued| <= ids[i] {
        NewCallDrawsLater(s, t, c, ids[i]);
      }
    }
  }

  lemma SentIsShown(s: State, c: CallId)
    requires Reached(s) && InBound(s) && c in s.calls
    requires s.calls[c].Returned? && s.calls[c].waited && s.calls[c].result == Sent && s.calls[c].sub.items != []
    ensures ShownWhole(s, Msgs(s.calls[c].sub.items))
  {
    ReachedIsOk(s);
    SuccessWasWritten(s, c);
  }

  /** How a send ends: with a result, or not at all, because the schedule ended
      while the task was waiting for the inventory lock. */
  datatype Sending = Sending(ids: seq<usize>, result: SendResult) | Suspended

  /** What the outside decides about a send. */
  datatype SendSchedule = SendSchedule(lockPolls: seq<Others>, meanwhile: Others, replyPolls: seq<Others>)

  datatype BatchSchedule = BatchSchedule(
    lockPolls: seq<Others>, during: seq<(Others, Others)>, meanwhile: Others, replyPolls: seq<Others>)

  /** How a call ends. `NoAnswer` is a timeout or, without one, a wait that goes on. */
  datatype CallOutcome = Received(got: Option<Response>) | NotSent(result: SendResult) | NoAnswer

  datatype WrapperOutcome = Matched(value: WrapperResult) | Refused(result: SendResult) | TimedOut

  datatype HistoryOutcome =
    | Histories(histories: seq<seq<HistoryEntry>>)
    | InvalidHistory
    | HistoryRefused(result: SendResult)
    | HistoryTimedOut

  /** Some received line is a response under this id that reads as `r` for the request `req`. */
  ghost predicate ReadFromLine(s: State, id: usize, req: Request, r: Response) {
    exists n | 0 <= n < |s.received| :: ReadsAs(s.received[n], id, req, r)
  }

  predicate ReadsAs(line: Line, id: usize, req: Request, r: Response) {
    var m := DecodeLine(line);
    m.Some? && m.value.Response? && m.value.id == id && ToResponse(m.value, req) == Typed(r)
  }

  /** A published response was read, under its id, against the request recorded for it. */
  lemma PublishedWasRead(s: State, at: nat)
    requires PublishOk(s) && at < |s.notifs| && s.notifs[at].Answered?
    ensures s.notifs[at].id in s.inserted
    ensures ReadFromLine(s, s.notifs[at].id, s.inserted[s.notifs[at].id], s.notifs[at].response)
  {
    PublishedIsTyped(s, at);
    var id := s.notifs[at].id;
    var n := s.retired[id].line;
    assert ReadsAs(s.received[n], id, s.inserted[id], s.notifs[at].response);
  }

  /** The response that a call finds under its id answers its own request. */
  lemma GotIsTyped(s: State, c: CallId, req: Request, id: usize, at: nat)
    requires Inv(s) && c in s.calls && s.calls[c].Recorded() == [Entry(id, req)]
    requires at < |s.notifs| && s.notifs[at].Answered? && s.notifs[at].id == id
    ensures Answers(s.notifs[at].response, req) && s.notifs[at].response != NoResult
    ensures ReadFromLine(s, id, req, s.notifs[at].response)
  {
    assert RecordsOwn(s, c);
    assert [Entry(id, req)][0] == Entry(id, req);
    PublishedIsTyped(s, at);
    PublishedWasRead(s, at);
  }

  lemma GotInCall(s: State, c: CallId, req: Request, id: usize, start: nat, seen: seq<nat>)
    requires Reached(s) && c in s.calls && s.calls[c].Recorded() == [Entry(id, req)]
    requires SeenIn(s.notifs, seen) && start <= |s.notifs|
    ensures var w := Scan(s.notifs, start, id, seen);
      InBound(s) && w.Got? ==>
        Answers(w.response, req) && w.response != NoResult && ReadFromLine(s, id, req, w.response)
  {
    ReachedIsOk(s);
    ScanIsExact(s.notifs, start, id, seen);
    var w := Scan(s.notifs, start, id, seen);
    if InBound(s) && w.Got? {
      GotIsTyped(s, c, req, id, w.at);
    }
  }

  // ----- how a call ends

  function GotOf(w: Wait): Option<Response> {
    if w.Got? then Some(w.response) else None
  }

  /** The call `c` has recorded the request under `id`, and has returned the result of sending it. */
  predicate ReturnedWith(s: State, c: CallId, req: Request, wait: bool, id: usize, result: SendResult) {
    c in s.calls && s.calls[c] == Returned(Submission(false, [Entry(id, req)]), wait, result)
  }

  /** The polls came one after the other, since the subscription. */
  predicate Polled(log: seq<ClientNotification>, start: nat, seen: seq<nat>) {
    && start <= |log| && SeenIn(log, seen)
    && (forall k | 0 <= k < |seen| :: start <= seen[k])
    && (forall j, k | 0 <= j < k < |seen| :: seen[j] <= seen[k])
  }

  /** One more poll, at the present length of the log. */
  lemma PolledMore(log: seq<ClientNotification>, more: seq<ClientNotification>, start: nat, seen: seq<nat>)
    requires Polled(log, start, seen) && log <= more
    ensures Polled(more, start, seen + [|more|])
  {
  }

  /** From `s` to `t` the waiter has made its first polls, and `seen` is what they saw. */
  ghost predicate SawPolls(s: State, t: State, c: CallId, polls: seq<Others>, seen: seq<nat>) {
    && |seen| <= |polls| && t == AfterPolls(s, c, polls[..|seen|])
    && forall k | 0 <= k < |seen| :: seen[k] == |AfterPolls(s, c, polls[..k + 1]).notifs|
  }

  /** `seen` is what all polls before the last have seen. */
  lemma SawOneMore(s: State, t: State, c: CallId, polls: seq<Others>, seen: seq<nat>)
    requires |seen| < |polls| && t == AfterPolls(s, c, polls[..|seen| + 1])
    requires forall k | 0 <= k < |seen| :: seen[k] == |AfterPolls(s, c, polls[..k + 1]).notifs|
    ensures SawPolls(s, t, c, polls, seen + [|t.notifs|])
  {
  }

  /** What `get_response` has done when it subscribed in `s` and has polled until `t`, with the outcome `w`. */
  ghost predicate ScannedTo(s: State, t: State, c: CallId, id: usize, polls: seq<Others>, seen: seq<nat>, w: Wait) {
    && Interferes(s, t, c) && SawPolls(s, t, c, polls, seen) && Polled(t.notifs, |s.notifs|, seen)
    && w == Scan(t.notifs, |s.notifs|, id, seen) && StillScanning(t.notifs, |s.notifs|, id, seen)
  }

  /** The same of `get_batch_response`. */
  ghost predicate GatheredTo(s: State, t: State, c: CallId, ids: set<usize>, polls: seq<Others>, seen: seq<nat>,
                             g: Gathering) {
    && Interferes(s, t, c) && SawPolls(s, t, c, polls, seen) && Polled(t.notifs, |s.notifs|, seen)
    && g == Gather(t.notifs, |s.notifs|, ids, seen) && StillCollecting(t.notifs, |s.notifs|, ids, seen)
  }

  /** All of the polls found the inventory lock held. */
  ghost predicate LockedOut(s: State, t: State, c: CallId, polls: seq<Others>) {
    && t == AfterPolls(s, c, polls)
    && forall k | 0 <= k <= |polls| :: AfterPolls(s, c, polls[..k]).lock != None
  }

  /** The first `n` polls found the lock held. */
  ghost predicate FoundHeld(s: State, t: State, c: CallId, polls: seq<Others>, n: nat) {
    && Interferes(s, t, c) && n <= |polls| && t == AfterPolls(s, c, polls[..n])
    && forall k | 0 <= k < n :: AfterPolls(s, c, polls[..k]).lock != None
  }

  lemma HeldThroughout(s: State, t: State, c: CallId, polls: seq<Others>)
    requires FoundHeld(s, t, c, polls, |polls|) && t.lock != None
    ensures LockedOut(s, t, c, polls)
  {
    assert polls[..|polls|] == polls;
  }

  /** The first `n` polls found no acknowledgement. */
  ghost predicate FoundNothing(s: State, t: State, c: CallId, polls: seq<Others>, n: nat) {
    && Interferes(s, t, c) && n <= |polls| && t == AfterPolls(s, c, polls[..n])
    && forall k | 0 <= k < n :: c !in AfterPolls(s, c, polls[..k]).acks
  }

  lemma NothingThroughout(s: State, t: State, u: State, c: CallId, polls: seq<Others>)
    requires FoundNothing(s, t, c, polls, |polls|) && c !in t.acks
    requires CallerEnabled(t, Expire(c)) && u == ApplyCaller(t, Expire(c))
    ensures GivesUp(s, u, c, polls)
  {
    assert polls[..|polls|] == polls;
  }

  /** All of the polls found no acknowledgement, and then the call gave up. */
  ghost predicate GivesUp(s: State, t: State, c: CallId, polls: seq<Others>) {
    && (forall k | 0 <= k <= |polls| :: c !in AfterPolls(s, c, polls[..k]).acks)
    && var u := AfterPolls(s, c, polls);
      CallerEnabled(u, Expire(c)) && t == ApplyCaller(u, Expire(c))
  }

  /** Since some moment after `first` at which the call had enqueued its message. */
  ghost predicate GaveUp(first: State, t: State, c: CallId, polls: seq<Others>) {
    exists s :: Reached(s) && Extends(first, s) && c in s.calls && s.calls[c].Waiting? && GivesUp(s, t, c, polls)
  }

  lemma GaveUpSince(first: State, now: State, t: State, c: CallId, polls: seq<Others>)
    requires Extends(first, now) && GaveUp(now, t, c, polls)
    ensures GaveUp(first, t, c, polls)
  {
    var s :| Reached(s) && Extends(now, s) && c in s.calls && s.calls[c].Waiting? && GivesUp(s, t, c, polls);
    ExtendsOn(first, now, s);
  }

  /** The waiter subscribed in the state `s`, when its request had been sent, and polled until `t`. */
  ghost predicate WaitedFrom(s: State, t: State, c: CallId, req: Request, wait: bool, id: usize, start: nat,
                             polls: seq<Others>, seen: seq<nat>) {
    && Reached(s) && ReturnedWith(s, c, req, wait, id, Sent) && start == |s.notifs|
    && SawPolls(s, t, c, polls, seen)
    && SeenIn(t.notifs, seen) && StillScanning(t.notifs, start, id, seen)
  }

  ghost predicate WaitedSince(first: State, t: State, c: CallId, req: Request, wait: bool, id: usize, start: nat,
                              polls: seq<Others>, seen: seq<nat>) {
    exists s :: Extends(first, s) && WaitedFrom(s, t, c, req, wait, id, start, polls, seen)
  }

  /** What the call that began in `first` has to do with the schedule it was given. A
      timeout means that the schedule was used up, and the waiter saw what the log was at
      the given polls, since its subscription after the send. */
  ghost predicate Scheduled(first: State, t: State, c: CallId, req: Request, wait: bool, r: CallOutcome, id: usize,
                            start: nat, seen: seq<nat>, sends: SendSchedule, polls: seq<Others>) {
    match r
    case NotSent(result) => result == RecvTimeout ==> GaveUp(first, t, c, sends.replyPolls)
    case Received(_) => WaitedSince(first, t, c, req, wait, id, start, polls, seen)
    case NoAnswer =>
      if c in t.calls && t.calls[c].Reserved?
      then c !in first.calls && LockedOut(ApplyCaller(first, Reserve(c, req, wait)), t, c, sends.lockPolls)
      else WaitedSince(first, t, c, req, wait, id, start, polls, seen)
  }

  /** The call is over: refused with its result, or sent and then done waiting, with
      what the polls of the channel led to. */
  predicate Concluded(s: State, c: CallId, req: Request, wait: bool, r: CallOutcome, id: usize, start: nat,
                      seen: seq<nat>) {
    && Polled(s.notifs, start, seen)
    && match r
       case NoAnswer => false
       case NotSent(result) => result != Sent && ReturnedWith(s, c, req, wait, id, result)
       case Received(got) =>
         var w := Scan(s.notifs, start, id, seen);
         ReturnedWith(s, c, req, wait, id, Sent) && !w.Pending? && got == GotOf(w)
  }

  /** The schedule ended before the call: it waits for the inventory lock, or it is
      sent and all of the polls have left it waiting. */
  predicate Unanswered(s: State, c: CallId, req: Request, wait: bool, id: usize, start: nat, seen: seq<nat>,
                       polls: nat) {
    && c in s.calls && Polled(s.notifs, start, seen)
    && if s.calls[c].Reserved? then s.lock != None && s.calls[c].entry.req == req && s.calls[c].waited == wait
       else ReturnedWith(s, c, req, wait, id, Sent) && Scan(s.notifs, start, id, seen).Pending? && |seen| == polls
  }

  lemma ConcludedStays(s: State, t: State, c: CallId, req: Request, wait: bool, r: CallOutcome, id: usize, start: nat,
                       seen: seq<nat>)
    requires Extends(s, t) && Concluded(s, c, req, wait, r, id, start, seen)
    ensures Concluded(t, c, req, wait, r, id, start, seen)
  {
    ScanStays(s.notifs, t.notifs, start, id, seen);
  }

  /** The id was drawn by this call, after `s`, and stands for its request; a response is
      the reading, as the variant the request asks for, of a line received under this id. */
  ghost predicate OwnAnswer(s: State, t: State, c: CallId, req: Request, r: CallOutcome, id: usize) {
    && RecordedInOrder(t, c, [id], [req]) && DrawnSince(s, [id])
    && (r.Received? && r.got.Some? ==>
          Answers(r.got.value, req) && r.got.value != NoResult && ReadFromLine(t, id, req, r.got.value))
  }

  /** A call that began after `s` and is over drew its id since then, and a response
      answers its own request. */
  lemma AnswerIsOwn(s: State, t: State, c: CallId, req: Request, wait: bool, r: CallOutcome, id: usize, start: nat,
                    seen: seq<nat>)
    requires Reached(s) && Reached(t) && Extends(s, t) && c !in s.calls
    requires Concluded(t, c, req, wait, r, id, start, seen)
    ensures InBound(t) ==> OwnAnswer(s, t, c, req, r, id)
  {
    assert Entries([id], [req]) == [Entry(id, req)];
    RecordedAtEnd(s, t, c, [id], [req]);
    if r.Received? {
      GotInCall(t, c, req, id, start, seen);
    }
  }

  /** What a typed wrapper has made of a call that is over. */
  ghost predicate Unwrapped(s: State, c: CallId, req: Request, wait: bool, r: WrapperOutcome, id: usize, start: nat,
                            seen: seq<nat>) {
    match r
    case TimedOut => false
    case Refused(result) => Concluded(s, c, req, wait, NotSent(result), id, start, seen)
    case Matched(value) =>
      && Polled(s.notifs, start, seen)
      && var got := GotOf(Scan(s.notifs, start, id, seen));
        && Concluded(s, c, req, wait, Received(got), id, start, seen)
        && value == Unwrap(req, got)
        // Nothing is lost or made up on the way: the caller gets the response itself, and
        // InvalidResponse only when there was none.
        && (InBound(s) && HasWrapper(req) ==> value == if got.Some? then Accepted(got.value) else InvalidResponse)
        && (InBound(s) && got.Some? ==> Answers(got.value, req) && ReadFromLine(s, id, req, got.value))
  }

  function OutcomeOf(r: WrapperOutcome): CallOutcome {
    match r
    case TimedOut => NoAnswer
    case Refused(result) => NotSent(result)
    case Matched(_) => Received(None)
  }

  lemma UnwrapsWhatIsGot(s: State, c: CallId, req: Request, wait: bool, got: Option<Response>, id: usize, start: nat,
                         seen: seq<nat>)
    requires Reached(s) && Concluded(s, c, req, wait, Received(got), id, start, seen)
    ensures Unwrapped(s, c, req, wait, WrapperOutcome.Matched(Unwrap(req, got)), id, start, seen)
  {
    GotInCall(s, c, req, id, start, seen);
    if InBound(s) {
      UnwrapAccepts(req, got);
    }
  }

  /** Each wrapper accepts every response of its own kind. */
  lemma UnwrapAccepts(req: Request, got: Option<Response>)
    requires got.Some? ==> Answers(got.value, req)
    ensures got.Some? && HasWrapper(req) ==> Unwrap(req, got) == Accepted(got.value)
    ensures got.Some? && Unwrap(req, got).Accepted? ==> Unwrap(req, got) == Accepted(got.value)
    ensures got.None? ==> Unwrap(req, got) == InvalidResponse
  {
  }

  function Collected(g: Gathering): seq<Item> {
    match g
    case Collecting(_, _, got) => got
    case Complete(got) => got
    case Cut(got) => got
  }

  function SubscribeRequests(scripts: seq<ScriptHash>): (reqs: seq<Request>)
    ensures |reqs| == |scripts| && forall i | 0 <= i < |scripts| :: reqs[i] == ScriptSubscribe(scripts[i])
  {
    seq(|scripts|, i requires 0 <= i < |scripts| => ScriptSubscribe(scripts[i]))
  }

  function HistoryRequests(scripts: seq<ScriptHash>): (reqs: seq<Request>)
    ensures |reqs| == |scripts| && forall i | 0 <= i < |scripts| :: reqs[i] == GetHistory(scripts[i])
  {
    seq(|scripts|, i requires 0 <= i < |scripts| => GetHistory(scripts[i]))
  }

  /** What is collected for one of the ids of a batch answers the request under that id. */
  lemma CollectedAnswers(s: State, c: CallId, ids: seq<usize>, reqs: seq<Request>, got: seq<Item>,
                         i: nat) returns (j: nat)
    requires Inv(s) && c in s.calls && |ids| == |reqs| && s.calls[c].Recorded() == Entries(ids, reqs)
    requires GotOk(s.notifs, got, |s.notifs|) && i < |got| && got[i].id in ids
    ensures j < |ids| && ids[j] == got[i].id && Answers(got[i].response, reqs[j])
    ensures ReadFromLine(s, got[i].id, reqs[j], got[i].response)
  {
    assert s.notifs[..|s.notifs|] == s.notifs;
    var f: seq<nat> :| Embeds(AsNotifications(got), s.notifs, f);
    assert s.notifs[f[i]] == Answered(got[i].id, got[i].response);
    PublishedIsTyped(s, f[i]);
    PublishedWasRead(s, f[i]);
    RecordedBy(s, c, ids, reqs);
    j :| 0 <= j < |ids| && ids[j] == got[i].id;
  }

  lemma CountItems(got: seq<Item>)
    requires forall i, j | 0 <= i < j < |got| :: got[i].id != got[j].id
    ensures |IdsOf(got)| == |got|
  {
    var named := seq(|got|, i requires 0 <= i < |got| => got[i].id);
    DistinctCount(named);
    forall id ensures id in IdsOf(got) <==> id in named {
      if id in IdsOf(got) {
        var i :| 0 <= i < |got| && got[i].id == id;
        assert named[i] == id;
      }
    }
    assert IdSet(named) == IdsOf(got);
  }

  lemma ShorterLength(ids: seq<usize>, got: seq<Item>)
    requires forall i, j | 0 <= i < j < |ids| :: ids[i] != ids[j]
    requires forall i, j | 0 <= i < j < |got| :: got[i].id != got[j].id
    requires IdsOf(got) < IdSet(ids)
    ensures |got| < |ids|
  {
    DistinctCount(ids);
    CountItems(got);
    ProperSubsetIsSmaller(IdsOf(got), IdSet(ids));
  }

  lemma ProperSubsetIsSmaller(a: set<usize>, b: set<usize>)
    requires a < b
    ensures |a| < |b|
  {
    var id :| id in b && id !in a;
    assert a + (b - a) == b && id in b - a;
    assert |b| == |a| + |b - a|;
  }

  lemma SameLength(ids: seq<usize>, got: seq<Item>)
    requires forall i, j | 0 <= i < j < |ids| :: ids[i] != ids[j]
    requires forall i, j | 0 <= i < j < |got| :: got[i].id != got[j].id
    requires IdsOf(got) == IdSet(ids)
    ensures |got| == |ids|
  {
    DistinctCount(ids);
    CountItems(got);
  }

  function IdSet(ids: seq<usize>): set<usize> {
    set id | id in ids
  }

  lemma {:induction false} DistinctCount(ids: seq<usize>)
    requires forall i, j | 0 <= i < j < |ids| :: ids[i] != ids[j]
    ensures |IdSet(ids)| == |ids|
  {
    if ids != [] {
      var n := |ids| - 1;
      var before, last := ids[..n], ids[n];
      DistinctCount(before);
      var all, most := IdSet(ids), IdSet(before);
      assert ids == before + [last];
      assert last !in before && last !in most;
      assert all == most + {last};
      assert |most + {last}| == |most| + 1;
    }
  }

  /** The item is the reading of a line under one of the ids, against the history request recorded there. */
  ghost predicate HistoryFor(s: State, ids: seq<usize>, scripts: seq<ScriptHash>, item: Item)
    requires |ids| == |scripts|
  {
    && item.response.History?
    && exists j | 0 <= j < |ids| ::
         ids[j] == item.id && ReadFromLine(s, item.id, GetHistory(scripts[j]), item.response)
  }

  lemma CollectedAreHistories(s: State, c: CallId, ids: seq<usize>, scripts: seq<ScriptHash>, start: nat,
                              seen: seq<nat>)
    requires Reached(s) && InBound(s) && c in s.calls && |ids| == |scripts|
    requires s.calls[c].Recorded() == Entries(ids, HistoryRequests(scripts))
    requires SeenIn(s.notifs, seen) && start <= |s.notifs|
    ensures var g := Gather(s.notifs, start, IdSet(ids), seen);
      !g.Collecting? ==>
        && (forall i | 0 <= i < |Collected(g)| :: HistoryFor(s, ids, scripts, Collected(g)[i]))
        && (g.Complete? ==> |Collected(g)| == |scripts|)
        && (g.Cut? && scripts != [] ==> |Collected(g)| < |scripts|)
  {
    var wanted := IdSet(ids);
    var g := Gather(s.notifs, start, wanted, seen);
    ReachedIsOk(s);
    GatherIsExact(s.notifs, start, wanted, seen);
    if !g.Collecting? {
      var got := Collected(g);
      forall i | 0 <= i < |got| ensures HistoryFor(s, ids, scripts, got[i]) {
        assert got[i].id in IdsOf(got);
        var j := CollectedAnswers(s, c, ids, HistoryRequests(scripts), got, i);
      }
      RecordedBy(s, c, ids, HistoryRequests(scripts));
      if g.Complete? {
        SameLength(ids, got);
      } else if scripts != [] {
        assert ids[0] in wanted;
        CutIsShort(s.notifs, start, wanted, seen);
        ShorterLength(ids, got);
      }
    }
  }

  // ----- how a batch ends

  /** The batch `c` has recorded the requests under the ids, and has returned the result of sending them. */
  predicate BatchReturned(s: State, c: CallId, reqs: seq<Request>, wait: bool, ids: seq<usize>, result: SendResult) {
    && |ids| == |reqs| && c in s.calls
    && s.calls[c] == Returned(Submission(true, Entries(ids, reqs)), wait, result)
  }

  /** The batch waiter subscribed in the state `s`, when its batch had been sent, and polled until `t`. */
  ghost predicate BatchWaitedFrom(s: State, t: State, c: CallId, reqs: seq<Request>, wait: bool, ids: seq<usize>,
                                  start: nat, polls: seq<Others>, seen: seq<nat>) {
    && Reached(s) && BatchReturned(s, c, reqs, wait, ids, Sent) && start == |s.notifs|
    && SawPolls(s, t, c, polls, seen)
    && SeenIn(t.notifs, seen) && StillCollecting(t.notifs, start, IdSet(ids), seen)
  }

  ghost predicate BatchWaitedSince(first: State, t: State, c: CallId, reqs: seq<Request>, wait: bool, ids: seq<usize>,
                                   start: nat, polls: seq<Others>, seen: seq<nat>) {
    exists s :: Extends(first, s) && BatchWaitedFrom(s, t, c, reqs, wait, ids, start, polls, seen)
  }

  /** The histories are those of the collection, item by item. */
  predicate HistoriesOf(got: seq<Item>, histories: seq<seq<HistoryEntry>>) {
    |histories| == |got| && forall i | 0 <= i < |got| :: got[i].response == History(histories[i])
  }

  /** Of the messages of two calls, those of the first come first. */
  ghost predicate EnqueuedBefore(s: State, h: CallId, c: CallId) {
    forall p, q | 0 <= p < |s.enqueued| && 0 <= q < |s.enqueued| ::
      s.enqueued[p].origin == FromCall(h) && s.enqueued[q].origin == FromCall(c) ==> p < q
  }

  lemma ConcludedIsBefore(s: State, t: State, h: CallId, c: CallId)
    requires Reached(s) && Extends(s, t) && h in s.calls && s.calls[h].Returned? && c !in s.calls
    ensures EnqueuedBefore(t, h, c)
  {
    ReachedHasSources(s);
    forall p, q | 0 <= p < |t.enqueued| && 0 <= q < |t.enqueued|
      && t.enqueued[p].origin == FromCall(h) && t.enqueued[q].origin == FromCall(c)
      ensures p < q
    {
      ReturnedIsBefore(s, t, h, c, p, q);
    }
  }

  /** The call `h` for the headers is over, its id was drawn since `before` and is lower
      than those of the call `c`, and its message precedes that of `c` in the queue. */
  ghost predicate CameFirst(before: State, s: State, h: CallId, headers: CallOutcome, hid: usize,
                            start: nat, seen: seq<nat>, sends: SendSchedule, polls: seq<Others>,
                            c: CallId, ids: seq<usize>) {
    && (exists now :: Extends(before, now) && Extends(now, s) && c !in now.calls
          && Scheduled(before, now, h, BlockHeaderSubscribe, false, headers, hid, start, seen, sends, polls))
    && Concluded(s, h, BlockHeaderSubscribe, false, headers, hid, start, seen)
    && (InBound(s) ==> |before.issued| <= hid && forall i | 0 <= i < |ids| :: hid < ids[i])
    && EnqueuedBefore(s, h, c)
  }

  /** The headers are asked for by `h` between `before` and `now`, the scripts by `c` between `now` and `after`. */
  lemma HeadersFirst(before: State, now: State, after: State, h: CallId, headers: CallOutcome, hid: usize,
                     start: nat, seen: seq<nat>, sends: SendSchedule, polls: seq<Others>, c: CallId, ids: seq<usize>)
    requires Scheduled(before, now, h, BlockHeaderSubscribe, false, headers, hid, start, seen, sends, polls)
    requires Reached(now) && Extends(before, now) && Extends(now, after) && c !in now.calls
    requires Concluded(now, h, BlockHeaderSubscribe, false, headers, hid, start, seen)
    requires InBound(now) ==> RecordedInOrder(now, h, [hid], [BlockHeaderSubscribe]) && DrawnSince(before, [hid])
    requires InBound(after) ==> DrawnSince(now, ids)
    ensures CameFirst(before, after, h, headers, hid, start, seen, sends, polls, c, ids)
  {
    ConcludedStays(now, after, h, BlockHeaderSubscribe, false, headers, hid, start, seen);
    ConcludedIsBefore(now, after, h, c);
    if InBound(after) {
      assert [hid][0] == hid;
    }
  }
}
