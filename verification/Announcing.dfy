/** The notifications of servers on the broadcast channel: over every run, all of those
    that were received and mean something, in the order in which they came, and no other. */
module Announcing {
  import opened Base
  import opened Messages
  import opened Responses
  import opened Readings
  import opened Machine
  import opened Frames

  /** What a line announces: one notice or nothing. */
  function NoticeOf(line: Line): seq<Notice> {
    match DecodeLine(line)
    case None => []
    case Some(msg) => match ToNotification(msg) case Some(n) => [n] case None => []
  }

  function NoticesRead(lines: seq<Line>): seq<Notice> {
    if lines == [] then [] else NoticesRead(lines[..|lines| - 1]) + NoticeOf(lines[|lines| - 1])
  }

  /** The notices among what was broadcast. */
  function NoticesIn(log: seq<ClientNotification>): seq<Notice> {
    if log == [] then []
    else
      var before, last := NoticesIn(log[..|log| - 1]), log[|log| - 1];
      if last.Notified? then before + [last.notice] else before
  }

  /** A line announces a notice if and only if it is a notification that means it. */
  lemma NoticeOfIsExact(line: Line, n: Notice)
    ensures NoticeOf(line) == [n] <==> line.Json? && Notifies(line.doc, n)
  {
    if line.Json? {
      NoticeIsRead(line.doc, n);
    }
  }

  lemma OneMoreLine(lines: seq<Line>, line: Line)
    ensures NoticesRead(lines + [line]) == NoticesRead(lines) + NoticeOf(line)
  {
    assert (lines + [line])[..|lines|] == lines;
  }

  lemma OneMoreEntry(log: seq<ClientNotification>, e: ClientNotification)
    ensures NoticesIn(log + [e]) == NoticesIn(log) + if e.Notified? then [e.notice] else []
  {
    assert (log + [e])[..|log|] == log;
  }

  /** The log has every notice that was received, in order. */
  predicate AllAnnounced(s: State) {
    NoticesIn(s.notifs) == NoticesRead(s.received)
  }

  /** What the receiver logs for a line. */
  function LogEntry(e: LineEffect): seq<ClientNotification> {
    match e
    case Notices(n) => [Notified(n)]
    case Retires(id, published) => AnswerFor(id, published)
    case _ => []
  }

  lemma LineLogs(s: State, k: nat, line: Line, e: LineEffect)
    requires k < |s.conns|
    ensures var t := Receive(s, k, line, e); t.received == s.received + [line] && t.notifs == s.notifs + LogEntry(e)
  {
  }

  lemma EntryIsNotice(inventory: map<usize, Request>, line: Line, log: seq<ClientNotification>)
    ensures NoticesIn(log + LogEntry(Effect(inventory, line))) == NoticesIn(log) + NoticeOf(line)
  {
    var entry := LogEntry(Effect(inventory, line));
    if entry == [] {
      assert log + entry == log;
    } else {
      assert entry == [entry[0]];
      OneMoreEntry(log, entry[0]);
    }
  }

  lemma StepAnnounces(s: State, step: Step, t: State)
    requires AllAnnounced(s) && Enabled(s, step) && t == Apply(s, step)
    ensures AllAnnounced(t)
  {
    if step.Caller() {
      CallerFrame(s, step);
    } else if step.Sender() {
      SenderFrame(s, step);
      SenderNotifs(s, step);
      OneMoreEntry(s.notifs, StopNotified);
    } else if step.ReceiveLine? {
      LineLogs(s, step.k, step.line, Effect(s.inventory, step.line));
      OneMoreLine(s.received, step.line);
      EntryIsNotice(s.inventory, step.line, s.notifs);
    } else if step.Receiver() {
    } else {
      ControlFrame(s, step);
    }
  }

  /** The lines that the receivers were given, in order. */
  function LinesGiven(steps: seq<Step>): seq<Line> {
    if steps == [] then []
    else
      var before, last := LinesGiven(steps[..|steps| - 1]), steps[|steps| - 1];
      if last.ReceiveLine? then before + [last.line] else before
  }

  lemma StepReceives(s: State, step: Step, t: State)
    requires Enabled(s, step) && t == Apply(s, step)
    ensures t.received == s.received + if step.ReceiveLine? then [step.line] else []
  {
    if step.Caller() {
      CallerFrame(s, step);
    } else if step.Sender() {
      SenderFrame(s, step);
    } else if step.ReceiveLine? {
      LineLogs(s, step.k, step.line, Effect(s.inventory, step.line));
    } else if step.Receiver() {
    } else {
      ControlFrame(s, step);
    }
  }

  lemma {:induction false} RunReceives(states: seq<State>, steps: seq<Step>, i: nat)
    requires IsRun(states, steps) && i < |states|
    ensures states[i].received == LinesGiven(steps[..i])
  {
    if i > 0 {
      RunReceives(states, steps, i - 1);
      StepReceives(states[i - 1], steps[i - 1], states[i]);
      assert steps[..i][..i - 1] == steps[..i - 1];
    }
  }

  lemma {:induction false} RunKeepsAnnounced(states: seq<State>, steps: seq<Step>, i: nat)
    requires IsRun(states, steps) && i < |states|
    ensures AllAnnounced(states[i])
  {
    if i > 0 {
      RunKeepsAnnounced(states, steps, i - 1);
      StepAnnounces(states[i - 1], steps[i - 1], states[i]);
    }
  }

  /** At every moment of every run, however many ids it draws, the notices broadcast so
      far are exactly what the lines given to the receivers so far announce, in order. */
  lemma RunAnnounces(states: seq<State>, steps: seq<Step>, i: nat)
    requires IsRun(states, steps) && i < |states|
    ensures NoticesIn(states[i].notifs) == NoticesRead(LinesGiven(steps[..i]))
    ensures states[i].received == LinesGiven(steps[..i])
  {
    RunReceives(states, steps, i);
    RunKeepsAnnounced(states, steps, i);
  }
}
