/** The text of a request and the newline framing of the stream (`as_bytes` in
    src/types/mod.rs, the sender task in src/client.rs). */
module Framing {
  import opened Base
  import opened Methods
  import opened Messages
  import opened Lines

  // ----- compact JSON text

  function EscapeChar(c: char): string {
    if c == '"' then ['\\', '"']
    else if c == '\\' then ['\\', '\\']
    else if c == '\n' then ['\\', 'n']
    else if c == '\r' then ['\\', 'r']
    else if c == '\t' then ['\\', 't']
    else if c as int == 8 then ['\\', 'b']
    else if c as int == 12 then ['\\', 'f']
    else if c as int < 32 then ['\\', 'u', '0', '0', HexDigit(c as int / 16), HexDigit(c as int % 16)]
    else [c]
  }

  function Escape(s: string): string {
    if s == [] then [] else EscapeChar(s[0]) + Escape(s[1..])
  }

  function Quoted(s: string): string {
    "\"" + Escape(s) + "\""
  }

  function Join(parts: seq<string>): string {
    if parts == [] then []
    else if |parts| == 1 then parts[0]
    else parts[0] + "," + Join(parts[1..])
  }

  function ByteTexts(bs: seq<byte>): (ts: seq<string>)
    ensures |ts| == |bs|
  {
    seq(|bs|, i requires 0 <= i < |bs| => Decimal(bs[i]))
  }

  function ParamText(p: Param): string {
    match p
    case U8(n) => Decimal(n)
    case U32(n) => Decimal(n)
    case Usize(n) => Decimal(n)
    case Text(s) => Quoted(s)
    case Flag(b) => if b then "true" else "false"
    case Bytes(bs) => "[" + Join(ByteTexts(bs)) + "]"
  }

  function ParamTexts(ps: seq<Param>): (ts: seq<string>)
    ensures |ts| == |ps|
  {
    seq(|ps|, i requires 0 <= i < |ps| => ParamText(ps[i]))
  }

  /** What follows the id in the text of a request. */
  function TextAfterId(m: JsonRpcMsg): string
    requires m.Request?
  {
    ",\"jsonrpc\":" + Quoted(m.jsonrpc) + ",\"method\":" + Quoted(MethodName(m.verb))
    + ",\"params\":[" + Join(ParamTexts(m.params)) + "]}"
  }

  const ID_PREFIX := "{\"id\":"

  function RequestText(m: JsonRpcMsg): string
    requires m.Request?
  {
    ID_PREFIX + Decimal(m.id) + TextAfterId(m)
  }

  // ----- no text holds a raw newline

  lemma {:induction false} EscapeIsOneLine(s: string)
    ensures OneLine(Escape(s))
  {
    if s != [] {
      EscapeIsOneLine(s[1..]);
      CharIsOneLine(s[0]);
    }
  }

  lemma CharIsOneLine(c: char)
    ensures OneLine(EscapeChar(c))
  {
    if c as int < 32 {
      HexDigitReadsBack(c as int / 16);
      HexDigitReadsBack(c as int % 16);
    }
  }

  lemma DigitsAreOneLine(n: nat)
    ensures OneLine(Decimal(n))
  {
    DecimalReadsBack(n);
  }

  lemma {:induction false} JoinIsOneLine(parts: seq<string>)
    requires forall i | 0 <= i < |parts| :: OneLine(parts[i])
    ensures OneLine(Join(parts))
  {
    if |parts| > 1 {
      JoinIsOneLine(parts[1..]);
    }
  }

  lemma ParamIsOneLine(p: Param)
    ensures OneLine(ParamText(p))
  {
    match p
    case U8(n) => DigitsAreOneLine(n);
    case U32(n) => DigitsAreOneLine(n);
    case Usize(n) => DigitsAreOneLine(n);
    case Text(s) => EscapeIsOneLine(s);
    case Flag(_) =>
    case Bytes(bs) =>
      forall i | 0 <= i < |bs| ensures OneLine(ByteTexts(bs)[i]) { DigitsAreOneLine(bs[i]); }
      JoinIsOneLine(ByteTexts(bs));
  }

  lemma TailIsOneLine(m: JsonRpcMsg)
    requires m.Request?
    ensures OneLine(TextAfterId(m))
  {
    var a, b := Quoted(m.jsonrpc), Quoted(MethodName(m.verb));
    EscapeIsOneLine(m.jsonrpc);
    EscapeIsOneLine(MethodName(m.verb));
    forall i | 0 <= i < |m.params| ensures OneLine(ParamTexts(m.params)[i]) { ParamIsOneLine(m.params[i]); }
    JoinIsOneLine(ParamTexts(m.params));
    var c := Join(ParamTexts(m.params));
    assert OneLine(a) && OneLine(b) && OneLine(c);
    PiecesAreOneLine(a, b, c);
  }

  lemma PiecesAreOneLine(a: string, b: string, c: string)
    requires OneLine(a) && OneLine(b) && OneLine(c)
    ensures OneLine(",\"jsonrpc\":" + a + ",\"method\":" + b + ",\"params\":[" + c + "]}")
  {
    assert OneLine(",\"jsonrpc\":" + a);
    assert OneLine(",\"jsonrpc\":" + a + ",\"method\":" + b);
    assert OneLine(",\"jsonrpc\":" + a + ",\"method\":" + b + ",\"params\":[" + c);
  }

  lemma TextIsOneLine(m: JsonRpcMsg)
    requires m.Request?
    ensures OneLine(RequestText(m))
  {
    DigitsAreOneLine(m.id);
    TailIsOneLine(m);
    assert OneLine(ID_PREFIX);
  }

  // ----- the texts of a run of messages

  predicate AllRequests(ms: seq<JsonRpcMsg>) {
    forall i | 0 <= i < |ms| :: ms[i].Request?
  }

  function Texts(ms: seq<JsonRpcMsg>): (ts: seq<string>)
    requires AllRequests(ms)
    ensures |ts| == |ms|
  {
    seq(|ms|, i requires 0 <= i < |ms| => RequestText(ms[i]))
  }

  lemma TextAt(ms: seq<JsonRpcMsg>, i: nat)
    requires AllRequests(ms) && i < |ms|
    ensures Texts(ms)[i] == RequestText(ms[i])
  {
  }

  lemma TextsAreLines(ms: seq<JsonRpcMsg>)
    requires AllRequests(ms)
    ensures AllOneLine(Texts(ms))
  {
    forall i | 0 <= i < |ms| ensures OneLine(Texts(ms)[i]) { TextIsOneLine(ms[i]); }
  }

  lemma TextsAppend(a: seq<JsonRpcMsg>, b: seq<JsonRpcMsg>)
    requires AllRequests(a) && AllRequests(b)
    ensures AllRequests(a + b) && Texts(a + b) == Texts(a) + Texts(b)
  {
    var joined, parts := Texts(a + b), Texts(a) + Texts(b);
    forall i | 0 <= i < |joined| ensures joined[i] == parts[i] {
      if i < |a| {
        assert (a + b)[i] == a[i];
      } else {
        assert (a + b)[i] == b[i - |a|];
      }
    }
  }

  // ----- the id can be read back from the text

  function LeadingDigits(s: string): (i: nat)
    ensures i <= |s| && AllDigits(s[..i])
  {
    if s == [] || !IsDigit(s[0]) then 0 else 1 + LeadingDigits(s[1..])
  }

  /** The id a server finds at the head of a request line. */
  function ReadId(line: string): Option<nat> {
    if ID_PREFIX <= line then
      var rest := line[|ID_PREFIX|..];
      var n := LeadingDigits(rest);
      if n == 0 then None else Some(DecimalValue(rest[..n]))
    else None
  }

  lemma {:induction false} LeadingDigitsStop(ds: string, rest: string)
    requires AllDigits(ds) && rest != [] && !IsDigit(rest[0])
    ensures LeadingDigits(ds + rest) == |ds|
  {
    if ds == [] {
      assert ds + rest == rest;
    } else {
      LeadingDigitsStop(ds[1..], rest);
      assert (ds + rest)[1..] == ds[1..] + rest;
    }
  }

  lemma IdShows(id: nat, after: string)
    requires after != [] && after[0] == ','
    ensures ReadId(ID_PREFIX + Decimal(id) + after) == Some(id)
  {
    var digits := Decimal(id);
    var line := ID_PREFIX + digits + after;
    DecimalReadsBack(id);
    assert line == ID_PREFIX + (digits + after);
    assert line[|ID_PREFIX|..] == digits + after;
    LeadingDigitsStop(digits, after);
    assert (digits + after)[..|digits|] == digits;
  }

  lemma TextShowsId(m: JsonRpcMsg)
    requires m.Request?
    ensures ReadId(RequestText(m)) == Some(m.id)
  {
    assert TextAfterId(m)[0] == ',';
    IdShows(m.id, TextAfterId(m));
  }

  /** Requests with different ids have different texts. */
  lemma TextsDiffer(m: JsonRpcMsg, n: JsonRpcMsg)
    requires m.Request? && n.Request? && m.id != n.id
    ensures RequestText(m) != RequestText(n)
  {
    TextShowsId(m);
    TextShowsId(n);
  }

  // ----- events and batches

  datatype ClientEvent =
    | SendMsg(msg: JsonRpcMsg)
    | SendBatch(msgs: seq<JsonRpcMsg>)
    | Close
    | Stop

  function OnlyRequests(ms: seq<JsonRpcMsg>): (r: seq<JsonRpcMsg>)
    ensures AllRequests(r)
    ensures AllRequests(ms) ==> r == ms
  {
    if ms == [] then []
    else
      var most, last := OnlyRequests(ms[..|ms| - 1]), ms[|ms| - 1];
      if last.Request? then most + [last] else most
  }

  /** The requests that an event puts on the wire. */
  function Payload(e: ClientEvent): (r: seq<JsonRpcMsg>)
    ensures AllRequests(r)
  {
    match e
    case SendMsg(m) => OnlyRequests([m])
    case SendBatch(ms) => OnlyRequests(ms)
    case Close => []
    case Stop => []
  }

  function Payloads(es: seq<ClientEvent>): (r: seq<JsonRpcMsg>)
    ensures AllRequests(r)
  {
    if es == [] then [] else Payload(es[0]) + Payloads(es[1..])
  }

  /** The text of any other message, of which nothing is assumed: the client sends none. */
  const OtherText: JsonRpcMsg -> string

  function MessageText(m: JsonRpcMsg): string {
    if m.Request? then RequestText(m) else OtherText(m)
  }

  /** The text of a message with a newline appended (`as_bytes`); of a request, its line on the wire. */
  method AsBytes(m: JsonRpcMsg) returns (bytes: string)
    ensures bytes == MessageText(m) + "\n"
    ensures m.Request? ==> bytes == WireText([m])
  {
    bytes := MessageText(m);
    bytes := bytes + "\n";
    if m.Request? {
      assert Texts([m]) == [RequestText(m)];
      assert Stream([RequestText(m)]) == RequestText(m) + "\n" + Stream([]);
    }
  }

  /** The characters of a run of requests. */
  function WireText(ms: seq<JsonRpcMsg>): string
    requires AllRequests(ms)
  {
    Stream(Texts(ms))
  }

  /** The buffer that the sender fills for a batch; anything but a request is left out. */
  method FillBatch(batch: seq<JsonRpcMsg>) returns (bytes: string)
    ensures bytes == WireText(Payload(SendBatch(batch)))
  {
    bytes := "";
    var i := 0;
    while i < |batch|
      invariant i <= |batch|
      invariant bytes == WireText(OnlyRequests(batch[..i]))
    {
      FillStep(batch, i);
      if batch[i].Request? {
        var more := AsBytes(batch[i]);
        bytes := bytes + more;
      }
      i := i + 1;
    }
    assert batch[..i] == batch;
  }

  /** The buffer that the sender fills for one event. */
  method FillBuffer(e: ClientEvent) returns (bytes: string)
    requires e.SendBatch? || (e.SendMsg? && e.msg.Request?)
    ensures bytes == WireText(Payload(e))
  {
    if e.SendMsg? {
      bytes := AsBytes(e.msg);
      assert Payload(e) == [e.msg];
    } else {
      bytes := FillBatch(e.msgs);
    }
  }

  lemma FillStep(batch: seq<JsonRpcMsg>, i: nat)
    requires i < |batch|
    ensures batch[i].Request? ==>
      WireText(OnlyRequests(batch[..i + 1])) == WireText(OnlyRequests(batch[..i])) + WireText([batch[i]])
    ensures !batch[i].Request? ==> OnlyRequests(batch[..i + 1]) == OnlyRequests(batch[..i])
  {
    OnlyRequestsStep(batch, i);
    if batch[i].Request? {
      StreamStep(OnlyRequests(batch[..i]), [batch[i]]);
    }
  }

  lemma StreamStep(a: seq<JsonRpcMsg>, b: seq<JsonRpcMsg>)
    requires AllRequests(a) && AllRequests(b)
    ensures AllRequests(a + b) && Stream(Texts(a + b)) == Stream(Texts(a)) + Stream(Texts(b))
  {
    TextsAppend(a, b);
    StreamAppend(Texts(a), Texts(b));
  }

  lemma OnlyRequestsStep(ms: seq<JsonRpcMsg>, i: nat)
    requires i < |ms|
    ensures OnlyRequests(ms[..i + 1])
         == OnlyRequests(ms[..i]) + if ms[i].Request? then [ms[i]] else []
  {
    assert ms[..i + 1][..i] == ms[..i];
  }

  /** What the sender writes for a run of events, one buffer an event. */
  function WrittenFor(es: seq<ClientEvent>): string {
    if es == [] then "" else WireText(Payload(es[0])) + WrittenFor(es[1..])
  }

  /** However messages are grouped into single sends and batches, the stream is the
      concatenation of their lines, and splitting it at the newlines gives back
      their texts in order. */
  lemma {:induction false} GroupingIsInvisible(es: seq<ClientEvent>)
    ensures WrittenFor(es) == WireText(Payloads(es))
    ensures CompleteLines(WrittenFor(es)) == Texts(Payloads(es))
  {
    if es != [] {
      GroupingIsInvisible(es[1..]);
      StreamStep(Payload(es[0]), Payloads(es[1..]));
    }
    TextsAreLines(Payloads(es));
    LinesOfStream(Texts(Payloads(es)), "");
    assert Stream(Texts(Payloads(es))) + "" == Stream(Texts(Payloads(es)));
  }

  function Singles(ms: seq<JsonRpcMsg>): (es: seq<ClientEvent>)
    ensures |es| == |ms|
  {
    seq(|ms|, i requires 0 <= i < |ms| => SendMsg(ms[i]))
  }

  lemma {:induction false} SinglesPayload(ms: seq<JsonRpcMsg>)
    requires AllRequests(ms)
    ensures Payloads(Singles(ms)) == ms
  {
    if ms != [] {
      SinglesPayload(ms[1..]);
      assert Singles(ms)[1..] == Singles(ms[1..]);
      assert Payload(Singles(ms)[0]) == [ms[0]];
    }
  }

  /** One batch of n requests is written exactly as n single sends. */
  lemma BatchIsSingles(ms: seq<JsonRpcMsg>)
    requires AllRequests(ms)
    ensures WrittenFor([SendBatch(ms)]) == WrittenFor(Singles(ms))
  {
    SinglesPayload(ms);
    GroupingIsInvisible(Singles(ms));
    GroupingIsInvisible([SendBatch(ms)]);
    assert Payloads([SendBatch(ms)]) == Payload(SendBatch(ms)) + Payloads([]);
  }
}
