/** The other side of the wire: a server that follows the Electrum protocol, reads the
    requests and writes the answers and notifications. It is written against the
    protocol, on JSON documents: the reader is the partner of `method` and `params`, the
    writer the partner of `to_response` and `to_notification` (src/types/mod.rs). Where
    client and protocol differ, the exact difference is stated. */
module Server {
  import opened Base
  import opened Methods
  import opened Messages
  import opened Headers
  import opened Responses
  import opened Machine
  import opened Readings

  predicate Distinct(names: seq<string>) {
    forall i, j | 0 <= i < j < |names| :: names[i] != names[j]
  }

  /** An object with the members that are there. */
  function Record(names: seq<string>, values: seq<Option<Value>>): Value
    requires |names| == |values|
  {
    Obj(Members(names, values))
  }

  function Members(names: seq<string>, values: seq<Option<Value>>): (m: map<string, Value>)
    requires |names| == |values|
    ensures forall n :: n in m ==> n in names
  {
    if names == [] then map[]
    else
      var rest := Members(names[1..], values[1..]);
      if values[0].Some? then rest[names[0] := values[0].value] else rest
  }

  lemma {:induction false} MemberAt(names: seq<string>, values: seq<Option<Value>>, i: nat)
    requires |names| == |values| && Distinct(names) && i < |names|
    ensures values[i].Some? ==> names[i] in Members(names, values) && Members(names, values)[names[i]] == values[i].value
    ensures values[i].None? ==> names[i] !in Members(names, values)
  {
    if i > 0 {
      assert names[1..][i - 1] == names[i];
      MemberAt(names[1..], values[1..], i - 1);
    } else if values[0].None? {
      assert names[0] !in names[1..];
    }
  }

  lemma FieldAt(names: seq<string>, values: seq<Option<Value>>, i: nat)
    requires |names| == |values| && Distinct(names) && i < |names|
    ensures FieldOf(Record(names, values), names, i) == values[i]
  {
    MemberAt(names, values, i);
  }

  // ----- texts

  function Hex(bs: seq<byte>): Value {
    Str(ToHex(bs))
  }

  /** A transaction id is read back from its reversed text. */
  lemma TxidReadsBack(t: Txid)
    ensures AsTxid(Str(TxidText(t))) == Some(t)
  {
    HexReadsBack(Reverse(t.hash));
    ReversedTwice(t.hash);
  }

  // ----- the results

  /** What the protocol leaves to the server: which optional members it leaves out where
      there is nothing to say, instead of writing null (by history entry; of the
      features, the hash function first and then the pruning limit), and whether it
      writes a fee that is a whole number without a fraction. */
  datatype Style = Style(leavesOut: nat -> bool, wholeFees: bool)

  function WriteOption<A>(a: Option<A>, f: A -> Value, leftOut: bool): Option<Value> {
    if a.Some? then Some(f(a.value)) else if leftOut then None else Some(Null)
  }

  function WriteNotice(n: HeaderNotice): Value {
    Record(["height", "hex"], [Some(Int(n.height)), Some(Hex(EncodeHeader(n.header)))])
  }

  function WriteHistoryEntry(h: HistoryEntry, leftOut: bool): Value {
    Record(["height", "tx_hash", "fee"],
           [Some(Int(h.height)), Some(Str(TxidText(h.txHash))), WriteOption(h.fee, (n: usize) => Int(n), leftOut)])
  }

  function WriteHistory(hs: seq<HistoryEntry>, leavesOut: nat -> bool): seq<Value> {
    if hs == [] then []
    else WriteHistory(hs[..|hs| - 1], leavesOut) + [WriteHistoryEntry(hs[|hs| - 1], leavesOut(|hs| - 1))]
  }

  function WriteFeatures(f: ServerFeatures, leavesOut: nat -> bool): Value {
    Record(["server_version", "genesis_hash", "protocol_min", "protocol_max", "hash_function", "pruning"],
           [Some(Str(f.serverVersion)), Some(Hex(f.genesisHash)), Some(Str(f.protocolMin)), Some(Str(f.protocolMax)),
            WriteOption(f.hashFunction, (s: string) => Str(s), leavesOut(0)),
            WriteOption(f.pruning, (n: int) => Int(n), leavesOut(1))])
  }

  function WriteFee(x: real, whole: bool): Value {
    if whole && x == x.Floor as real then Int(x.Floor) else Float(x)
  }

  /** The result that carries the response. A ping is answered by null, and so is the
      subscription to a script without history. */
  function WriteResult(r: Response, how: Style): Value {
    match r
    case BlockHeader(h) => Hex(EncodeHeader(h))
    case BlockHeaders(res) =>
      Record(["max", "count", "hex"], [Some(Int(res.max)), Some(Int(res.count)), Some(Hex(EncodeHeaders(res.headers)))])
    case HeaderTip(n) => WriteNotice(n)
    case Status(s) => if s.Some? then Hex(s.value) else Null
    case Unsubscribed(b) => Value.Bool(b)
    case Fee(x) => WriteFee(x, how.wholeFees)
    case Broadcasted(t) => Str(TxidText(t))
    case Transaction(tx) => Hex(tx.raw)
    case Balance(c, u) => Record(["confirmed", "unconfirmed"], [Some(Int(c)), Some(Int(u))])
    case History(hs) => Arr(WriteHistory(hs, how.leavesOut))
    case ServerInfo(f) => WriteFeatures(f, how.leavesOut)
    case Pong => Null
    case NoResult => Null
  }

  predicate InI64(n: int) {
    -0x8000_0000_0000_0000 <= n < 0x8000_0000_0000_0000
  }

  /** What a server may answer: a response of the variant of the request, or that a script has no status. */
  predicate MayAnswer(r: Response, req: Request) {
    Answers(r, req) || (req.ScriptSubscribe? && r == Status(None))
  }

  /** The integers that the source keeps in 64 signed bits. */
  predicate Fits(r: Response) {
    match r
    case Balance(_, u) => InI64(u)
    case ServerInfo(f) => f.pruning.Some? ==> InI64(f.pruning.value)
    case _ => true
  }

  // ----- reading them back

  lemma NoticeReadsBack(n: HeaderNotice)
    ensures AsNotice(WriteNotice(n)) == Some(n)
  {
    var names, values := ["height", "hex"], [Some(Int(n.height)), Some(Hex(EncodeHeader(n.header)))];
    assert |names[0]| == 6 && |names[1]| == 3;
    FieldAt(names, values, 0);
    FieldAt(names, values, 1);
    HexReadsBack(EncodeHeader(n.header));
    HeaderReadsBack(n.header);
  }

  lemma BalanceReadsBack(c: usize, u: int)
    requires InI64(u)
    ensures AsBalance(Record(["confirmed", "unconfirmed"], [Some(Int(c)), Some(Int(u))])) == Some(Balance(c, u))
  {
    var names, values := ["confirmed", "unconfirmed"], [Some(Int(c)), Some(Int(u))];
    assert |names[0]| == 9 && |names[1]| == 11;
    FieldAt(names, values, 0);
    FieldAt(names, values, 1);
  }

  /** An entry is read back, whether a missing fee is left out or null. */
  lemma EntryReadsBack(h: HistoryEntry, leftOut: bool)
    ensures AsHistoryEntry(WriteHistoryEntry(h, leftOut)) == Some(h)
  {
    var names := ["height", "tx_hash", "fee"];
    var values := [Some(Int(h.height)), Some(Str(TxidText(h.txHash))), WriteOption(h.fee, (n: usize) => Int(n), leftOut)];
    assert |names[0]| == 6 && |names[1]| == 7 && |names[2]| == 3;
    FieldAt(names, values, 0);
    FieldAt(names, values, 1);
    FieldAt(names, values, 2);
    TxidReadsBack(h.txHash);
  }

  lemma HistoryAppends(vs: seq<Value>, hs: seq<HistoryEntry>, v: Value, h: HistoryEntry)
    requires AsHistory(vs) == Some(hs) && AsHistoryEntry(v) == Some(h)
    ensures AsHistory(vs + [v]) == Some(hs + [h])
  {
    HistoryIsExact(vs, hs);
    EntryIsExact(v, h);
    HistoryIsExact(vs + [v], hs + [h]);
  }

  lemma {:induction false} HistoryReadsBack(hs: seq<HistoryEntry>, leavesOut: nat -> bool)
    ensures AsHistory(WriteHistory(hs, leavesOut)) == Some(hs)
  {
    if hs != [] {
      var n := |hs| - 1;
      EntryReadsBack(hs[n], leavesOut(n));
      HistoryReadsBack(hs[..n], leavesOut);
      HistoryAppends(WriteHistory(hs[..n], leavesOut), hs[..n], WriteHistoryEntry(hs[n], leavesOut(n)), hs[n]);
      assert hs == hs[..n] + [hs[n]];
    }
  }

  lemma FeaturesFrom(v: Value, f: ServerFeatures, leavesOut: nat -> bool)
    requires IsRecord(v, FEATURE_FIELDS)
    requires FieldOf(v, FEATURE_FIELDS, 0) == Some(Str(f.serverVersion))
    requires FieldOf(v, FEATURE_FIELDS, 1) == Some(Hex(f.genesisHash))
    requires FieldOf(v, FEATURE_FIELDS, 2) == Some(Str(f.protocolMin))
    requires FieldOf(v, FEATURE_FIELDS, 3) == Some(Str(f.protocolMax))
    requires FieldOf(v, FEATURE_FIELDS, 4) == WriteOption(f.hashFunction, (s: string) => Str(s), leavesOut(0))
    requires FieldOf(v, FEATURE_FIELDS, 5) == WriteOption(f.pruning, (n: int) => Int(n), leavesOut(1))
    requires f.pruning.Some? ==> InI64(f.pruning.value)
    ensures AsFeatures(v) == Some(f)
  {
    HexReadsBack(f.genesisHash);
  }

  /** Features are read back, whichever of the optional ones are left out or null. */
  lemma FeaturesReadBack(f: ServerFeatures, leavesOut: nat -> bool)
    requires f.pruning.Some? ==> InI64(f.pruning.value)
    ensures AsFeatures(WriteFeatures(f, leavesOut)) == Some(f)
  {
    var names := ["server_version", "genesis_hash", "protocol_min", "protocol_max", "hash_function", "pruning"];
    var values := [Some(Str(f.serverVersion)), Some(Hex(f.genesisHash)), Some(Str(f.protocolMin)), Some(Str(f.protocolMax)),
                   WriteOption(f.hashFunction, (s: string) => Str(s), leavesOut(0)),
                   WriteOption(f.pruning, (n: int) => Int(n), leavesOut(1))];
    FeatureNamesDiffer(names);
    FieldAt(names, values, 0);
    FieldAt(names, values, 1);
    FieldAt(names, values, 2);
    FieldAt(names, values, 3);
    FieldAt(names, values, 4);
    FieldAt(names, values, 5);
    FeaturesFrom(Record(names, values), f, leavesOut);
  }

  lemma FeatureNamesDiffer(names: seq<string>)
    requires names == ["server_version", "genesis_hash", "protocol_min", "protocol_max", "hash_function", "pruning"]
    ensures Distinct(names)
  {
    assert |names[0]| == 14 && |names[1]| == 12 && |names[2]| == 12 && |names[3]| == 12 && |names[4]| == 13 && |names[5]| == 7;
    assert names[1][0] == 'g' && names[2][0] == 'p' && names[3][0] == 'p';
    assert names[2][10] == 'i' && names[3][10] == 'a';
  }

  lemma {:induction false} EncodedAt(hs: seq<Header>, k: nat)
    requires k < |hs|
    ensures EncodeHeaders(hs)[80 * k..80 * k + 80] == EncodeHeader(hs[k])
  {
    var n := |hs| - 1;
    var before, last := EncodeHeaders(hs[..n]), EncodeHeader(hs[n]);
    assert EncodeHeaders(hs) == before + last;
    if k < n {
      EncodedAt(hs[..n], k);
      assert (before + last)[80 * k..80 * k + 80] == before[80 * k..80 * k + 80];
    } else {
      assert (before + last)[80 * n..80 * n + 80] == last;
    }
  }

  lemma HeaderAtReadsBack(hs: seq<Header>, raw: seq<byte>, k: nat)
    requires k < |hs| && raw == EncodeHeaders(hs)
    ensures HeaderAt(raw, k) == hs[k]
  {
    EncodedAt(hs, k);
    HeaderReadsBack(hs[k]);
    assert raw[80 * k..80 * k + 80] == EncodeHeader(hs[k]);
  }

  /** Slicing the concatenation of encoded headers gives the headers back. */
  lemma HeadersReadBack(hs: seq<Header>)
    ensures Slices(EncodeHeaders(hs), |hs|) == Some(hs)
  {
    var raw := EncodeHeaders(hs);
    forall k | 0 <= k < |hs| ensures HeaderAt(raw, k) == hs[k] {
      HeaderAtReadsBack(hs, raw, k);
    }
    SlicesFrom(raw, hs);
  }

  lemma SlicesFrom(raw: seq<byte>, hs: seq<Header>)
    requires |raw| == 80 * |hs| && forall k | 0 <= k < |hs| :: HeaderAt(raw, k) == hs[k]
    ensures Slices(raw, |hs|) == Some(hs)
  {
    var read := Slices(raw, |hs|);
    assert read.Some? && |read.value| == |hs|;
    forall k | 0 <= k < |hs| ensures read.value[k] == hs[k] {
      assert read.value[k] == HeaderAt(raw, k);
    }
    assert read.value == hs;
  }

  lemma HeaderListFrom(v: Value, res: HeadersResult, req: Request)
    requires FieldOf(v, HEADERS_FIELDS, 0) == Some(Int(res.max))
    requires FieldOf(v, HEADERS_FIELDS, 1) == Some(Int(res.count))
    requires FieldOf(v, HEADERS_FIELDS, 2) == Some(Hex(EncodeHeaders(res.headers)))
    requires req.GetBlockHeaders? && res.raw == [] && |res.headers| == res.count
    ensures ReadResult(v, req) == Typed(BlockHeaders(res))
  {
    var raw := EncodeHeaders(res.headers);
    HexReadsBack(raw);
    HeadersReadBack(res.headers);
    assert AsHeadersResult(v) == Some(HeadersResult(res.max, res.count, raw, []));
  }

  lemma HeaderListReadsBack(res: HeadersResult, req: Request, how: Style)
    requires req.GetBlockHeaders? && res.raw == [] && |res.headers| == res.count
    ensures ReadResult(WriteResult(BlockHeaders(res), how), req) == Typed(BlockHeaders(res))
  {
    var names := ["max", "count", "hex"];
    var values := [Some(Int(res.max)), Some(Int(res.count)), Some(Hex(EncodeHeaders(res.headers)))];
    assert |names[0]| == 3 && |names[1]| == 5 && |names[2]| == 3 && names[0][0] == 'm' && names[2][0] == 'h';
    FieldAt(names, values, 0);
    FieldAt(names, values, 1);
    FieldAt(names, values, 2);
    HeaderListFrom(Record(names, values), res, req);
  }

  lemma FeeReadsBack(x: real, whole: bool, req: Request)
    requires req.EstimateFee?
    ensures ReadResult(WriteFee(x, whole), req) == Typed(Fee(x))
  {
  }

  /** Every response of the right variant but the one to a ping is read back from the
      result that carries it, in whichever style it is written, and that result is not null. */
  lemma ResultReadsBack(r: Response, req: Request, how: Style)
    requires Answers(r, req) && Fits(r) && !req.Ping?
    ensures ReadResult(WriteResult(r, how), req) == Typed(r) && WriteResult(r, how) != Null
  {
    match r
    case BlockHeader(h) => HexReadsBack(EncodeHeader(h)); HeaderReadsBack(h);
    case BlockHeaders(res) => HeaderListReadsBack(res, req, how);
    case HeaderTip(n) => NoticeReadsBack(n);
    case Status(s) => HexReadsBack(s.value);
    case Fee(x) => FeeReadsBack(x, how.wholeFees, req);
    case Broadcasted(t) => TxidReadsBack(t);
    case Transaction(tx) => HexReadsBack(tx.raw);
    case Balance(c, u) => BalanceReadsBack(c, u);
    case History(hs) => HistoryReadsBack(hs, how.leavesOut);
    case ServerInfo(f) => FeaturesReadBack(f, how.leavesOut);
    case _ =>
  }

  /** The document answers the id: the id, a version and the result are there once each,
      in any order and among any other members, and it is not a request. There may be an
      error once, or none. */
  ghost predicate AnswersWith(doc: Document, id: usize, version: string, result: Option<Value>, error: Option<Value>) {
    && Once(doc, "id", Int(id)) && Once(doc, "jsonrpc", Str(version))
    && Optionally(doc, "result", result) && Optionally(doc, "error", error) && !IsRequest(doc)
  }

  lemma AnswerResponds(doc: Document, id: usize, version: string, result: Option<Value>, error: Option<Value>)
    requires AnswersWith(doc, id, version, result, error)
    ensures Responds(doc, id, result)
  {
    assert MeansResponse(doc, JsonRpcMsg.Response(id, version, result, error));
  }

  /** An answer that follows the protocol, in any document, to an id that is pending,
      retires the id and publishes exactly the response that the server meant, unless
      what it meant is written as null: an answered ping, or a script without status, is
      not published. */
  lemma AnswerIsPublished(inventory: map<usize, Request>, doc: Document, id: usize, version: string, r: Response,
                          how: Style, error: Option<Value>)
    requires id in inventory && MayAnswer(r, inventory[id]) && Fits(r)
    requires AnswersWith(doc, id, version, NotNull(WriteResult(r, how)), error)
    ensures Effect(inventory, Json(doc)) == Retires(id, if r == Pong || r == Status(None) then None else Some(r))
  {
    if r == Pong || r == Status(None) {
      SilentAnswer(inventory, doc, id, version, error);
    } else {
      var v := WriteResult(r, how);
      AnswerResponds(doc, id, version, Some(v), error);
      ResultReadsBack(r, inventory[id], how);
      ResultIsExact(v, inventory[id], r);
      PublicationIsExact(inventory, doc, id, r);
    }
  }

  function NotNull(v: Value): Option<Value> {
    if v == Null then None else Some(v)
  }

  /** An answer without a result or with null, with or without an error, to whatever is
      pending, retires the id and publishes nothing. */
  lemma SilentAnswer(inventory: map<usize, Request>, doc: Document, id: usize, version: string, error: Option<Value>)
    requires id in inventory && AnswersWith(doc, id, version, None, error)
    ensures Effect(inventory, Json(doc)) == Retires(id, None)
  {
    AnswerResponds(doc, id, version, None, error);
    assert SaysNothing(None, inventory[id]);
    SilenceIsExact(inventory, doc, id);
  }

  // ----- the documents that servers write

  /** On success there is a result and no error, on failure an error and no result. */
  function AnswerDocument(id: usize, result: Value): Document {
    [("jsonrpc", Str("2.0")), ("result", result), ("id", Int(id))]
  }

  function ErrorDocument(id: usize, error: Value): Document {
    [("jsonrpc", Str("2.0")), ("error", error), ("id", Int(id))]
  }

  /** Without a method there is no request. */
  lemma NoMethodNoRequest(doc: Document)
    requires Missing(doc, "method")
    ensures !IsRequest(doc)
  {
  }

  lemma ThreeMembers(doc: Document, name: string, v: Value, id: usize)
    requires doc == [("jsonrpc", Str("2.0")), (name, v), ("id", Int(id))] && (name == "result" || name == "error")
    ensures Once(doc, "jsonrpc", Str("2.0")) && Once(doc, name, v) && Once(doc, "id", Int(id))
    ensures Missing(doc, if name == "result" then "error" else "result") && !IsRequest(doc)
  {
    MemberNamesDiffer();
    assert OnlyAt(doc, "jsonrpc", Str("2.0"), 0) && OnlyAt(doc, name, v, 1) && OnlyAt(doc, "id", Int(id), 2);
    NoMethodNoRequest(doc);
  }

  /** The answer as servers write it. */
  lemma WrittenAnswerIsPublished(inventory: map<usize, Request>, id: usize, r: Response, how: Style)
    requires id in inventory && MayAnswer(r, inventory[id]) && Fits(r)
    ensures Effect(inventory, Json(AnswerDocument(id, WriteResult(r, how))))
         == Retires(id, if r == Pong || r == Status(None) then None else Some(r))
  {
    var doc := AnswerDocument(id, WriteResult(r, how));
    ThreeMembers(doc, "result", WriteResult(r, how), id);
    AnswerIsPublished(inventory, doc, id, "2.0", r, how, None);
  }

  /** An error, in answer to whatever is pending, retires the id and publishes nothing. */
  lemma WrittenErrorIsSilent(inventory: map<usize, Request>, id: usize, error: Value)
    requires id in inventory
    ensures Effect(inventory, Json(ErrorDocument(id, error))) == Retires(id, None)
  {
    ThreeMembers(ErrorDocument(id, error), "error", error, id);
    SilentAnswer(inventory, ErrorDocument(id, error), id, "2.0", NotNull(error));
  }

  /** A result that claims one header and holds none. */
  function ShortList(): Value {
    Record(["max", "count", "hex"], [Some(Int(2016)), Some(Int(1)), Some(Str(""))])
  }

  lemma ShortListIsRead()
    ensures AsHeadersResult(ShortList()) == Some(HeadersResult(2016, 1, [], []))
  {
    var names, values := ["max", "count", "hex"], [Some(Int(2016)), Some(Int(1)), Some(Str(""))];
    assert |names[0]| == 3 && |names[1]| == 5 && |names[2]| == 3 && names[0][0] == 'm' && names[2][0] == 'h';
    FieldAt(names, values, 0);
    FieldAt(names, values, 1);
    FieldAt(names, values, 2);
  }

  /** It makes the receiver panic, and the id stays pending. */
  lemma ShortListPanics(inventory: map<usize, Request>, id: usize)
    requires id in inventory && inventory[id].GetBlockHeaders?
    ensures Effect(inventory, Json(AnswerDocument(id, ShortList()))) == Panics(id)
  {
    var doc := AnswerDocument(id, ShortList());
    ThreeMembers(doc, "result", ShortList(), id);
    AnswerResponds(doc, id, "2.0", Some(ShortList()), None);
    ResponseIsRead(doc, id, Some(ShortList()));
    ShortListIsRead();
    PanicsExactly(Decode(doc).value, inventory[id]);
  }

  // ----- notifications

  function WriteNotices(ns: seq<HeaderNotice>): seq<Value> {
    if ns == [] then [] else [WriteNotice(ns[0])] + WriteNotices(ns[1..])
  }

  lemma {:induction false} NoticesReadBack(ns: seq<HeaderNotice>)
    ensures AsNotices(WriteNotices(ns)) == Some(ns)
  {
    if ns != [] {
      NoticeReadsBack(ns[0]);
      NoticesReadBack(ns[1..]);
      var vs := WriteNotices(ns);
      assert vs[0] == WriteNotice(ns[0]) && vs[1..] == WriteNotices(ns[1..]);
      assert ns == [ns[0]] + ns[1..];
    }
  }

  /** What a server announces. A script whose history is gone has no status. */
  datatype Announcement =
    | NewHeaders(notices: seq<HeaderNotice>)
    | ScriptChanged(script: ScriptHash, status: Option<ScriptStatus>)

  /** New headers come as a list of notices, a script's status as a list of a text and a text or null. */
  function WriteNotification(n: Announcement): JsonRpcMsg {
    match n
    case NewHeaders(ns) => JsonRpcMsg.Notification("2.0", Method.BlockHeaderSubscribe, Arr(WriteNotices(ns)))
    case ScriptChanged(script, status) =>
      JsonRpcMsg.Notification("2.0", Method.ScriptSubscribe,
                              Arr([Hex(script), if status.Some? then Hex(status.value) else Null]))
  }

  /** What the client can pass on of it. */
  function Announced(n: Announcement): Option<Notice> {
    match n
    case NewHeaders(ns) => Some(HeaderNotices(ns))
    case ScriptChanged(script, status) =>
      if status.Some? then Some(ScriptNotice(script, status.value)) else None
  }

  lemma NotificationReadsBack(n: Announcement)
    ensures ToNotification(WriteNotification(n)) == Announced(n)
  {
    match n
    case NewHeaders(ns) => NoticesReadBack(ns);
    case ScriptChanged(script, status) =>
      ClientReadsHash(script);
      if status.Some? {
        ClientReadsHash(status.value);
      }
  }

  lemma ClientReadsHash(h: Bytes32)
    ensures AsHex32(Hex(h)) == Some(h)
  {
    HexReadsBack(h);
  }

  /** A notification that follows the protocol is passed on as it was meant, whatever is
      pending, if and only if it is not about a script without status. */
  lemma NotificationIsPublished(inventory: map<usize, Request>, n: Announcement)
    ensures Effect(inventory, Json(Encode(WriteNotification(n))))
         == match Announced(n) case Some(notice) => Notices(notice) case None => Ignores
    ensures Announced(n).None? <==> n.ScriptChanged? && n.status.None?
  {
    NotificationReadsBack(n);
    ReadsBack(WriteNotification(n));
  }

  // ----- reading requests

  function NumberIn(v: Value): Option<usize> {
    if v.Int? && 0 <= v.n < WORD then Some(v.n) else None
  }

  function TextIn(v: Value): Option<string> {
    if v.Str? then Some(v.s) else None
  }

  function BytesIn(v: Value): Option<seq<byte>> {
    if v.Str? then FromHex(v.s) else None
  }

  function HashIn(v: Value): Option<Bytes32> {
    match BytesIn(v)
    case Some(bs) => if |bs| == 32 then Some(bs) else None
    case None => None
  }

  function ReadNone(verb: Method): Option<Request> {
    match verb
    case BlockHeaderSubscribe => Some(Request.BlockHeaderSubscribe)
    case Features => Some(Request.Features)
    case Ping => Some(Request.Ping)
    case _ => None
  }

  function ReadScript(verb: Method, h: ScriptHash): Option<Request> {
    match verb
    case ScriptSubscribe => Some(Request.ScriptSubscribe(h))
    case ScriptUnsubscribe => Some(Request.ScriptUnsubscribe(h))
    case GetBalance => Some(Request.GetBalance(h))
    case GetHistory => Some(Request.GetHistory(h))
    case _ => None
  }

  /** A raw transaction is a hexadecimal text, and so are hashes. */
  function ReadOne(verb: Method, v: Value): Option<Request> {
    match verb
    case GetBlockHeader => Then(NumberIn(v), n => Some(Request.GetBlockHeader(n)))
    case EstimateFee => Then(NumberIn(v), n => if n < 256 then Some(Request.EstimateFee(n)) else None)
    case BroadcastTx => Then(BytesIn(v), bs => Some(Request.BroadcastTx(Tx(bs))))
    case GetTransaction => Then(HashIn(v), h => Some(Request.GetTransaction(Txid(Reverse(h)))))
    case _ => Then(HashIn(v), h => ReadScript(verb, h))
  }

  function ReadTwo(verb: Method, v: Value, w: Value): Option<Request> {
    if verb.GetBlockHeaders? && NumberIn(v).Some? && NumberIn(w).Some? then
      Some(Request.GetBlockHeaders(NumberIn(v).value, NumberIn(w).value))
    else if verb.Version? && TextIn(v).Some? && TextIn(w).Some? then
      Some(Request.Version(TextIn(v).value, TextIn(w).value))
    else None
  }

  function ReadCall(verb: Method, params: seq<Value>): Option<Request> {
    if |params| == 0 then ReadNone(verb)
    else if |params| == 1 then ReadOne(verb, params[0])
    else if |params| == 2 then ReadTwo(verb, params[0], params[1])
    else None
  }

  datatype Numbered = Numbered(id: usize, req: Request)

  /** A request of version 2.0, with an id, the name of a method, and a list of parameters. */
  function ReadRequest(doc: Document): Option<Numbered> {
    match (Find(doc, "id"), Find(doc, "jsonrpc"), Find(doc, "method"), Find(doc, "params"))
    case (Present(Int(id)), Present(Str(version)), Present(Str(name)), Present(Arr(params))) =>
      if version == "2.0" && 0 <= id < WORD && ParseMethod(name).Some? then
        Then(ReadCall(ParseMethod(name).value, params), req => Some(Numbered(id, req)))
      else None
    case _ => None
  }

  lemma HashReadsBack(h: Bytes32)
    ensures HashIn(Hex(h)) == Some(h)
  {
    HexReadsBack(h);
  }

  predicate HasOneParam(req: Request) {
    |RequestParams(req)| == 1
  }

  lemma ScriptReadsBack(verb: Method, h: ScriptHash)
    requires ReadScript(verb, h).Some?
    ensures ReadOne(verb, Hex(h)) == ReadScript(verb, h)
  {
    HashReadsBack(h);
  }

  lemma ScriptCallReadsBack(req: Request, h: ScriptHash)
    requires RequestParams(req) == [Text(ToHex(h))] && ReadScript(RequestMethod(req), h) == Some(req)
    ensures ReadOne(RequestMethod(req), EncodeParam(RequestParams(req)[0])) == Some(req)
  {
    ScriptReadsBack(RequestMethod(req), h);
  }

  lemma TransactionReadsBack(t: Txid)
    ensures ReadOne(Method.GetTransaction, Str(TxidText(t))) == Some(Request.GetTransaction(t))
  {
    HashReadsBack(Reverse(t.hash));
    ReversedTwice(t.hash);
  }

  lemma OneReadsBack(req: Request)
    requires HasOneParam(req)
    ensures var r := ReadOne(RequestMethod(req), EncodeParam(RequestParams(req)[0]));
      r == if req.BroadcastTx? then None else Some(req)
  {
    match req
    case ScriptSubscribe(h) => ScriptCallReadsBack(req, h);
    case ScriptUnsubscribe(h) => ScriptCallReadsBack(req, h);
    case GetBalance(h) => ScriptCallReadsBack(req, h);
    case GetHistory(h) => ScriptCallReadsBack(req, h);
    case GetTransaction(t) => TransactionReadsBack(t);
    case _ =>
  }

  lemma CallReadsBack(req: Request)
    ensures ReadCall(RequestMethod(req), EncodeParams(RequestParams(req)))
         == if req.BroadcastTx? then None else Some(req)
  {
    EncodedParams(RequestParams(req));
    if HasOneParam(req) {
      OneReadsBack(req);
    }
  }

  lemma RequestIsRead(id: usize, req: Request)
    ensures ReadRequest(Encode(RequestMsg(id, req)))
         == Then(ReadCall(RequestMethod(req), EncodeParams(RequestParams(req))), r => Some(Numbered(id, r)))
  {
    EncodedMembers(RequestMsg(id, req));
    MethodNameReadsBack(RequestMethod(req), MethodName(RequestMethod(req)));
  }

  /** A request reaches the server as the request it is, its arguments in their places
      and under its own id, if and only if it is not the broadcast of a transaction. */
  lemma RequestIsUnderstood(id: usize, req: Request)
    ensures ReadRequest(Encode(RequestMsg(id, req))) == Some(Numbered(id, req)) <==> !req.BroadcastTx?
    ensures req.BroadcastTx? ==> ReadRequest(Encode(RequestMsg(id, req))) == None
  {
    RequestIsRead(id, req);
    CallReadsBack(req);
  }

  /** The name that the Electrum protocol has for the request. */
  function ProtocolName(req: Request): string {
    match req
    case GetBlockHeader(_) => "blockchain.block.header"
    case GetBlockHeaders(_, _) => "blockchain.block.headers"
    case EstimateFee(_) => "blockchain.estimatefee"
    case BlockHeaderSubscribe => "blockchain.headers.subscribe"
    case GetBalance(_) => "blockchain.scripthash.get_balance"
    case GetHistory(_) => "blockchain.scripthash.get_history"
    case ScriptSubscribe(_) => "blockchain.scripthash.subscribe"
    case ScriptUnsubscribe(_) => "blockchain.scripthash.unsubscribe"
    case BroadcastTx(_) => "blockchain.transaction.broadcast"
    case GetTransaction(_) => "blockchain.transaction.get"
    case Features => "server.features"
    case Ping => "server.ping"
    case Version(_, _) => "server.version"
  }

  /** Every request goes out as version 2.0 and under the protocol's name for it. */
  lemma RequestIsNamed(id: usize, req: Request)
    ensures var doc := Encode(RequestMsg(id, req));
      && Find(doc, "id") == Present(Int(id)) && Find(doc, "jsonrpc") == Present(Str("2.0"))
      && Find(doc, "method") == Present(Str(ProtocolName(req)))
  {
    EncodedMembers(RequestMsg(id, req));
    NameIsProtocol(req);
  }

  lemma NameIsProtocol(req: Request)
    ensures MethodName(RequestMethod(req)) == ProtocolName(req)
  {
  }

  /** The numbers that are the bytes. */
  function Numbers(bs: seq<byte>): (vs: seq<Value>)
    ensures |vs| == |bs| && forall i | 0 <= i < |bs| :: vs[i] == Int(bs[i])
  {
    if bs == [] then [] else Numbers(bs[..|bs| - 1]) + [Int(bs[|bs| - 1])]
  }

  /** The one parameter of a broadcast is the array of exactly the transaction's bytes,
      one number a byte, which is not a text. */
  lemma BroadcastIsMisread(id: usize, tx: Tx)
    ensures var doc := Encode(RequestMsg(id, Request.BroadcastTx(tx)));
      && Find(doc, "id") == Present(Int(id))
      && Find(doc, "method") == Present(Str("blockchain.transaction.broadcast"))
      && Find(doc, "params") == Present(Arr([Arr(Numbers(tx.raw))])) && ReadRequest(doc) == None
  {
    var req := Request.BroadcastTx(tx);
    RequestIsUnderstood(id, req);
    EncodedMembers(RequestMsg(id, req));
    EncodedParams(RequestParams(req));
    BytesAreNumbers(tx.raw);
    assert EncodeParams(RequestParams(req)) == [EncodeParam(RequestParams(req)[0])];
  }

  lemma BytesAreNumbers(bs: seq<byte>)
    ensures EncodeBytes(bs) == Numbers(bs)
  {
    forall i | 0 <= i < |bs| ensures EncodeBytes(bs)[i] == Numbers(bs)[i] {
    }
  }
}
