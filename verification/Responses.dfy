/** The typed reading of a response against the request it answers
    (`to_response` and `to_notification`, src/types/mod.rs). */
module Responses {
  import opened Base
  import opened Methods
  import opened Messages
  import opened Headers

  datatype HeadersResult = HeadersResult(max: usize, count: usize, raw: seq<byte>, headers: seq<Header>)

  datatype HeaderNotice = HeaderNotice(height: u32, header: Header)

  datatype HistoryEntry = HistoryEntry(height: i32, txHash: Txid, fee: Option<usize>)

  datatype ServerFeatures = ServerFeatures(
    serverVersion: string, genesisHash: Bytes32, protocolMin: string, protocolMax: string,
    hashFunction: Option<string>, pruning: Option<int>)

  datatype Response =
    | BlockHeader(header: Header)
    | BlockHeaders(res: HeadersResult)
    | HeaderTip(notice: HeaderNotice)
    | Status(status: Option<ScriptStatus>)
    | Unsubscribed(was: bool)
    | Fee(fee: real)
    | Broadcasted(txid: Txid)
    | Transaction(tx: Tx)
    | Balance(confirmed: usize, unconfirmed: int)
    | History(entries: seq<HistoryEntry>)
    | ServerInfo(features: ServerFeatures)
    | Pong
    | NoResult

  /** What the Bitcoin library accepts as a serialized transaction. Nothing is assumed of it. */
  const TxAccepted: seq<byte> -> bool

  // ----- readers for the parts of a result

  function AsU32(v: Value): Option<u32> {
    if v.Int? && 0 <= v.n < 0x1_0000_0000 then Some(v.n) else None
  }

  function AsI32(v: Value): Option<i32> {
    if v.Int? && -0x8000_0000 <= v.n < 0x8000_0000 then Some(v.n) else None
  }

  function AsI64(v: Value): Option<int> {
    if v.Int? && -0x8000_0000_0000_0000 <= v.n < 0x8000_0000_0000_0000 then Some(v.n) else None
  }

  function AsHex(v: Value): Option<seq<byte>> {
    if v.Str? then FromHex(v.s) else None
  }

  function AsHex32(v: Value): Option<Bytes32> {
    match AsHex(v)
    case Some(bs) => if |bs| == 32 then Some(bs) else None
    case None => None
  }

  function AsTxid(v: Value): Option<Txid> {
    match AsHex32(v)
    case Some(bs) => Some(Txid(Reverse(bs)))
    case None => None
  }

  function AsHeader(v: Value): Option<Header> {
    match AsHex(v)
    case Some(bs) => DecodeHeader(bs)
    case None => None
  }

  function AsTx(v: Value): Option<Tx> {
    match AsHex(v)
    case Some(bs) => if TxAccepted(bs) then Some(Tx(bs)) else None
    case None => None
  }

  /** A member of a record: read by name from an object, by position from an array. */
  function FieldOf(v: Value, names: seq<string>, i: nat): (f: Option<Value>)
    requires i < |names|
  {
    match v
    case Obj(fields) => if names[i] in fields then Some(fields[names[i]]) else None
    case Arr(items) => if |items| == |names| then Some(items[i]) else None
    case _ => None
  }

  /** An array stands for a record only when it has exactly one item a field. */
  predicate IsRecord(v: Value, names: seq<string>) {
    v.Obj? || (v.Arr? && |v.items| == |names|)
  }

  function Then<A, B>(a: Option<A>, f: A -> Option<B>): Option<B> {
    if a.Some? then f(a.value) else None
  }

  /** An optional member: missing and null both read as no value. */
  function OptionalOf<A>(v: Option<Value>, f: Value -> Option<A>): Option<Option<A>> {
    if v.None? || v.value.Null? then Some(None)
    else if f(v.value).Some? then Some(Some(f(v.value).value))
    else None
  }

  const NOTICE_FIELDS := ["height", "hex"]
  const HEADERS_FIELDS := ["max", "count", "hex"]
  const HISTORY_FIELDS := ["height", "tx_hash", "fee"]
  const BALANCE_FIELDS := ["confirmed", "unconfirmed"]
  const SCRIPT_FIELDS := ["scripthash", "status"]
  const FEATURE_FIELDS :=
    ["server_version", "genesis_hash", "protocol_min", "protocol_max", "hash_function", "pruning"]

  function AsNotice(v: Value): Option<HeaderNotice> {
    var height := Then(FieldOf(v, NOTICE_FIELDS, 0), AsU32);
    var header := Then(FieldOf(v, NOTICE_FIELDS, 1), AsHeader);
    if height.Some? && header.Some? then Some(HeaderNotice(height.value, header.value)) else None
  }

  function AsHeadersResult(v: Value): (r: Option<HeadersResult>)
    ensures r.Some? ==> r.value.headers == []
  {
    var max := Then(FieldOf(v, HEADERS_FIELDS, 0), AsUsize);
    var count := Then(FieldOf(v, HEADERS_FIELDS, 1), AsUsize);
    var raw := Then(FieldOf(v, HEADERS_FIELDS, 2), AsHex);
    if max.Some? && count.Some? && raw.Some? then Some(HeadersResult(max.value, count.value, raw.value, []))
    else None
  }

  function AsHistoryEntry(v: Value): Option<HistoryEntry> {
    var height := Then(FieldOf(v, HISTORY_FIELDS, 0), AsI32);
    var hash := Then(FieldOf(v, HISTORY_FIELDS, 1), AsTxid);
    var fee := OptionalOf(FieldOf(v, HISTORY_FIELDS, 2), AsUsize);
    if IsRecord(v, HISTORY_FIELDS) && height.Some? && hash.Some? && fee.Some?
    then Some(HistoryEntry(height.value, hash.value, fee.value))
    else None
  }

  function AsHistory(vs: seq<Value>): (r: Option<seq<HistoryEntry>>)
    ensures r.Some? ==> |r.value| == |vs|
  {
    if vs == [] then Some([])
    else
      match (AsHistoryEntry(vs[0]), AsHistory(vs[1..]))
      case (Some(h), Some(rest)) => Some([h] + rest)
      case _ => None
  }

  function AsBalance(v: Value): Option<Response> {
    var confirmed := Then(FieldOf(v, BALANCE_FIELDS, 0), AsUsize);
    var unconfirmed := Then(FieldOf(v, BALANCE_FIELDS, 1), AsI64);
    if confirmed.Some? && unconfirmed.Some? then Some(Balance(confirmed.value, unconfirmed.value)) else None
  }

  function AsFeatures(v: Value): Option<ServerFeatures> {
    var version := Then(FieldOf(v, FEATURE_FIELDS, 0), AsString);
    var genesis := Then(FieldOf(v, FEATURE_FIELDS, 1), AsHex32);
    var lowest := Then(FieldOf(v, FEATURE_FIELDS, 2), AsString);
    var highest := Then(FieldOf(v, FEATURE_FIELDS, 3), AsString);
    var hash := OptionalOf(FieldOf(v, FEATURE_FIELDS, 4), AsString);
    var pruning := OptionalOf(FieldOf(v, FEATURE_FIELDS, 5), AsI64);
    if version.Some? && genesis.Some? && lowest.Some? && highest.Some? && hash.Some? && pruning.Some?
    then Some(ServerFeatures(version.value, genesis.value, lowest.value, highest.value, hash.value, pruning.value))
    else None
  }

  // ----- to_response

  /** Besides a typed response and an error there is a third outcome: a slice past
      the end of the header bytes panics. */
  datatype Reading = Typed(response: Response) | Rejected | Panicked

  function Make<A>(a: Option<A>, f: A -> Response): Reading {
    if a.Some? then Typed(f(a.value)) else Rejected
  }

  function ReadResult(result: Value, req: Request): Reading {
    match req
    case GetBlockHeader(_) => Make(AsHeader(result), h => BlockHeader(h))
    case GetBlockHeaders(_, _) =>
      (match AsHeadersResult(result)
       case None => Rejected
       case Some(res) =>
         match Slices(res.raw, res.count)
         case Some(hs) => Typed(BlockHeaders(res.(raw := [], headers := hs)))
         case None => Panicked)
    case BlockHeaderSubscribe => Make(AsNotice(result), n => HeaderTip(n))
    case ScriptSubscribe(_) => Make(OptionalOf(Some(result), AsHex32), s => Status(s))
    case ScriptUnsubscribe(_) => if result.Bool? then Typed(Unsubscribed(result.b)) else Rejected
    case EstimateFee(_) =>
      if result.Int? then Typed(Fee(result.n as real))
      else if result.Float? then Typed(Fee(result.x))
      else Rejected
    case BroadcastTx(_) => Make(AsTxid(result), t => Broadcasted(t))
    case GetTransaction(_) => Make(AsTx(result), t => Transaction(t))
    case GetBalance(_) => Make(AsBalance(result), r => r)
    case GetHistory(_) => if result.Arr? then Make(AsHistory(result.items), hs => History(hs)) else Rejected
    case Features => Make(AsFeatures(result), f => ServerInfo(f))
    case Ping => Typed(Pong)
    case Version(_, _) => Typed(NoResult)
  }

  function ToResponse(msg: JsonRpcMsg, req: Request): Reading {
    match msg
    case Response(_, _, result, error) =>
      if result.Some? then ReadResult(result.value, req)
      else if error.Some? then Rejected
      else Typed(NoResult)
    case _ => Rejected
  }

  // ----- to_notification

  datatype Notice =
    | HeaderNotices(notices: seq<HeaderNotice>)
    | ScriptNotice(script: ScriptHash, status: ScriptStatus)

  function AsNotices(vs: seq<Value>): Option<seq<HeaderNotice>> {
    if vs == [] then Some([])
    else
      match (AsNotice(vs[0]), AsNotices(vs[1..]))
      case (Some(n), Some(rest)) => Some([n] + rest)
      case _ => None
  }

  function ToNotification(msg: JsonRpcMsg): Option<Notice> {
    match msg
    case Notification(_, verb, args) =>
      (match verb
       case BlockHeaderSubscribe =>
         if args.Arr? then Then(AsNotices(args.items), ns => Some(HeaderNotices(ns))) else None
       case ScriptSubscribe =>
         var script := Then(FieldOf(args, SCRIPT_FIELDS, 0), AsHex32);
         var status := Then(FieldOf(args, SCRIPT_FIELDS, 1), AsHex32);
         if script.Some? && status.Some? then Some(ScriptNotice(script.value, status.value)) else None
       case _ => None)
    case _ => None
  }

  // ----- what the caller may rely on

  /** The variant each request is answered with. */
  predicate Answers(r: Response, req: Request) {
    match req
    case GetBlockHeader(_) => r.BlockHeader?
    case GetBlockHeaders(_, _) =>
      r.BlockHeaders? && r.res.raw == [] && |r.res.headers| == r.res.count
    case BlockHeaderSubscribe => r.HeaderTip?
    case ScriptSubscribe(_) => r.Status? && r.status.Some?
    case ScriptUnsubscribe(_) => r.Unsubscribed?
    case EstimateFee(_) => r.Fee?
    case BroadcastTx(_) => r.Broadcasted?
    case GetTransaction(_) => r.Transaction? && TxAccepted(r.tx.raw)
    case GetBalance(_) => r.Balance?
    case GetHistory(_) => r.History?
    case Features => r.ServerInfo?
    case Ping => r == Pong
    case Version(_, _) => false
  }

  /** The receiver publishes a response exactly when it is typed and not null. */
  function Publishable(msg: JsonRpcMsg, req: Request): Option<Response> {
    match ToResponse(msg, req)
    case Typed(r) => if r == NoResult then None else Some(r)
    case _ => None
  }

  /** A message read from a line has no explicit null result. */
  lemma DecodedHasNoNull(doc: Document)
    requires Decode(doc).Some? && Decode(doc).value.Response?
    ensures Decode(doc).value.result != Some(Null)
  {
  }

  /** Whatever is published for a request has the variant that the request's caller
      expects. In particular a script status is never empty and a version request
      is never answered. */
  lemma PublishedAnswers(doc: Document, req: Request, r: Response)
    requires Decode(doc).Some? && Publishable(Decode(doc).value, req) == Some(r)
    ensures Answers(r, req) && r != NoResult
  {
    DecodedHasNoNull(doc);
  }

  /** A null result without an error, which servers send for a script without
      history, is read as no result at all and so is never published. */
  lemma NullResultIsSilent(doc: Document, req: Request)
    requires Decode(doc).Some? && Decode(doc).value.Response?
    requires Find(doc, "result") == Present(Null) || Find(doc, "result") == Absent
    ensures Publishable(Decode(doc).value, req) == None
  {
  }

  /** Reading a response panics exactly when a list of headers claims more of them than it holds. */
  lemma PanicsExactly(msg: JsonRpcMsg, req: Request)
    ensures ToResponse(msg, req) == Panicked <==>
            && req.GetBlockHeaders?
            && msg.Response? && msg.result.Some?
            && AsHeadersResult(msg.result.value).Some?
            && var res := AsHeadersResult(msg.result.value).value; 80 * res.count > |res.raw|
  {
  }

  /** A published list of headers re-encodes to the leading bytes of the hexadecimal text it came from. */
  lemma PublishedHeadersAreTheBytes(msg: JsonRpcMsg, req: Request, r: Response)
    requires req.GetBlockHeaders? && Publishable(msg, req) == Some(r)
    ensures msg.Response? && msg.result.Some? && AsHeadersResult(msg.result.value).Some?
    ensures r.BlockHeaders?
    ensures var raw := AsHeadersResult(msg.result.value).value.raw;
      && 80 * r.res.count <= |raw|
      && EncodeHeaders(r.res.headers) == raw[..80 * r.res.count]
  {
    var res := AsHeadersResult(msg.result.value).value;
    SlicesAreTheBytes(res.raw, res.count);
  }

  /** What a typed wrapper returns from the outcome of `call`. */
  datatype WrapperResult = Accepted(response: Response) | InvalidResponse

  /** The match in each typed wrapper. Only `script_subscribe` has an arm for a null response. */
  function Unwrap(req: Request, got: Option<Response>): WrapperResult {
    match got
    case None => InvalidResponse
    case Some(r) =>
      match req
      case GetBlockHeader(_) => if r.BlockHeader? then Accepted(r) else InvalidResponse
      case GetBlockHeaders(_, _) => if r.BlockHeaders? then Accepted(r) else InvalidResponse
      case BlockHeaderSubscribe => if r.HeaderTip? then Accepted(r) else InvalidResponse
      case ScriptSubscribe(_) =>
        if r.Status? then Accepted(r)
        else if r.NoResult? then Accepted(Status(None))
        else InvalidResponse
      case ScriptUnsubscribe(_) => if r.Unsubscribed? then Accepted(r) else InvalidResponse
      case EstimateFee(_) => if r.Fee? then Accepted(r) else InvalidResponse
      case BroadcastTx(_) => if r.Broadcasted? then Accepted(r) else InvalidResponse
      case GetTransaction(_) => if r.Transaction? then Accepted(r) else InvalidResponse
      case GetBalance(_) => if r.Balance? then Accepted(r) else InvalidResponse
      case GetHistory(_) => if r.History? then Accepted(r) else InvalidResponse
      case Features => if r.ServerInfo? then Accepted(r) else InvalidResponse
      case Version(_, _) => InvalidResponse
      case Ping => InvalidResponse
  }

  /** The requests that a typed wrapper sends and waits for. */
  predicate HasWrapper(req: Request) {
    !req.Ping? && !req.Version?
  }
}
