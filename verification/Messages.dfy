/** JSON-RPC messages and their untagged encoding (src/types/mod.rs). */
module Messages {
  import opened Base
  import opened Methods

  // ----- JSON

  /** A JSON value; the members of an object are unordered and distinct. */
  datatype Value =
    | Null
    | Bool(b: bool)
    | Int(n: int)
    | Float(x: real)
    | Str(s: string)
    | Arr(items: seq<Value>)
    | Obj(fields: map<string, Value>)

  /** The members of a top-level JSON object in the order they are read; a name may repeat. */
  type Document = seq<(string, Value)>

  datatype Member = Absent | Present(v: Value) | Repeated

  function Find(doc: Document, name: string): Member {
    if doc == [] then Absent
    else if doc[0].0 != name then Find(doc[1..], name)
    else if Find(doc[1..], name) == Absent then Present(doc[0].1)
    else Repeated
  }

  function AsUsize(v: Value): Option<usize> {
    if v.Int? && 0 <= v.n < WORD then Some(v.n) else None
  }

  function AsString(v: Value): Option<string> {
    if v.Str? then Some(v.s) else None
  }

  // ----- requests

  type ScriptHash = Bytes32
  type ScriptStatus = Bytes32

  /** A transaction id, in the byte order of the hash; its text is reversed. */
  datatype Txid = Txid(hash: Bytes32)

  /** A transaction, identified with its consensus serialization. */
  datatype Tx = Tx(raw: seq<byte>)

  datatype Request =
    | GetBlockHeader(height: usize)
    | GetBlockHeaders(startHeight: usize, count: usize)
    | BlockHeaderSubscribe
    | ScriptSubscribe(script: ScriptHash)
    | ScriptUnsubscribe(script: ScriptHash)
    | EstimateFee(blocks: byte)
    | BroadcastTx(tx: Tx)
    | GetTransaction(txid: Txid)
    | GetBalance(script: ScriptHash)
    | GetHistory(script: ScriptHash)
    | Features
    | Version(name: string, version: string)
    | Ping

  datatype Param =
    | U8(n8: byte)
    | U32(n32: nat)
    | Usize(n64: usize)
    | Text(s: string)
    | Flag(b: bool)
    | Bytes(bs: seq<byte>)
  {
    predicate Ok() {
      U32? ==> n32 < 0x1_0000_0000
    }
  }

  function RequestMethod(req: Request): Method {
    match req
    case GetBlockHeader(_) => Method.GetBlockHeader
    case GetBlockHeaders(_, _) => Method.GetBlockHeaders
    case BlockHeaderSubscribe => Method.BlockHeaderSubscribe
    case ScriptSubscribe(_) => Method.ScriptSubscribe
    case ScriptUnsubscribe(_) => Method.ScriptUnsubscribe
    case EstimateFee(_) => Method.EstimateFee
    case BroadcastTx(_) => Method.BroadcastTx
    case GetTransaction(_) => Method.GetTransaction
    case GetBalance(_) => Method.GetBalance
    case GetHistory(_) => Method.GetHistory
    case Features => Method.Features
    case Version(_, _) => Method.Version
    case Ping => Method.Ping
  }

  function RequestParams(req: Request): (ps: seq<Param>)
    ensures forall p | p in ps :: p.Ok()
  {
    match req
    case GetBlockHeader(height) => [Usize(height)]
    case GetBlockHeaders(start, count) => [Usize(start), Usize(count)]
    case BlockHeaderSubscribe => []
    case ScriptSubscribe(h) => [Text(ToHex(h))]
    case ScriptUnsubscribe(h) => [Text(ToHex(h))]
    case EstimateFee(blocks) => [U8(blocks)]
    case BroadcastTx(tx) => [Bytes(tx.raw)]
    case GetTransaction(txid) => [Text(TxidText(txid))]
    case GetBalance(h) => [Text(ToHex(h))]
    case GetHistory(h) => [Text(ToHex(h))]
    case Features => []
    case Version(name, version) => [Text(name), Text(version)]
    case Ping => []
  }

  function TxidText(t: Txid): string {
    ToHex(Reverse(t.hash))
  }

  // ----- messages

  datatype JsonRpcMsg =
    | Request(id: usize, jsonrpc: string, verb: Method, params: seq<Param>)
    | Response(id: usize, jsonrpc: string, result: Option<Value>, error: Option<Value>)
    | Notification(jsonrpc: string, verb: Method, args: Value)
  {
    predicate Ok() {
      Request? ==> forall p | p in params :: p.Ok()
    }
  }

  function RequestMsg(id: usize, req: Request): (m: JsonRpcMsg)
    ensures m.Ok()
  {
    JsonRpcMsg.Request(id, "2.0", RequestMethod(req), RequestParams(req))
  }

  // ----- encoding

  function EncodeBytes(bs: seq<byte>): (vs: seq<Value>)
    ensures |vs| == |bs|
  {
    seq(|bs|, i requires 0 <= i < |bs| => Int(bs[i]))
  }

  function EncodeParam(p: Param): Value {
    match p
    case U8(n) => Int(n)
    case U32(n) => Int(n)
    case Usize(n) => Int(n)
    case Text(s) => Str(s)
    case Flag(b) => Value.Bool(b)
    case Bytes(bs) => Arr(EncodeBytes(bs))
  }

  function EncodeParams(ps: seq<Param>): (vs: seq<Value>) {
    if ps == [] then [] else [EncodeParam(ps[0])] + EncodeParams(ps[1..])
  }

  function EncodeOption(v: Option<Value>): Value {
    if v.Some? then v.value else Null
  }

  /** Members are written in the order of declaration; absent values are written as null. */
  function Encode(m: JsonRpcMsg): Document {
    match m
    case Request(id, jsonrpc, verb, params) =>
      [("id", Int(id)), ("jsonrpc", Str(jsonrpc)), ("method", Str(MethodName(verb))),
       ("params", Arr(EncodeParams(params)))]
    case Response(id, jsonrpc, result, error) =>
      [("id", Int(id)), ("jsonrpc", Str(jsonrpc)), ("result", EncodeOption(result)),
       ("error", EncodeOption(error))]
    case Notification(jsonrpc, verb, args) =>
      [("jsonrpc", Str(jsonrpc)), ("method", Str(MethodName(verb))), ("params", args)]
  }

  // ----- decoding

  function DecodeBytes(vs: seq<Value>): Option<seq<byte>> {
    if vs == [] then Some([])
    else if vs[0].Int? && 0 <= vs[0].n < 256 then
      match DecodeBytes(vs[1..])
      case Some(rest) => Some([vs[0].n] + rest)
      case None => None
    else None
  }

  /** The first form that fits, in the order of declaration. */
  function DecodeParam(v: Value): Option<Param> {
    match v
    case Int(n) =>
      if 0 <= n < 256 then Some(U8(n))
      else if 0 <= n < 0x1_0000_0000 then Some(U32(n))
      else if 0 <= n < WORD then Some(Usize(n))
      else None
    case Str(s) => Some(Text(s))
    case Bool(b) => Some(Flag(b))
    case Arr(items) =>
      (match DecodeBytes(items)
       case Some(bs) => Some(Bytes(bs))
       case None => None)
    case _ => None
  }

  function DecodeParams(vs: seq<Value>): Option<seq<Param>> {
    if vs == [] then Some([])
    else
      match (DecodeParam(vs[0]), DecodeParams(vs[1..]))
      case (Some(p), Some(rest)) => Some([p] + rest)
      case _ => None
  }

  function FindUsize(doc: Document, name: string): Option<usize> {
    match Find(doc, name)
    case Present(v) => AsUsize(v)
    case _ => None
  }

  function FindString(doc: Document, name: string): Option<string> {
    match Find(doc, name)
    case Present(v) => AsString(v)
    case _ => None
  }

  function FindMethodName(doc: Document): Option<Method> {
    match FindString(doc, "method")
    case Some(s) => ParseMethod(s)
    case None => None
  }

  function FindParams(doc: Document): Option<seq<Param>> {
    match Find(doc, "params")
    case Present(v) => if v.Arr? then DecodeParams(v.items) else None
    case _ => None
  }

  /** An optional member: the outer value is None when the member repeats. A
      missing member and an explicit null both read as None. */
  function FindOptional(doc: Document, name: string): Option<Option<Value>> {
    match Find(doc, name)
    case Absent => Some(None)
    case Present(v) => if v.Null? then Some(None) else Some(Some(v))
    case Repeated => None
  }

  function DecodeRequest(doc: Document): Option<JsonRpcMsg> {
    match (FindUsize(doc, "id"), FindString(doc, "jsonrpc"), FindMethodName(doc), FindParams(doc))
    case (Some(id), Some(v), Some(m), Some(ps)) => Some(JsonRpcMsg.Request(id, v, m, ps))
    case _ => None
  }

  function DecodeResponse(doc: Document): Option<JsonRpcMsg> {
    match (FindUsize(doc, "id"), FindString(doc, "jsonrpc"), FindOptional(doc, "result"), FindOptional(doc, "error"))
    case (Some(id), Some(v), Some(result), Some(error)) => Some(JsonRpcMsg.Response(id, v, result, error))
    case _ => None
  }

  function DecodeNotification(doc: Document): Option<JsonRpcMsg> {
    match (FindString(doc, "jsonrpc"), FindMethodName(doc), Find(doc, "params"))
    case (Some(v), Some(m), Present(args)) => Some(JsonRpcMsg.Notification(v, m, args))
    case _ => None
  }

  /** Untagged: the first of the three shapes that the document fits. Other members are ignored. */
  function Decode(doc: Document): Option<JsonRpcMsg> {
    if DecodeRequest(doc).Some? then DecodeRequest(doc)
    else if DecodeResponse(doc).Some? then DecodeResponse(doc)
    else DecodeNotification(doc)
  }

  // ----- canonical messages

  function CanonInt(n: usize): Param {
    if n < 256 then U8(n) else if n < 0x1_0000_0000 then U32(n) else Usize(n)
  }

  function CanonParam(p: Param): Param
    requires p.Ok()
  {
    match p
    case U8(n) => p
    case U32(n) => CanonInt(n)
    case Usize(n) => CanonInt(n)
    case _ => p
  }

  function CanonParams(ps: seq<Param>): (r: seq<Param>)
    requires forall p | p in ps :: p.Ok()
    ensures |r| == |ps| && forall i | 0 <= i < |ps| :: r[i] == CanonParam(ps[i])
  {
    seq(|ps|, i requires 0 <= i < |ps| => CanonParam(ps[i]))
  }

  function CanonOption(v: Option<Value>): Option<Value> {
    if v == Some(Null) then None else v
  }

  /** Integer parameters take their narrowest form, and an explicit null is no value. */
  function Canon(m: JsonRpcMsg): JsonRpcMsg
    requires m.Ok()
  {
    match m
    case Request(id, v, verb, params) => JsonRpcMsg.Request(id, v, verb, CanonParams(params))
    case Response(id, v, result, error) => JsonRpcMsg.Response(id, v, CanonOption(result), CanonOption(error))
    case Notification(_, _, _) => m
  }

  lemma {:induction false} BytesReadBack(bs: seq<byte>)
    ensures DecodeBytes(EncodeBytes(bs)) == Some(bs)
  {
    if bs != [] {
      BytesReadBack(bs[1..]);
      assert EncodeBytes(bs)[1..] == EncodeBytes(bs[1..]);
      assert bs == [bs[0]] + bs[1..];
    }
  }

  lemma ParamReadsBack(p: Param)
    requires p.Ok()
    ensures DecodeParam(EncodeParam(p)) == Some(CanonParam(p))
  {
    if p.Bytes? {
      BytesReadBack(p.bs);
    }
  }

  lemma {:induction false} ParamsReadBack(ps: seq<Param>)
    requires forall p | p in ps :: p.Ok()
    ensures DecodeParams(EncodeParams(ps)) == Some(CanonParams(ps))
  {
    if ps != [] {
      ParamReadsBack(ps[0]);
      ParamsReadBack(ps[1..]);
      assert EncodeParams(ps)[1..] == EncodeParams(ps[1..]);
      assert CanonParams(ps) == [CanonParam(ps[0])] + CanonParams(ps[1..]);
    }
  }

  lemma {:induction false} EncodedParams(ps: seq<Param>)
    ensures |EncodeParams(ps)| == |ps| && forall i | 0 <= i < |ps| :: EncodeParams(ps)[i] == EncodeParam(ps[i])
  {
    if ps != [] {
      EncodedParams(ps[1..]);
    }
  }

  /** What a search finds in a document whose names are distinct. */
  lemma {:induction false} FindDistinct(doc: Document, i: nat)
    requires i < |doc| && forall j, k | 0 <= j < k < |doc| :: doc[j].0 != doc[k].0
    ensures Find(doc, doc[i].0) == Present(doc[i].1)
  {
    if i == 0 {
      FindAbsent(doc[1..], doc[0].0);
    } else {
      FindDistinct(doc[1..], i - 1);
    }
  }

  lemma {:induction false} FindAbsent(doc: Document, name: string)
    requires forall j | 0 <= j < |doc| :: doc[j].0 != name
    ensures Find(doc, name) == Absent
  {
    if doc != [] {
      FindAbsent(doc[1..], name);
    }
  }

  /** The member names differ already in these places. */
  lemma MemberNamesDiffer()
    ensures "id" != "jsonrpc" && "id" != "method" && "id" != "params" && "id" != "result" && "id" != "error"
    ensures "jsonrpc" != "method" && "jsonrpc" != "params" && "jsonrpc" != "result" && "jsonrpc" != "error"
    ensures "method" != "params" && "method" != "result" && "method" != "error" && "result" != "error"
  {
    assert "id"[0] == 'i' && "jsonrpc"[0] == 'j' && "method"[0] == 'm' && "params"[0] == 'p';
    assert "result"[0] == 'r' && "error"[0] == 'e';
  }

  lemma EncodedMembers(m: JsonRpcMsg)
    requires m.Request?
    ensures var doc := Encode(m);
      && FindUsize(doc, "id") == Some(m.id) && FindString(doc, "jsonrpc") == Some(m.jsonrpc)
      && FindString(doc, "method") == Some(MethodName(m.verb))
      && Find(doc, "params") == Present(Arr(EncodeParams(m.params)))
  {
    var doc := Encode(m);
    MemberNamesDiffer();
    FindDistinct(doc, 0);
    FindDistinct(doc, 1);
    FindDistinct(doc, 2);
    FindDistinct(doc, 3);
  }

  lemma EncodedRequest(m: JsonRpcMsg)
    requires m.Request? && m.Ok()
    ensures DecodeRequest(Encode(m)) == Some(Canon(m))
  {
    EncodedMembers(m);
    MethodNameReadsBack(m.verb, MethodName(m.verb));
    ParamsReadBack(m.params);
  }

  lemma EncodedResponse(m: JsonRpcMsg)
    requires m.Response?
    ensures DecodeRequest(Encode(m)) == None && DecodeResponse(Encode(m)) == Some(Canon(m))
  {
    var doc := Encode(m);
    MemberNamesDiffer();
    FindDistinct(doc, 0);
    FindDistinct(doc, 1);
    FindDistinct(doc, 2);
    FindDistinct(doc, 3);
    FindAbsent(doc, "method");
  }

  lemma EncodedNotification(m: JsonRpcMsg)
    requires m.Notification?
    ensures DecodeRequest(Encode(m)) == None && DecodeResponse(Encode(m)) == None
    ensures DecodeNotification(Encode(m)) == Some(m)
  {
    var doc := Encode(m);
    MemberNamesDiffer();
    FindDistinct(doc, 0);
    FindDistinct(doc, 1);
    FindDistinct(doc, 2);
    FindAbsent(doc, "id");
    MethodNameReadsBack(m.verb, MethodName(m.verb));
  }

  /** Every message reads back as the same kind of message, in canonical form. */
  lemma ReadsBack(m: JsonRpcMsg)
    requires m.Ok()
    ensures Decode(Encode(m)) == Some(Canon(m))
  {
    match m
    case Request(_, _, _, _) => EncodedRequest(m);
    case Response(_, _, _, _) => EncodedResponse(m);
    case Notification(_, _, _) => EncodedNotification(m);
  }

  lemma {:induction false} EncodeCanonParams(ps: seq<Param>)
    requires forall p | p in ps :: p.Ok()
    ensures EncodeParams(CanonParams(ps)) == EncodeParams(ps)
    ensures CanonParams(CanonParams(ps)) == CanonParams(ps)
  {
    if ps != [] {
      EncodeCanonParams(ps[1..]);
      assert CanonParams(ps)[1..] == CanonParams(ps[1..]);
    }
  }

  /** The canonical form is a fixed point and is written exactly as the message itself. */
  lemma CanonIsStable(m: JsonRpcMsg)
    requires m.Ok()
    ensures Canon(m).Ok() && Canon(Canon(m)) == Canon(m)
    ensures Encode(Canon(m)) == Encode(m)
  {
    if m.Request? {
      forall p | p in CanonParams(m.params) ensures p.Ok() {
        var i :| 0 <= i < |m.params| && p == CanonParams(m.params)[i];
        assert m.params[i].Ok();
      }
      EncodeCanonParams(m.params);
    }
  }

  lemma {:induction false} DecodedParamsCanonical(vs: seq<Value>)
    requires DecodeParams(vs).Some?
    ensures forall p | p in DecodeParams(vs).value :: p.Ok()
    ensures CanonParams(DecodeParams(vs).value) == DecodeParams(vs).value
  {
    if vs != [] {
      DecodedParamsCanonical(vs[1..]);
    }
  }

  /** Reading yields the canonical messages and no others. */
  lemma CanonicalIffRead(m: JsonRpcMsg)
    ensures (m.Ok() && Canon(m) == m) <==> exists doc: Document :: Decode(doc) == Some(m)
  {
    if m.Ok() && Canon(m) == m {
      ReadsBack(m);
    }
    if doc: Document :| Decode(doc) == Some(m) {
      if m.Request? {
        assert DecodeRequest(doc) == Some(m);
        DecodedParamsCanonical(Find(doc, "params").v.items);
      }
    }
  }
}
