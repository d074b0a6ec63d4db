/** What documents and results mean, stated as relations apart from the readers, and that
    `from_json`, `to_response` and `to_notification` (src/types/mod.rs) read exactly that:
    every document of that meaning, whatever the order of its members and whatever else
    it holds, and no other. */
module Readings {
  import opened Base
  import opened Methods
  import opened Messages
  import opened Headers
  import opened Responses
  import opened Machine

  // ----- members of a document

  ghost predicate Missing(doc: Document, name: string) {
    forall i | 0 <= i < |doc| :: doc[i].0 != name
  }

  /** The member with this value at `i`, and no other member of the name. */
  ghost predicate OnlyAt(doc: Document, name: string, v: Value, i: nat) {
    i < |doc| && doc[i] == (name, v) && forall j | 0 <= j < |doc| && j != i :: doc[j].0 != name
  }

  ghost predicate Once(doc: Document, name: string, v: Value) {
    exists i: nat :: OnlyAt(doc, name, v, i)
  }

  /** An optional member: none is the same as a null. */
  ghost predicate Optionally(doc: Document, name: string, v: Option<Value>) {
    match v
    case None => Missing(doc, name) || Once(doc, name, Null)
    case Some(w) => w != Null && Once(doc, name, w)
  }

  lemma {:induction false} MissingIsFound(doc: Document, name: string)
    ensures Find(doc, name) == Absent <==> Missing(doc, name)
  {
    if doc != [] {
      var rest := doc[1..];
      MissingIsFound(rest, name);
      if Missing(rest, name) && doc[0].0 != name {
        forall i | 0 <= i < |doc| ensures doc[i].0 != name {
          if i > 0 { assert rest[i - 1] == doc[i]; }
        }
      }
      if Missing(doc, name) {
        forall i | 0 <= i < |rest| ensures rest[i].0 != name { assert rest[i] == doc[i + 1]; }
      }
    }
  }

  lemma ShiftOnly(doc: Document, name: string, v: Value, i: nat)
    requires doc != [] && doc[0].0 != name
    ensures OnlyAt(doc[1..], name, v, i) <==> OnlyAt(doc, name, v, i + 1)
  {
    var rest := doc[1..];
    if OnlyAt(doc, name, v, i + 1) {
      assert rest[i] == doc[i + 1];
      forall j | 0 <= j < |rest| && j != i ensures rest[j].0 != name { assert rest[j] == doc[j + 1]; }
    }
    if OnlyAt(rest, name, v, i) {
      assert doc[i + 1] == rest[i];
      forall j | 0 <= j < |doc| && j != i + 1 ensures doc[j].0 != name {
        if j > 0 { assert rest[j - 1] == doc[j]; }
      }
    }
  }

  lemma FirstOnly(doc: Document, name: string, v: Value)
    requires doc != [] && doc[0].0 == name
    ensures Once(doc, name, v) <==> doc[0].1 == v && Missing(doc[1..], name)
  {
    var rest := doc[1..];
    if i: nat :| OnlyAt(doc, name, v, i) {
      assert i == 0;
      forall j | 0 <= j < |rest| ensures rest[j].0 != name { assert rest[j] == doc[j + 1]; }
    }
    if doc[0].1 == v && Missing(rest, name) {
      forall j | 0 <= j < |doc| && j != 0 ensures doc[j].0 != name { assert rest[j - 1] == doc[j]; }
      assert OnlyAt(doc, name, v, 0);
    }
  }

  /** A search finds a value if and only if the document has the name once, with that value. */
  lemma {:induction false} OnceIsFound(doc: Document, name: string, v: Value)
    ensures Find(doc, name) == Present(v) <==> Once(doc, name, v)
  {
    if doc != [] {
      OnceIsFound(doc[1..], name, v);
      MissingIsFound(doc[1..], name);
      if doc[0].0 == name {
        FirstOnly(doc, name, v);
      } else {
        if i: nat :| OnlyAt(doc, name, v, i) { ShiftOnly(doc, name, v, i - 1); }
        if i: nat :| OnlyAt(doc[1..], name, v, i) { ShiftOnly(doc, name, v, i); }
      }
    }
  }

  lemma OptionIsFound(doc: Document, name: string, v: Option<Value>)
    ensures FindOptional(doc, name) == Some(v) <==> Optionally(doc, name, v)
  {
    MissingIsFound(doc, name);
    OnceIsFound(doc, name, Null);
    if v.Some? {
      OnceIsFound(doc, name, v.value);
    }
  }

  // ----- messages

  /** The document is this request: the members are there once each, the parameters are
      those that the request is written with, integers in their narrowest form. */
  ghost predicate MeansRequest(doc: Document, m: JsonRpcMsg) {
    && m.Request? && m.Ok() && Canon(m) == m
    && Once(doc, "id", Int(m.id)) && Once(doc, "jsonrpc", Str(m.jsonrpc))
    && Once(doc, "method", Str(MethodName(m.verb))) && Once(doc, "params", Arr(EncodeParams(m.params)))
  }

  ghost predicate MeansResponse(doc: Document, m: JsonRpcMsg) {
    && m.Response?
    && Once(doc, "id", Int(m.id)) && Once(doc, "jsonrpc", Str(m.jsonrpc))
    && Optionally(doc, "result", m.result) && Optionally(doc, "error", m.error)
  }

  ghost predicate MeansNotification(doc: Document, m: JsonRpcMsg) {
    && m.Notification?
    && Once(doc, "jsonrpc", Str(m.jsonrpc)) && Once(doc, "method", Str(MethodName(m.verb)))
    && Once(doc, "params", m.args)
  }

  ghost predicate IsRequest(doc: Document) {
    exists m: JsonRpcMsg :: MeansRequest(doc, m)
  }

  ghost predicate IsResponse(doc: Document) {
    exists m: JsonRpcMsg :: MeansResponse(doc, m)
  }

  lemma {:induction false} BytesWrittenBack(vs: seq<Value>)
    requires DecodeBytes(vs).Some?
    ensures EncodeBytes(DecodeBytes(vs).value) == vs
  {
    if vs != [] {
      BytesWrittenBack(vs[1..]);
      var bs, rest := DecodeBytes(vs).value, DecodeBytes(vs[1..]).value;
      forall i | 0 <= i < |vs| ensures |bs| == |vs| && Int(bs[i]) == vs[i] {
        if i > 0 { assert EncodeBytes(rest)[i - 1] == vs[1..][i - 1]; }
      }
    }
  }

  lemma ParamWrittenBack(v: Value)
    requires DecodeParam(v).Some?
    ensures EncodeParam(DecodeParam(v).value) == v
  {
    if v.Arr? {
      BytesWrittenBack(v.items);
    }
  }

  lemma {:induction false} ParamsWrittenBack(vs: seq<Value>)
    requires DecodeParams(vs).Some?
    ensures EncodeParams(DecodeParams(vs).value) == vs
  {
    if vs != [] {
      ParamWrittenBack(vs[0]);
      ParamsWrittenBack(vs[1..]);
      assert DecodeParams(vs).value[1..] == DecodeParams(vs[1..]).value;
      assert vs == [vs[0]] + vs[1..];
    }
  }

  lemma TextIsFound(doc: Document, name: string, t: string)
    ensures FindString(doc, name) == Some(t) <==> Once(doc, name, Str(t))
  {
    OnceIsFound(doc, name, Str(t));
  }

  lemma IdIsFound(doc: Document, id: usize)
    ensures FindUsize(doc, "id") == Some(id) <==> Once(doc, "id", Int(id))
  {
    OnceIsFound(doc, "id", Int(id));
  }

  lemma MethodIsFound(doc: Document, verb: Method)
    ensures FindMethodName(doc) == Some(verb) <==> Once(doc, "method", Str(MethodName(verb)))
  {
    TextIsFound(doc, "method", MethodName(verb));
    match FindString(doc, "method")
    case Some(t) => MethodNameReadsBack(verb, t);
    case None =>
  }

  lemma ParamsAreFound(doc: Document, ps: seq<Param>)
    ensures FindParams(doc) == Some(ps) <==>
            && (forall p | p in ps :: p.Ok())
            && CanonParams(ps) == ps && Once(doc, "params", Arr(EncodeParams(ps)))
  {
    OnceIsFound(doc, "params", Arr(EncodeParams(ps)));
    if FindParams(doc) == Some(ps) {
      var vs := Find(doc, "params").v.items;
      ParamsWrittenBack(vs);
      DecodedParamsCanonical(vs);
    } else if (forall p | p in ps :: p.Ok()) && CanonParams(ps) == ps {
      ParamsReadBack(ps);
    }
  }

  lemma RequestIsExact(doc: Document, m: JsonRpcMsg)
    ensures DecodeRequest(doc) == Some(m) <==> MeansRequest(doc, m)
  {
    if m.Request? {
      IdIsFound(doc, m.id);
      TextIsFound(doc, "jsonrpc", m.jsonrpc);
      MethodIsFound(doc, m.verb);
      ParamsAreFound(doc, m.params);
    }
  }

  lemma ResponseIsExact(doc: Document, m: JsonRpcMsg)
    ensures DecodeResponse(doc) == Some(m) <==> MeansResponse(doc, m)
  {
    if m.Response? {
      IdIsFound(doc, m.id);
      TextIsFound(doc, "jsonrpc", m.jsonrpc);
      OptionIsFound(doc, "result", m.result);
      OptionIsFound(doc, "error", m.error);
    }
  }

  lemma NotificationIsExact(doc: Document, m: JsonRpcMsg)
    ensures DecodeNotification(doc) == Some(m) <==> MeansNotification(doc, m)
  {
    if m.Notification? {
      TextIsFound(doc, "jsonrpc", m.jsonrpc);
      MethodIsFound(doc, m.verb);
      OnceIsFound(doc, "params", m.args);
    }
  }

  lemma KindIsExact(doc: Document)
    ensures DecodeRequest(doc).Some? <==> IsRequest(doc)
    ensures DecodeResponse(doc).Some? <==> IsResponse(doc)
  {
    if DecodeRequest(doc).Some? { RequestIsExact(doc, DecodeRequest(doc).value); }
    if m: JsonRpcMsg :| MeansRequest(doc, m) { RequestIsExact(doc, m); }
    if DecodeResponse(doc).Some? { ResponseIsExact(doc, DecodeResponse(doc).value); }
    if m: JsonRpcMsg :| MeansResponse(doc, m) { ResponseIsExact(doc, m); }
  }

  /** Every document is read as what it means: a request if it is one, otherwise a
      response if it is one, otherwise a notification, and as nothing else. */
  lemma DecodeIsExact(doc: Document, m: JsonRpcMsg)
    ensures Decode(doc) == Some(m) <==>
            || MeansRequest(doc, m)
            || (MeansResponse(doc, m) && !IsRequest(doc))
            || (MeansNotification(doc, m) && !IsRequest(doc) && !IsResponse(doc))
  {
    KindIsExact(doc);
    RequestIsExact(doc, m);
    ResponseIsExact(doc, m);
    NotificationIsExact(doc, m);
  }

  // ----- the parts of a result

  function LowerCase(c: char): char {
    if 'A' <= c <= 'F' then (c as int - 'A' as int + 'a' as int) as char else c
  }

  function Lower(s: string): (t: string)
    ensures |t| == |s| && forall i | 0 <= i < |s| :: t[i] == LowerCase(s[i])
  {
    seq(|s|, i requires 0 <= i < |s| => LowerCase(s[i]))
  }

  lemma DigitIsExact(c: char, d: nat)
    requires d < 16
    ensures HexDigitValue(c) == Some(d) <==> LowerCase(c) == HexDigit(d)
  {
    HexDigitReadsBack(d);
  }

  lemma Halves(hi: nat, lo: nat, n: byte)
    requires hi < 16 && lo < 16
    ensures 16 * hi + lo == n <==> hi == n / 16 && lo == n % 16
  {
  }

  lemma PairIsExact(a: char, b: char, n: byte)
    ensures (HexDigitValue(a).Some? && HexDigitValue(b).Some? && 16 * HexDigitValue(a).value + HexDigitValue(b).value == n)
       <==> HexDigitValue(a) == Some(n / 16) && HexDigitValue(b) == Some(n % 16)
  {
    if HexDigitValue(a).Some? && HexDigitValue(b).Some? {
      Halves(HexDigitValue(a).value, HexDigitValue(b).value, n);
    }
  }

  lemma HexStep(s: string, bs: seq<byte>)
    requires |s| >= 2 && bs != []
    ensures FromHex(s) == Some(bs) <==>
            && HexDigitValue(s[0]) == Some(bs[0] / 16) && HexDigitValue(s[1]) == Some(bs[0] % 16)
            && FromHex(s[2..]) == Some(bs[1..])
  {
    PairIsExact(s[0], s[1], bs[0]);
    assert bs == [bs[0]] + bs[1..];
  }

  lemma LowerStep(s: string, bs: seq<byte>)
    requires |s| >= 2 && bs != []
    ensures Lower(s) == ToHex(bs) <==>
            && LowerCase(s[0]) == HexDigit(bs[0] / 16) && LowerCase(s[1]) == HexDigit(bs[0] % 16)
            && Lower(s[2..]) == ToHex(bs[1..])
  {
    assert Lower(s) == [LowerCase(s[0]), LowerCase(s[1])] + Lower(s[2..]);
    assert Lower(s)[2..] == Lower(s[2..]) && ToHex(bs)[2..] == ToHex(bs[1..]);
  }

  /** Bytes are read from exactly the texts that spell them, in either case. */
  lemma {:induction false} HexIsExact(s: string, bs: seq<byte>)
    ensures FromHex(s) == Some(bs) <==> Lower(s) == ToHex(bs)
  {
    if |s| >= 2 && bs != [] {
      HexIsExact(s[2..], bs[1..]);
      HexStep(s, bs);
      LowerStep(s, bs);
      DigitIsExact(s[0], bs[0] / 16);
      DigitIsExact(s[1], bs[0] % 16);
    }
  }

  /** A text that spells the bytes. */
  predicate Spells(v: Value, bs: seq<byte>) {
    v.Str? && Lower(v.s) == ToHex(bs)
  }

  lemma BytesAreExact(v: Value, bs: seq<byte>)
    ensures AsHex(v) == Some(bs) <==> Spells(v, bs)
  {
    if v.Str? {
      HexIsExact(v.s, bs);
    }
  }

  lemma HashIsExact(v: Value, h: Bytes32)
    ensures AsHex32(v) == Some(h) <==> Spells(v, h)
  {
    BytesAreExact(v, h);
  }

  lemma TxidIsExact(v: Value, t: Txid)
    ensures AsTxid(v) == Some(t) <==> Spells(v, Reverse(t.hash))
  {
    HashIsExact(v, Reverse(t.hash));
    if AsHex32(v).Some? {
      ReversedTwice(AsHex32(v).value);
    }
    ReversedTwice(t.hash);
  }

  lemma ReversedTwice(bs: seq<byte>)
    ensures Reverse(Reverse(bs)) == bs
  {
  }

  lemma HeaderIsExact(v: Value, h: Header)
    ensures AsHeader(v) == Some(h) <==> Spells(v, EncodeHeader(h))
  {
    BytesAreExact(v, EncodeHeader(h));
    HeaderReadsBack(h);
    if AsHeader(v) == Some(h) {
      HeaderBytesReadBack(AsHex(v).value);
    }
  }

  // ----- records

  /** The field has this value: by name in an object, by position in an array of the right length. */
  predicate HasField(v: Value, names: seq<string>, i: nat, w: Value)
    requires i < |names|
  {
    || (v.Obj? && names[i] in v.fields && v.fields[names[i]] == w)
    || (v.Arr? && |v.items| == |names| && v.items[i] == w)
  }

  predicate LacksField(v: Value, names: seq<string>, i: nat)
    requires i < |names|
  {
    v.Obj? && names[i] !in v.fields
  }

  /** The field holds text that spells the bytes. */
  ghost predicate SpellsField(v: Value, names: seq<string>, i: nat, bs: seq<byte>)
    requires i < |names|
  {
    exists w: Value :: HasField(v, names, i, w) && Spells(w, bs)
  }

  lemma FieldIsExact(v: Value, names: seq<string>, i: nat, w: Value)
    requires i < |names|
    ensures FieldOf(v, names, i) == Some(w) <==> HasField(v, names, i, w)
  {
  }

  lemma SpeltFieldIsExact(v: Value, names: seq<string>, i: nat, bs: seq<byte>)
    requires i < |names|
    ensures Then(FieldOf(v, names, i), AsHex) == Some(bs) <==> SpellsField(v, names, i, bs)
  {
    if FieldOf(v, names, i).Some? {
      var w := FieldOf(v, names, i).value;
      assert HasField(v, names, i, w);
      BytesAreExact(w, bs);
    }
  }

  /** An optional field: none is a missing field or a null. */
  predicate HasOption(v: Value, names: seq<string>, i: nat, w: Option<Value>)
    requires i < |names|
  {
    match w
    case None => LacksField(v, names, i) || HasField(v, names, i, Null)
    case Some(x) => HasField(v, names, i, x)
  }

  function NumberOption(n: Option<int>): (v: Option<Value>) {
    if n.Some? then Some(Int(n.value)) else None
  }

  function TextOption(t: Option<string>): (v: Option<Value>) {
    if t.Some? then Some(Str(t.value)) else None
  }

  ghost predicate MeansNotice(v: Value, n: HeaderNotice) {
    HasField(v, ["height", "hex"], 0, Int(n.height)) && SpellsField(v, ["height", "hex"], 1, EncodeHeader(n.header))
  }

  /** The headers are the leading bytes of the text, as many as are claimed. */
  ghost predicate MeansHeaders(v: Value, res: HeadersResult) {
    && res.raw == [] && |res.headers| == res.count
    && HasField(v, ["max", "count", "hex"], 0, Int(res.max)) && HasField(v, ["max", "count", "hex"], 1, Int(res.count))
    && exists raw: seq<byte> ::
         SpellsField(v, ["max", "count", "hex"], 2, raw) && EncodeHeaders(res.headers) <= raw
  }

  ghost predicate MeansEntry(v: Value, h: HistoryEntry) {
    && HasField(v, ["height", "tx_hash", "fee"], 0, Int(h.height))
    && SpellsField(v, ["height", "tx_hash", "fee"], 1, Reverse(h.txHash.hash))
    && HasOption(v, ["height", "tx_hash", "fee"], 2, NumberOption(h.fee))
  }

  ghost predicate MeansHistory(vs: seq<Value>, hs: seq<HistoryEntry>) {
    |vs| == |hs| && forall i | 0 <= i < |vs| :: MeansEntry(vs[i], hs[i])
  }

  ghost predicate MeansFeatures(v: Value, f: ServerFeatures) {
    var names := ["server_version", "genesis_hash", "protocol_min", "protocol_max", "hash_function", "pruning"];
    && HasField(v, names, 0, Str(f.serverVersion)) && SpellsField(v, names, 1, f.genesisHash)
    && HasField(v, names, 2, Str(f.protocolMin)) && HasField(v, names, 3, Str(f.protocolMax))
    && HasOption(v, names, 4, TextOption(f.hashFunction)) && HasOption(v, names, 5, NumberOption(f.pruning))
    && (f.pruning.Some? ==> -0x8000_0000_0000_0000 <= f.pruning.value < 0x8000_0000_0000_0000)
  }

  predicate MeansBalance(v: Value, c: usize, u: int) {
    && HasField(v, ["confirmed", "unconfirmed"], 0, Int(c)) && HasField(v, ["confirmed", "unconfirmed"], 1, Int(u))
    && -0x8000_0000_0000_0000 <= u < 0x8000_0000_0000_0000
  }

  lemma NoticeIsExact(v: Value, n: HeaderNotice)
    ensures AsNotice(v) == Some(n) <==> MeansNotice(v, n)
  {
    FieldIsExact(v, NOTICE_FIELDS, 0, Int(n.height));
    HeaderFieldIsExact(v, NOTICE_FIELDS, 1, n.header);
  }

  lemma HeaderFieldIsExact(v: Value, names: seq<string>, i: nat, h: Header)
    requires i < |names|
    ensures Then(FieldOf(v, names, i), AsHeader) == Some(h) <==> SpellsField(v, names, i, EncodeHeader(h))
  {
    if FieldOf(v, names, i).Some? {
      var w := FieldOf(v, names, i).value;
      assert HasField(v, names, i, w);
      HeaderIsExact(w, h);
    }
  }

  lemma TxidFieldIsExact(v: Value, names: seq<string>, i: nat, t: Txid)
    requires i < |names|
    ensures Then(FieldOf(v, names, i), AsTxid) == Some(t) <==> SpellsField(v, names, i, Reverse(t.hash))
  {
    if FieldOf(v, names, i).Some? {
      var w := FieldOf(v, names, i).value;
      assert HasField(v, names, i, w);
      TxidIsExact(w, t);
    }
  }

  lemma HashFieldIsExact(v: Value, names: seq<string>, i: nat, h: Bytes32)
    requires i < |names|
    ensures Then(FieldOf(v, names, i), AsHex32) == Some(h) <==> SpellsField(v, names, i, h)
  {
    if FieldOf(v, names, i).Some? {
      var w := FieldOf(v, names, i).value;
      assert HasField(v, names, i, w);
      HashIsExact(w, h);
    }
  }

  lemma EntryIsExact(v: Value, h: HistoryEntry)
    ensures AsHistoryEntry(v) == Some(h) <==> MeansEntry(v, h)
  {
    FieldIsExact(v, HISTORY_FIELDS, 0, Int(h.height));
    TxidFieldIsExact(v, HISTORY_FIELDS, 1, h.txHash);
    if IsRecord(v, HISTORY_FIELDS) {
      FeeIsExact(v, HISTORY_FIELDS, 2, h.fee);
    }
  }

  lemma FeeIsExact(v: Value, names: seq<string>, i: nat, fee: Option<usize>)
    requires i < |names| && IsRecord(v, names)
    ensures OptionalOf(FieldOf(v, names, i), AsUsize) == Some(fee) <==> HasOption(v, names, i, NumberOption(fee))
  {
  }

  lemma {:induction false} HistoryIsExact(vs: seq<Value>, hs: seq<HistoryEntry>)
    ensures AsHistory(vs) == Some(hs) <==> MeansHistory(vs, hs)
  {
    if vs != [] && hs != [] {
      EntryIsExact(vs[0], hs[0]);
      HistoryIsExact(vs[1..], hs[1..]);
      assert hs == [hs[0]] + hs[1..];
      if MeansHistory(vs[1..], hs[1..]) && MeansEntry(vs[0], hs[0]) {
        forall i | 0 <= i < |vs| ensures MeansEntry(vs[i], hs[i]) {
          if i > 0 { assert MeansEntry(vs[1..][i - 1], hs[1..][i - 1]); }
        }
      }
    }
  }

  lemma BalanceIsExact(v: Value, c: usize, u: int)
    ensures AsBalance(v) == Some(Balance(c, u)) <==> MeansBalance(v, c, u)
  {
    FieldIsExact(v, BALANCE_FIELDS, 0, Int(c));
    FieldIsExact(v, BALANCE_FIELDS, 1, Int(u));
  }

  lemma TextFieldIsExact(v: Value, names: seq<string>, i: nat, t: string)
    requires i < |names|
    ensures Then(FieldOf(v, names, i), AsString) == Some(t) <==> HasField(v, names, i, Str(t))
  {
  }

  lemma TextOptionIsExact(v: Value, names: seq<string>, i: nat, t: Option<string>)
    requires i < |names| && IsRecord(v, names)
    ensures OptionalOf(FieldOf(v, names, i), AsString) == Some(t) <==> HasOption(v, names, i, TextOption(t))
  {
  }

  lemma PruningIsExact(v: Value, names: seq<string>, i: nat, n: Option<int>)
    requires i < |names| && IsRecord(v, names)
    ensures OptionalOf(FieldOf(v, names, i), AsI64) == Some(n) <==>
            && HasOption(v, names, i, NumberOption(n))
            && (n.Some? ==> -0x8000_0000_0000_0000 <= n.value < 0x8000_0000_0000_0000)
  {
  }

  lemma FeaturesAreExact(v: Value, f: ServerFeatures)
    ensures AsFeatures(v) == Some(f) <==> MeansFeatures(v, f)
  {
    TextFieldIsExact(v, FEATURE_FIELDS, 0, f.serverVersion);
    HashFieldIsExact(v, FEATURE_FIELDS, 1, f.genesisHash);
    TextFieldIsExact(v, FEATURE_FIELDS, 2, f.protocolMin);
    TextFieldIsExact(v, FEATURE_FIELDS, 3, f.protocolMax);
    if IsRecord(v, FEATURE_FIELDS) {
      TextOptionIsExact(v, FEATURE_FIELDS, 4, f.hashFunction);
      PruningIsExact(v, FEATURE_FIELDS, 5, f.pruning);
    }
  }

  lemma HeadersAreSlices(raw: seq<byte>, hs: seq<Header>)
    ensures Slices(raw, |hs|) == Some(hs) <==> EncodeHeaders(hs) <= raw
  {
    if EncodeHeaders(hs) <= raw {
      SlicesAreTheBytes(raw, |hs|);
      EncodingIsInjective(hs, Slices(raw, |hs|).value);
    } else if Slices(raw, |hs|) == Some(hs) {
      SlicesAreTheBytes(raw, |hs|);
    }
  }

  lemma {:induction false} EncodingIsInjective(hs: seq<Header>, gs: seq<Header>)
    requires |hs| == |gs| && EncodeHeaders(hs) == EncodeHeaders(gs)
    ensures hs == gs
  {
    if hs != [] {
      var n := |hs| - 1;
      var a, b := EncodeHeaders(hs[..n]), EncodeHeaders(gs[..n]);
      assert EncodeHeaders(hs)[..80 * n] == a && EncodeHeaders(gs)[..80 * n] == b;
      assert EncodeHeaders(hs)[80 * n..] == EncodeHeader(hs[n]) && EncodeHeaders(gs)[80 * n..] == EncodeHeader(gs[n]);
      EncodingIsInjective(hs[..n], gs[..n]);
      HeaderReadsBack(hs[n]);
      HeaderReadsBack(gs[n]);
      assert hs == hs[..n] + [hs[n]] && gs == gs[..n] + [gs[n]];
    }
  }

  lemma HeadersResultIsExact(v: Value, max: usize, count: usize, raw: seq<byte>)
    ensures AsHeadersResult(v) == Some(HeadersResult(max, count, raw, [])) <==>
            && HasField(v, ["max", "count", "hex"], 0, Int(max)) && HasField(v, ["max", "count", "hex"], 1, Int(count))
            && SpellsField(v, ["max", "count", "hex"], 2, raw)
  {
    FieldIsExact(v, HEADERS_FIELDS, 0, Int(max));
    FieldIsExact(v, HEADERS_FIELDS, 1, Int(count));
    SpeltFieldIsExact(v, HEADERS_FIELDS, 2, raw);
  }

  lemma HeadersAreExact(v: Value, req: Request, res: HeadersResult)
    requires req.GetBlockHeaders?
    ensures ReadResult(v, req) == Typed(BlockHeaders(res)) <==> MeansHeaders(v, res)
  {
    if MeansHeaders(v, res) {
      var raw: seq<byte> :| SpellsField(v, ["max", "count", "hex"], 2, raw) && EncodeHeaders(res.headers) <= raw;
      HeadersResultIsExact(v, res.max, res.count, raw);
      HeadersAreSlices(raw, res.headers);
    }
    if ReadResult(v, req) == Typed(BlockHeaders(res)) {
      var read := AsHeadersResult(v).value;
      HeadersResultIsExact(v, read.max, read.count, read.raw);
      HeadersAreSlices(read.raw, res.headers);
    }
  }

  // ----- results

  /** The result, in answer to the request, means the response. */
  ghost predicate MeansResult(v: Value, req: Request, r: Response) {
    match r
    case BlockHeader(h) => req.GetBlockHeader? && Spells(v, EncodeHeader(h))
    case BlockHeaders(res) => req.GetBlockHeaders? && MeansHeaders(v, res)
    case HeaderTip(n) => req.BlockHeaderSubscribe? && MeansNotice(v, n)
    case Status(s) => req.ScriptSubscribe? && (if s.Some? then Spells(v, s.value) else v == Null)
    case Unsubscribed(b) => req.ScriptUnsubscribe? && v == Value.Bool(b)
    case Fee(x) => req.EstimateFee? && (v == Float(x) || (v.Int? && v.n as real == x))
    case Broadcasted(t) => req.BroadcastTx? && Spells(v, Reverse(t.hash))
    case Transaction(tx) => req.GetTransaction? && Spells(v, tx.raw) && TxAccepted(tx.raw)
    case Balance(c, u) => req.GetBalance? && MeansBalance(v, c, u)
    case History(hs) => req.GetHistory? && v.Arr? && MeansHistory(v.items, hs)
    case ServerInfo(f) => req.Features? && MeansFeatures(v, f)
    case Pong => req.Ping?
    case NoResult => req.Version?
  }

  lemma StatusIsExact(v: Value, s: Option<ScriptStatus>)
    ensures OptionalOf(Some(v), AsHex32) == Some(s) <==> (if s.Some? then Spells(v, s.value) else v == Null)
  {
    if s.Some? {
      HashIsExact(v, s.value);
    }
  }

  lemma SmallResultIsExact(v: Value, req: Request, r: Response)
    requires r.Status? || r.Unsubscribed? || r.Fee? || r.Balance? || r.Pong? || r.NoResult?
    ensures ReadResult(v, req) == Typed(r) <==> MeansResult(v, req, r)
  {
    match r
    case Status(s) => StatusIsExact(v, s);
    case Balance(c, u) => BalanceIsExact(v, c, u);
    case _ =>
  }

  lemma SpeltResultIsExact(v: Value, req: Request, r: Response)
    requires r.Broadcasted? || r.Transaction?
    ensures ReadResult(v, req) == Typed(r) <==> MeansResult(v, req, r)
  {
    match r
    case Broadcasted(t) => TxidIsExact(v, t);
    case Transaction(tx) => BytesAreExact(v, tx.raw);
  }

  lemma HeaderResultIsExact(v: Value, req: Request, h: Header)
    ensures ReadResult(v, req) == Typed(BlockHeader(h)) <==> MeansResult(v, req, BlockHeader(h))
  {
    HeaderIsExact(v, h);
  }

  lemma RecordResultIsExact(v: Value, req: Request, r: Response)
    requires r.HeaderTip? || r.History? || r.ServerInfo?
    ensures ReadResult(v, req) == Typed(r) <==> MeansResult(v, req, r)
  {
    match r
    case HeaderTip(n) => NoticeIsExact(v, n);
    case History(hs) => if v.Arr? { HistoryIsExact(v.items, hs); }
    case ServerInfo(f) => FeaturesAreExact(v, f);
  }

  lemma ListResultIsExact(v: Value, req: Request, res: HeadersResult)
    ensures ReadResult(v, req) == Typed(BlockHeaders(res)) <==> MeansResult(v, req, BlockHeaders(res))
  {
    if req.GetBlockHeaders? {
      HeadersAreExact(v, req, res);
    }
  }

  /** Every result, in answer to every request, is read as the response it means, and as
      no other: a result without a meaning is rejected or panics. */
  lemma ResultIsExact(v: Value, req: Request, r: Response)
    ensures ReadResult(v, req) == Typed(r) <==> MeansResult(v, req, r)
  {
    if r.BlockHeaders? {
      ListResultIsExact(v, req, r.res);
    } else if r.BlockHeader? {
      HeaderResultIsExact(v, req, r.header);
    } else if r.Broadcasted? || r.Transaction? {
      SpeltResultIsExact(v, req, r);
    } else if r.HeaderTip? || r.History? || r.ServerInfo? {
      RecordResultIsExact(v, req, r);
    } else {
      SmallResultIsExact(v, req, r);
    }
  }

  /** A list of headers that claims more of them than it has bytes for. */
  ghost predicate ClaimsTooMany(v: Value) {
    exists max: usize, count: usize, raw: seq<byte> :: Claims(v, max, count, raw) && 80 * count > |raw|
  }

  ghost predicate Claims(v: Value, max: usize, count: usize, raw: seq<byte>) {
    && HasField(v, ["max", "count", "hex"], 0, Int(max)) && HasField(v, ["max", "count", "hex"], 1, Int(count))
    && SpellsField(v, ["max", "count", "hex"], 2, raw)
  }

  /** Reading panics on exactly the lists that claim too many headers. */
  lemma PanicIsExact(v: Value, req: Request)
    ensures ReadResult(v, req) == Panicked <==> req.GetBlockHeaders? && ClaimsTooMany(v)
  {
    if ReadResult(v, req) == Panicked {
      var res := AsHeadersResult(v).value;
      HeadersResultIsExact(v, res.max, res.count, res.raw);
      assert Claims(v, res.max, res.count, res.raw);
    }
    if ClaimsTooMany(v) {
      var max: usize, count: usize, raw: seq<byte> :| Claims(v, max, count, raw) && 80 * count > |raw|;
      HeadersResultIsExact(v, max, count, raw);
    }
  }

  // ----- notifications

  ghost predicate MeansNotices(vs: seq<Value>, ns: seq<HeaderNotice>) {
    |vs| == |ns| && forall i | 0 <= i < |vs| :: MeansNotice(vs[i], ns[i])
  }

  lemma {:induction false} NoticesAreExact(vs: seq<Value>, ns: seq<HeaderNotice>)
    ensures AsNotices(vs) == Some(ns) <==> MeansNotices(vs, ns)
  {
    if vs != [] && ns != [] {
      NoticeIsExact(vs[0], ns[0]);
      NoticesAreExact(vs[1..], ns[1..]);
      assert ns == [ns[0]] + ns[1..];
      if MeansNotices(vs[1..], ns[1..]) && MeansNotice(vs[0], ns[0]) {
        forall i | 0 <= i < |vs| ensures MeansNotice(vs[i], ns[i]) {
          if i > 0 { assert MeansNotice(vs[1..][i - 1], ns[1..][i - 1]); }
        }
      }
    }
  }

  /** The arguments of a notification, which are a list of headers or a script and its status. */
  ghost predicate Announces(msg: JsonRpcMsg, n: Notice) {
    && msg.Notification?
    && match n
       case HeaderNotices(ns) =>
         MethodName(msg.verb) == "blockchain.headers.subscribe" && msg.args.Arr? && MeansNotices(msg.args.items, ns)
       case ScriptNotice(script, status) =>
         && MethodName(msg.verb) == "blockchain.scripthash.subscribe"
         && SpellsField(msg.args, ["scripthash", "status"], 0, script)
         && SpellsField(msg.args, ["scripthash", "status"], 1, status)
  }

  lemma VerbsAreNamed(verb: Method)
    ensures MethodName(verb) == "blockchain.headers.subscribe" <==> verb.BlockHeaderSubscribe?
    ensures MethodName(verb) == "blockchain.scripthash.subscribe" <==> verb.ScriptSubscribe?
  {
    if MethodName(verb) == "blockchain.headers.subscribe" { NamesDiffer(verb, Method.BlockHeaderSubscribe); }
    if MethodName(verb) == "blockchain.scripthash.subscribe" { NamesDiffer(verb, Method.ScriptSubscribe); }
  }

  /** Every notification is read as the notice it means, and as no other. */
  lemma NotificationContentIsExact(msg: JsonRpcMsg, n: Notice)
    ensures ToNotification(msg) == Some(n) <==> Announces(msg, n)
  {
    if msg.Notification? {
      VerbsAreNamed(msg.verb);
      match n
      case HeaderNotices(ns) => if msg.args.Arr? { NoticesAreExact(msg.args.items, ns); }
      case ScriptNotice(script, status) =>
        HashFieldIsExact(msg.args, SCRIPT_FIELDS, 0, script);
        HashFieldIsExact(msg.args, SCRIPT_FIELDS, 1, status);
    }
  }

  // ----- lines

  /** The document is a response to the id with this result, or none; an error beside it
      does not matter, nor does the version. */
  ghost predicate Responds(doc: Document, id: usize, result: Option<Value>) {
    !IsRequest(doc) && exists m: JsonRpcMsg :: MeansResponse(doc, m) && m.id == id && m.result == result
  }

  /** To the client the document is a notification. */
  ghost predicate Notifies(doc: Document, n: Notice) {
    !IsRequest(doc) && !IsResponse(doc) && exists m: JsonRpcMsg :: MeansNotification(doc, m) && Announces(m, n)
  }

  lemma ResponseIsRead(doc: Document, id: usize, result: Option<Value>)
    ensures Responds(doc, id, result) <==>
            && Decode(doc).Some? && Decode(doc).value.Response?
            && Decode(doc).value.id == id && Decode(doc).value.result == result
  {
    KindIsExact(doc);
    if Decode(doc).Some? { DecodeIsExact(doc, Decode(doc).value); }
    if Responds(doc, id, result) {
      var m: JsonRpcMsg :| MeansResponse(doc, m) && m.id == id && m.result == result;
      DecodeIsExact(doc, m);
    }
  }

  lemma NoticeIsRead(doc: Document, n: Notice)
    ensures Notifies(doc, n) <==>
            Decode(doc).Some? && Decode(doc).value.Notification? && ToNotification(Decode(doc).value) == Some(n)
  {
    KindIsExact(doc);
    if Decode(doc).Some? {
      DecodeIsExact(doc, Decode(doc).value);
      NotificationContentIsExact(Decode(doc).value, n);
    }
    if Notifies(doc, n) {
      var m: JsonRpcMsg :| MeansNotification(doc, m) && Announces(m, n);
      DecodeIsExact(doc, m);
      NotificationContentIsExact(m, n);
    }
  }

  /** A line retires an id and publishes a response under it if and only if the id is
      pending and the line responds to it with a result that means this response to
      the request it is pending for. */
  lemma PublicationIsExact(inventory: map<usize, Request>, doc: Document, id: usize, r: Response)
    ensures Effect(inventory, Json(doc)) == Retires(id, Some(r)) <==>
            && id in inventory && r != NoResult
            && exists v: Value :: Responds(doc, id, Some(v)) && MeansResult(v, inventory[id], r)
  {
    if Effect(inventory, Json(doc)) == Retires(id, Some(r)) {
      var m := Decode(doc).value;
      ResponseIsRead(doc, id, m.result);
      ResultIsExact(m.result.value, inventory[id], r);
    }
    if id in inventory && r != NoResult {
      if v: Value :| Responds(doc, id, Some(v)) && MeansResult(v, inventory[id], r) {
        ResponseIsRead(doc, id, Some(v));
        ResultIsExact(v, inventory[id], r);
      }
    }
  }

  /** Nothing can be made of the result. */
  ghost predicate Meaningless(v: Value, req: Request) {
    forall r: Response | MeansResult(v, req, r) :: r == NoResult
  }

  /** The line says nothing that could be published for the request, and does not panic. */
  ghost predicate SaysNothing(result: Option<Value>, req: Request) {
    result.Some? ==> Meaningless(result.value, req) && !(req.GetBlockHeaders? && ClaimsTooMany(result.value))
  }

  lemma SilentReading(m: JsonRpcMsg, req: Request)
    requires m.Response?
    ensures ToResponse(m, req) != Panicked && Publishable(m, req) == None <==> SaysNothing(m.result, req)
  {
    if m.result.Some? {
      var v := m.result.value;
      PanicIsExact(v, req);
      forall r: Response ensures ReadResult(v, req) == Typed(r) <==> MeansResult(v, req, r) {
        ResultIsExact(v, req, r);
      }
    }
  }

  /** A line retires an id in silence if and only if the id is pending and the line
      responds to it without a result, or with one that means nothing there. */
  lemma SilenceIsExact(inventory: map<usize, Request>, doc: Document, id: usize)
    ensures Effect(inventory, Json(doc)) == Retires(id, None) <==>
            && id in inventory
            && exists result: Option<Value> :: Responds(doc, id, result) && SaysNothing(result, inventory[id])
  {
    if Effect(inventory, Json(doc)) == Retires(id, None) {
      var m := Decode(doc).value;
      ResponseIsRead(doc, id, m.result);
      SilentReading(m, inventory[id]);
    }
    if id in inventory {
      if result: Option<Value> :| Responds(doc, id, result) && SaysNothing(result, inventory[id]) {
        ResponseIsRead(doc, id, result);
        SilentReading(Decode(doc).value, inventory[id]);
      }
    }
  }

  /** A line announces a notice if and only if it is a notification that means it. */
  lemma AnnouncementIsExact(inventory: map<usize, Request>, doc: Document, n: Notice)
    ensures Effect(inventory, Json(doc)) == Notices(n) <==> Notifies(doc, n)
  {
    NoticeIsRead(doc, n);
  }

  /** A line misses the inventory, or panics, if and only if it responds to an id that is
      not pending, or to a pending one with a list that claims too many headers. */
  lemma MissAndPanicAreExact(inventory: map<usize, Request>, doc: Document, id: usize)
    ensures Effect(inventory, Json(doc)) == Misses(id) <==>
            id !in inventory && exists result: Option<Value> :: Responds(doc, id, result)
    ensures Effect(inventory, Json(doc)) == Panics(id) <==>
            && id in inventory && inventory[id].GetBlockHeaders?
            && exists v: Value :: Responds(doc, id, Some(v)) && ClaimsTooMany(v)
  {
    if Decode(doc).Some? && Decode(doc).value.Response? {
      var m := Decode(doc).value;
      ResponseIsRead(doc, m.id, m.result);
      if m.id in inventory && m.result.Some? {
        PanicIsExact(m.result.value, inventory[m.id]);
      }
    }
    forall result: Option<Value> ensures Responds(doc, id, result) <==>
      Decode(doc).Some? && Decode(doc).value.Response? && Decode(doc).value.id == id && Decode(doc).value.result == result
    {
      ResponseIsRead(doc, id, result);
    }
  }
}
