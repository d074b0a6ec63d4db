/** The method names of the Electrum protocol (src/types/method.rs). */
module Methods {
  import opened Base

  datatype Method =
    | GetBlockHeader
    | GetBlockHeaders
    | BlockHeaderSubscribe
    | ScriptSubscribe
    | ScriptUnsubscribe
    | EstimateFee
    | BroadcastTx
    | GetTransaction
    | GetBalance
    | GetHistory
    | Features
    | Version
    | Ping

  function MethodName(m: Method): string {
    match m
    case GetBlockHeader => "blockchain.block.header"
    case GetBlockHeaders => "blockchain.block.headers"
    case BlockHeaderSubscribe => "blockchain.headers.subscribe"
    case ScriptSubscribe => "blockchain.scripthash.subscribe"
    case ScriptUnsubscribe => "blockchain.scripthash.unsubscribe"
    case EstimateFee => "blockchain.estimatefee"
    case BroadcastTx => "blockchain.transaction.broadcast"
    case GetTransaction => "blockchain.transaction.get"
    case GetBalance => "blockchain.scripthash.get_balance"
    case GetHistory => "blockchain.scripthash.get_history"
    case Features => "server.features"
    case Version => "server.version"
    case Ping => "server.ping"
  }

  /** The second table, the one that reads a name. */
  function ParseMethod(s: string): Option<Method> {
    if s == "blockchain.block.header" then Some(GetBlockHeader)
    else if s == "blockchain.block.headers" then Some(GetBlockHeaders)
    else if s == "blockchain.headers.subscribe" then Some(BlockHeaderSubscribe)
    else if s == "blockchain.scripthash.subscribe" then Some(ScriptSubscribe)
    else if s == "blockchain.scripthash.unsubscribe" then Some(ScriptUnsubscribe)
    else if s == "blockchain.estimatefee" then Some(EstimateFee)
    else if s == "blockchain.transaction.broadcast" then Some(BroadcastTx)
    else if s == "blockchain.transaction.get" then Some(GetTransaction)
    else if s == "blockchain.scripthash.get_balance" then Some(GetBalance)
    else if s == "blockchain.scripthash.get_history" then Some(GetHistory)
    else if s == "server.features" then Some(Features)
    else if s == "server.version" then Some(Version)
    else if s == "server.ping" then Some(Ping)
    else None
  }

  /** What tells the names apart: their lengths and, among the three names of
      33 characters, two later positions. */
  function Mark(s: string): (nat, char, char) {
    if |s| == 33 then (33, s[22], s[26]) else (|s|, ' ', ' ')
  }

  function MarkOf(m: Method): (nat, char, char) {
    match m
    case GetBlockHeader => (23, ' ', ' ')
    case GetBlockHeaders => (24, ' ', ' ')
    case BlockHeaderSubscribe => (28, ' ', ' ')
    case ScriptSubscribe => (31, ' ', ' ')
    case ScriptUnsubscribe => (33, 'u', 'b')
    case EstimateFee => (22, ' ', ' ')
    case BroadcastTx => (32, ' ', ' ')
    case GetTransaction => (26, ' ', ' ')
    case GetBalance => (33, 'g', 'b')
    case GetHistory => (33, 'g', 'h')
    case Features => (15, ' ', ' ')
    case Version => (14, ' ', ' ')
    case Ping => (11, ' ', ' ')
  }

  lemma NameHasMark(m: Method)
    ensures Mark(MethodName(m)) == MarkOf(m)
  {
  }

  lemma NamesDiffer(m: Method, n: Method)
    requires MethodName(m) == MethodName(n)
    ensures m == n
  {
    NameHasMark(m);
    NameHasMark(n);
  }

  lemma ParsedIsName(s: string)
    ensures ParseMethod(s).Some? ==> MethodName(ParseMethod(s).value) == s
  {
  }

  lemma NameIsParsed(m: Method)
    ensures ParseMethod(MethodName(m)).Some?
  {
  }

  /** Reading a name and printing a method are inverse to each other: the two tables agree. */
  lemma MethodNameReadsBack(m: Method, s: string)
    ensures ParseMethod(s) == Some(m) <==> s == MethodName(m)
  {
    ParsedIsName(s);
    if s == MethodName(m) {
      NameIsParsed(m);
      NamesDiffer(m, ParseMethod(s).value);
    }
  }
}
