/** A reader of compact JSON text, written against RFC 8259 and apart from the code that
    writes requests: what a server makes of the characters it is sent. It reads every
    value without blanks between its tokens, except numbers with a fraction or an
    exponent and escapes of surrogate pairs, and none of these is in a request. */
module JsonText {
  import opened Base
  import opened Methods
  import opened Messages
  import opened Framing

  /** A part of the text as it was read, and the text that follows it. */
  datatype Parsed<T> = Read(value: T, rest: string) | Malformed

  // ----- strings

  /** The character that a two-character escape stands for (RFC 8259, section 7). */
  function Unescape(c: char): Option<char> {
    match c
    case '"' => Some('"')
    case '\\' => Some('\\')
    case '/' => Some('/')
    case 'b' => Some(8 as char)
    case 'f' => Some(12 as char)
    case 'n' => Some('\n')
    case 'r' => Some('\r')
    case 't' => Some('\t')
    case _ => None
  }

  /** Four hexadecimal digits name a character of the basic plane. */
  function CodePoint(digits: string): Option<char> {
    if |digits| != 4 then None
    else
      match FromHex(digits)
      case None => None
      case Some(bs) =>
        var n: nat := 256 * (bs[0] as int) + bs[1] as int;
        if 0xD800 <= n < 0xE000 then None else Some(n as char)
  }

  /** One character of a string, escaped or plain; control characters must be escaped. */
  function ReadChar(s: string): (r: Parsed<char>)
    ensures r.Read? ==> |r.rest| < |s|
  {
    if s == "" || s[0] == '"' || s[0] as int < 32 then Malformed
    else if s[0] != '\\' then Read(s[0], s[1..])
    else if |s| >= 6 && s[1] == 'u' then
      match CodePoint(s[2..6]) case Some(c) => Read(c, s[6..]) case None => Malformed
    else if |s| >= 2 && Unescape(s[1]).Some? then Read(Unescape(s[1]).value, s[2..])
    else Malformed
  }

  /** The characters up to the closing quote. */
  function ReadString(s: string): (r: Parsed<string>)
    ensures r.Read? ==> |r.rest| < |s|
    decreases |s|
  {
    if s != "" && s[0] == '"' then Read("", s[1..])
    else
      match ReadChar(s)
      case Malformed => Malformed
      case Read(c, more) =>
        match ReadString(more)
        case Malformed => Malformed
        case Read(t, rest) => Read([c] + t, rest)
  }

  // ----- numbers

  predicate ContinuesNumber(s: string) {
    s != "" && (s[0] == '.' || s[0] == 'e' || s[0] == 'E')
  }

  /** An unsigned integer without a superfluous zero in front. */
  function ReadDigits(s: string): (r: Parsed<nat>)
    ensures r.Read? ==> |r.rest| < |s|
  {
    var n := LeadingDigits(s);
    if n == 0 || (n > 1 && s[0] == '0') || ContinuesNumber(s[n..]) then Malformed
    else Read(DecimalValue(s[..n]), s[n..])
  }

  function ReadNumber(s: string): (r: Parsed<Value>)
    ensures r.Read? ==> |r.rest| < |s|
  {
    if s != "" && s[0] == '-' then
      match ReadDigits(s[1..]) case Read(n, rest) => Read(Int(0 - n as int), rest) case Malformed => Malformed
    else
      match ReadDigits(s) case Read(n, rest) => Read(Int(n), rest) case Malformed => Malformed
  }

  // ----- values

  predicate StartsWith(s: string, t: string) {
    t <= s
  }

  /** The members of an object by name; of a name that repeats, the last one. */
  function FieldsOf(doc: Document): map<string, Value> {
    if doc == [] then map[] else FieldsOf(doc[..|doc| - 1])[doc[|doc| - 1].0 := doc[|doc| - 1].1]
  }

  function ReadWord(s: string, word: string, v: Value): (r: Parsed<Value>)
    requires word != ""
    ensures r.Read? ==> |r.rest| < |s|
  {
    if StartsWith(s, word) then Read(v, s[|word|..]) else Malformed
  }

  function ReadValue(s: string): (r: Parsed<Value>)
    ensures r.Read? ==> |r.rest| < |s|
    decreases |s|, 0
  {
    if s == "" then Malformed
    else if s[0] == '"' then
      match ReadString(s[1..]) case Read(t, rest) => Read(Str(t), rest) case Malformed => Malformed
    else if s[0] == '[' then
      if StartsWith(s, "[]") then Read(Arr([]), s[2..])
      else match ReadItems(s[1..]) case Read(vs, rest) => Read(Arr(vs), rest) case Malformed => Malformed
    else if s[0] == '{' then
      match ReadObject(s[1..]) case Read(doc, rest) => Read(Obj(FieldsOf(doc)), rest) case Malformed => Malformed
    else if s[0] == 't' then ReadWord(s, "true", Value.Bool(true))
    else if s[0] == 'f' then ReadWord(s, "false", Value.Bool(false))
    else if s[0] == 'n' then ReadWord(s, "null", Null)
    else ReadNumber(s)
  }

  /** The items of an array, at least one, up to the closing bracket. */
  function ReadItems(s: string): (r: Parsed<seq<Value>>)
    ensures r.Read? ==> |r.rest| < |s|
    decreases |s|, 1
  {
    match ReadValue(s)
    case Malformed => Malformed
    case Read(v, more) =>
      if StartsWith(more, "]") then Read([v], more[1..])
      else if StartsWith(more, ",") then
        match ReadItems(more[1..]) case Read(vs, rest) => Read([v] + vs, rest) case Malformed => Malformed
      else Malformed
  }

  /** What follows the opening brace of an object. */
  function ReadObject(s: string): (r: Parsed<Document>)
    ensures r.Read? ==> |r.rest| < |s|
    decreases |s|, 2
  {
    if StartsWith(s, "}") then Read([], s[1..]) else ReadMembers(s)
  }

  /** A quoted name and a colon. */
  function ReadName(s: string): (r: Parsed<string>)
    ensures r.Read? ==> |r.rest| < |s|
  {
    if !StartsWith(s, "\"") then Malformed
    else
      match ReadString(s[1..])
      case Malformed => Malformed
      case Read(name, more) => if StartsWith(more, ":") then Read(name, more[1..]) else Malformed
  }

  /** The members of an object, at least one, up to the closing brace. */
  function ReadMembers(s: string): (r: Parsed<Document>)
    ensures r.Read? ==> |r.rest| < |s|
    decreases |s|, 1
  {
    match ReadName(s)
    case Malformed => Malformed
    case Read(name, text) =>
      match ReadValue(text)
      case Malformed => Malformed
      case Read(v, more) =>
        if StartsWith(more, "}") then Read([(name, v)], more[1..])
        else if StartsWith(more, ",") then
          match ReadMembers(more[1..]) case Read(doc, rest) => Read([(name, v)] + doc, rest) case Malformed => Malformed
        else Malformed
  }

  /** A line that is one object and nothing else. */
  function ReadText(s: string): Option<Document> {
    if !StartsWith(s, "{") then None
    else
      match ReadObject(s[1..])
      case Read(doc, rest) => if rest == "" then Some(doc) else None
      case Malformed => None
  }

  // ----- what the client writes is read: strings

  lemma PairReads(s: string, hi: nat, lo: nat)
    requires |s| == 2 && HexDigitValue(s[0]) == Some(hi) && HexDigitValue(s[1]) == Some(lo)
    ensures FromHex(s) == Some([16 * hi + lo])
  {
    assert s[2..] == [];
    assert FromHex(s[2..]) == Some([]);
    assert [16 * hi + lo] + [] == [16 * hi + lo];
  }

  lemma HexPairReads(n: nat)
    requires n < 32
    ensures CodePoint(['0', '0', HexDigit(n / 16), HexDigit(n % 16)]) == Some(n as char)
  {
    var digits := ['0', '0', HexDigit(n / 16), HexDigit(n % 16)];
    HexDigitReadsBack(n / 16);
    HexDigitReadsBack(n % 16);
    assert HexDigitValue('0') == Some(0);
    PairReads(digits[2..], n / 16, n % 16);
    assert FromHex(digits).value == [0] + [n];
  }

  lemma CharReads(c: char, more: string)
    ensures ReadChar(EscapeChar(c) + more) == Read(c, more)
  {
    var s := EscapeChar(c) + more;
    var n := c as int;
    if |EscapeChar(c)| == 6 {
      HexPairReads(n);
      assert s[2..6] == ['0', '0', HexDigit(n / 16), HexDigit(n % 16)];
      assert s[6..] == more;
    } else if |EscapeChar(c)| == 2 {
      assert s[2..] == more;
    } else {
      assert s[1..] == more;
    }
  }

  lemma EscapeIsNoQuote(c: char)
    ensures EscapeChar(c) != [] && EscapeChar(c)[0] != '"'
  {
  }

  lemma StringStep(s: string, c: char, more: string, t: string, rest: string)
    requires s != "" && s[0] != '"' && ReadChar(s) == Read(c, more) && ReadString(more) == Read(t, rest)
    ensures ReadString(s) == Read([c] + t, rest)
  {
  }

  lemma {:induction false} StringReads(t: string, more: string)
    ensures ReadString(Escape(t) + "\"" + more) == Read(t, more)
  {
    var s := Escape(t) + "\"" + more;
    if t == "" {
      assert s[1..] == more;
    } else {
      var next := Escape(t[1..]) + "\"" + more;
      StringReads(t[1..], more);
      CharReads(t[0], next);
      EscapeIsNoQuote(t[0]);
      assert s == EscapeChar(t[0]) + next;
      StringStep(s, t[0], next, t[1..], more);
      assert t == [t[0]] + t[1..];
    }
  }

  // ----- values, each followed by what may follow a value

  predicate EndsValue(f: string) {
    f != "" && (f[0] == ',' || f[0] == ']' || f[0] == '}')
  }

  /** The text is read as the value, whatever follows. */
  ghost predicate Denotes(text: string, v: Value) {
    forall f: string | EndsValue(f) :: ReadValue(text + f) == Read(v, f)
  }

  lemma QuotedDenotes(t: string)
    ensures Denotes(Quoted(t), Str(t))
  {
    forall f: string | EndsValue(f) ensures ReadValue(Quoted(t) + f) == Read(Str(t), f) {
      StringReads(t, f);
      Enclosed('"', Escape(t), '"', f);
      StringValueReads(Quoted(t) + f, t, f);
    }
  }

  /** The first character of an enclosed text, and what follows it. */
  lemma Enclosed(open: char, inner: string, close: char, f: string)
    ensures var s := [open] + inner + [close] + f; s[0] == open && s[1..] == inner + [close] + f
  {
  }

  lemma StringValueReads(s: string, t: string, f: string)
    requires s != "" && s[0] == '"' && ReadString(s[1..]) == Read(t, f)
    ensures ReadValue(s) == Read(Str(t), f)
  {
  }

  lemma {:induction false} NoLeadingZero(n: nat)
    ensures |Decimal(n)| > 1 ==> Decimal(n)[0] != '0'
    ensures n > 0 ==> Decimal(n) != [] && Decimal(n)[0] != '0'
  {
    if n >= 10 {
      NoLeadingZero(n / 10);
    } else {
      DigitIsDigit(n);
    }
  }

  lemma DigitsRead(n: nat, f: string)
    requires EndsValue(f)
    ensures ReadDigits(Decimal(n) + f) == Read(n, f)
  {
    var s := Decimal(n) + f;
    DecimalReadsBack(n);
    NoLeadingZero(n);
    LeadingDigitsStop(Decimal(n), f);
    assert s[..|Decimal(n)|] == Decimal(n) && s[|Decimal(n)|..] == f;
  }

  lemma DigitStartsNumber(s: string)
    requires s != "" && IsDigit(s[0])
    ensures ReadValue(s) == ReadNumber(s)
  {
  }

  lemma NumberReads(s: string, n: nat, f: string)
    requires s != "" && IsDigit(s[0]) && ReadDigits(s) == Read(n, f)
    ensures ReadNumber(s) == Read(Int(n), f)
  {
  }

  lemma DecimalDenotes(n: nat)
    ensures Denotes(Decimal(n), Int(n))
  {
    DecimalReadsBack(n);
    forall f: string | EndsValue(f) ensures ReadValue(Decimal(n) + f) == Read(Int(n), f) {
      DigitsRead(n, f);
      DigitStartsNumber(Decimal(n) + f);
      NumberReads(Decimal(n) + f, n, f);
    }
  }

  lemma FlagDenotes(b: bool)
    ensures Denotes(if b then "true" else "false", Value.Bool(b))
  {
    forall f: string | EndsValue(f)
      ensures ReadValue((if b then "true" else "false") + f) == Read(Value.Bool(b), f)
    {
      var s := (if b then "true" else "false") + f;
      if b {
        assert s[4..] == f;
      } else {
        assert s[0] == 'f' && s[5..] == f;
      }
    }
  }

  // ----- arrays

  ghost predicate AllDenote(texts: seq<string>, vs: seq<Value>) {
    |texts| == |vs| && forall i | 0 <= i < |texts| :: Denotes(texts[i], vs[i])
  }

  lemma LastItemReads(s: string, v: Value, f: string, rest: string)
    requires ReadValue(s) == Read(v, f) && f != "" && f[0] == ']' && f[1..] == rest
    ensures ReadItems(s) == Read([v], rest)
  {
  }

  lemma ItemReads(s: string, v: Value, f: string, next: string, vs: seq<Value>, rest: string)
    requires ReadValue(s) == Read(v, f) && f != "" && f[0] == ',' && f[1..] == next && ReadItems(next) == Read(vs, rest)
    ensures ReadItems(s) == Read([v] + vs, rest)
  {
  }

  lemma OneItem(text: string, rest: string)
    ensures var f := "]" + rest; text + "]" + rest == text + f && f[0] == ']' && f[1..] == rest
  {
  }

  lemma FirstItem(text: string, join: string, rest: string)
    ensures var next := join + "]" + rest;
      var f := "," + next; text + "," + join + "]" + rest == text + f && f[0] == ',' && f[1..] == next
  {
  }

  lemma {:induction false} ItemsRead(texts: seq<string>, vs: seq<Value>, rest: string)
    requires texts != [] && AllDenote(texts, vs)
    ensures ReadItems(Join(texts) + "]" + rest) == Read(vs, rest)
  {
    var s := Join(texts) + "]" + rest;
    if |texts| == 1 {
      OneItem(texts[0], rest);
      DenotesItem(texts[0], vs[0], "]" + rest);
      LastItemReads(s, vs[0], "]" + rest, rest);
      assert [vs[0]] == vs;
    } else {
      var next := Join(texts[1..]) + "]" + rest;
      ItemsRead(texts[1..], vs[1..], rest);
      FirstItem(texts[0], Join(texts[1..]), rest);
      DenotesItem(texts[0], vs[0], "," + next);
      ItemReads(s, vs[0], "," + next, next, vs[1..], rest);
      assert [vs[0]] + vs[1..] == vs;
    }
  }

  lemma DenotesItem(text: string, v: Value, f: string)
    requires Denotes(text, v) && EndsValue(f)
    ensures ReadValue(text + f) == Read(v, f)
  {
  }

  /** A value's text does not begin with a closing bracket. */
  lemma DenotesIsNoBracket(text: string, v: Value)
    requires Denotes(text, v)
    ensures text != "" && text[0] != ']'
  {
    var f := "]";
    assert EndsValue(f);
    assert ReadValue(text + f) == Read(v, f);
    assert text == "" ==> text + f == f;
  }

  lemma EmptyArrayReads(f: string)
    ensures ReadValue("[]" + f) == Read(Arr([]), f)
  {
    assert ("[]" + f)[2..] == f;
  }

  lemma ArrayValueReads(s: string, vs: seq<Value>, f: string)
    requires |s| > 1 && s[0] == '[' && s[1] != ']' && ReadItems(s[1..]) == Read(vs, f)
    ensures ReadValue(s) == Read(Arr(vs), f)
  {
  }

  lemma ArrayReads(texts: seq<string>, vs: seq<Value>, f: string)
    requires texts != [] && AllDenote(texts, vs)
    ensures ReadValue("[" + Join(texts) + "]" + f) == Read(Arr(vs), f)
  {
    ItemsRead(texts, vs, f);
    DenotesIsNoBracket(texts[0], vs[0]);
    Enclosed('[', Join(texts), ']', f);
    assert Join(texts)[0] == texts[0][0];
    ArrayValueReads("[" + Join(texts) + "]" + f, vs, f);
  }

  lemma ArrayDenotes(texts: seq<string>, vs: seq<Value>)
    requires AllDenote(texts, vs)
    ensures Denotes("[" + Join(texts) + "]", Arr(vs))
  {
    forall f: string | EndsValue(f) ensures ReadValue("[" + Join(texts) + "]" + f) == Read(Arr(vs), f) {
      if texts == [] {
        EmptyArrayReads(f);
        assert "[" + Join(texts) + "]" == "[]";
      } else {
        ArrayReads(texts, vs, f);
      }
    }
  }

  lemma ParamDenotes(p: Param)
    ensures Denotes(ParamText(p), EncodeParam(p))
  {
    match p
    case U8(n) => DecimalDenotes(n);
    case U32(n) => DecimalDenotes(n);
    case Usize(n) => DecimalDenotes(n);
    case Text(s) => QuotedDenotes(s);
    case Flag(b) => FlagDenotes(b);
    case Bytes(bs) =>
      forall i | 0 <= i < |bs| ensures Denotes(ByteTexts(bs)[i], EncodeBytes(bs)[i]) { DecimalDenotes(bs[i]); }
      ArrayDenotes(ByteTexts(bs), EncodeBytes(bs));
  }

  lemma ParamsDenote(ps: seq<Param>)
    ensures Denotes("[" + Join(ParamTexts(ps)) + "]", Arr(EncodeParams(ps)))
  {
    EncodedParams(ps);
    forall i | 0 <= i < |ps| ensures Denotes(ParamTexts(ps)[i], EncodeParams(ps)[i]) {
      ParamDenotes(ps[i]);
    }
    ArrayDenotes(ParamTexts(ps), EncodeParams(ps));
  }

  // ----- members

  predicate Plain(name: string) {
    forall i | 0 <= i < |name| :: name[i] != '"' && name[i] != '\\' && name[i] as int >= 32
  }

  lemma {:induction false} PlainEscape(name: string)
    requires Plain(name)
    ensures Escape(name) == name
  {
    if name != "" {
      PlainEscape(name[1..]);
      assert name == [name[0]] + name[1..];
    }
  }

  /** A name, a value, and what follows the value. */
  function MemberText(name: string, text: string, f: string): string {
    "\"" + (name + ("\":" + (text + f)))
  }

  lemma NameParts(name: string, rest: string)
    ensures var s := "\"" + (name + ("\":" + rest));
      s[0] == '"' && s[1..] == name + "\"" + (":" + rest) && (":" + rest)[0] == ':' && (":" + rest)[1..] == rest
  {
    var s, t := "\"" + (name + ("\":" + rest)), name + "\"" + (":" + rest);
    assert "\":" + rest == "\"" + (":" + rest);
    assert s[1..] == name + ("\"" + (":" + rest));
    assert t == name + ("\"" + (":" + rest));
  }

  lemma NameReads(name: string, text: string, f: string)
    requires Plain(name)
    ensures ReadName(MemberText(name, text, f)) == Read(name, text + f)
  {
    PlainEscape(name);
    StringReads(name, ":" + (text + f));
    NameParts(name, text + f);
    QuotedNameReads(MemberText(name, text, f), name, ":" + (text + f));
  }

  lemma QuotedNameReads(s: string, name: string, more: string)
    requires s != "" && s[0] == '"' && ReadString(s[1..]) == Read(name, more) && more != "" && more[0] == ':'
    ensures ReadName(s) == Read(name, more[1..])
  {
  }

  /** The text is read as these members, up to its end. */
  predicate ListsMembers(text: string, doc: Document) {
    ReadMembers(text) == Read(doc, "")
  }

  lemma LastMemberReads(name: string, text: string, v: Value)
    requires Plain(name) && Denotes(text, v)
    ensures ListsMembers(MemberText(name, text, "}"), [(name, v)])
  {
    NameReads(name, text, "}");
    DenotesItem(text, v, "}");
  }

  lemma MemberReads(name: string, text: string, v: Value, next: string, doc: Document)
    requires Plain(name) && Denotes(text, v) && ListsMembers(next, doc)
    ensures ListsMembers(MemberText(name, text, "," + next), [(name, v)] + doc)
  {
    var f := "," + next;
    NameReads(name, text, f);
    DenotesItem(text, v, f);
    assert f[1..] == next;
  }

  lemma FromTheRight(a: string, b: string, c: string, d: string, e: string, f: string, g: string)
    ensures a + b + c + d + e + f + g == a + (b + (c + (d + (e + (f + g)))))
  {
  }

  /** A separator, a quoted name and a colon, written as one literal by the client. */
  lemma SplitName(before: string, name: string, text: string, f: string)
    requires before == ",\"" + name + "\":"
    ensures before + (text + f) == "," + MemberText(name, text, f)
  {
  }

  /** The text of a request, member by member. */
  lemma TextInMembers(id: string, version: string, verb: string, params: string)
    ensures var p := MemberText("params", "[" + params + "]", "}");
      var m := MemberText("method", verb, "," + p);
      var j := MemberText("jsonrpc", version, "," + m);
      ID_PREFIX + id + (",\"jsonrpc\":" + version + ",\"method\":" + verb + ",\"params\":[" + params + "]}")
      == "{" + MemberText("id", id, "," + j)
  {
    var p := MemberText("params", "[" + params + "]", "}");
    var m := MemberText("method", verb, "," + p);
    var j := MemberText("jsonrpc", version, "," + m);
    FromTheRight(",\"jsonrpc\":", version, ",\"method\":", verb, ",\"params\":[", params, "]}");
    ParamsText(params);
    SplitName(",\"method\":", "method", verb, "," + p);
    SplitName(",\"jsonrpc\":", "jsonrpc", version, "," + m);
    IdText(id, "," + j);
  }

  lemma ParamsText(params: string)
    ensures ",\"params\":[" + (params + "]}") == "," + MemberText("params", "[" + params + "]", "}")
  {
    SplitName(",\"params\":", "params", "[" + params + "]", "}");
    assert ",\"params\":[" == ",\"params\":" + "[";
    assert "]}" == "]" + "}";
  }

  lemma IdText(id: string, f: string)
    ensures ID_PREFIX + id + f == "{" + MemberText("id", id, f)
  {
    assert ID_PREFIX == "{" + ("\"" + ("id" + "\":"));
  }

  lemma NamesArePlain()
    ensures Plain("id") && Plain("jsonrpc") && Plain("method") && Plain("params")
  {
  }

  lemma MembersRead(id: string, version: string, verb: string, params: string, a: Value, b: Value, c: Value, d: Value)
    requires Denotes(id, a) && Denotes(version, b) && Denotes(verb, c) && Denotes(params, d)
    ensures var p := MemberText("params", params, "}");
      var m := MemberText("method", verb, "," + p);
      var j := MemberText("jsonrpc", version, "," + m);
      ListsMembers(MemberText("id", id, "," + j), [("id", a), ("jsonrpc", b), ("method", c), ("params", d)])
  {
    var p := MemberText("params", params, "}");
    var m := MemberText("method", verb, "," + p);
    var j := MemberText("jsonrpc", version, "," + m);
    NamesArePlain();
    LastMemberReads("params", params, d);
    MemberReads("method", verb, c, p, [("params", d)]);
    var two, three := [("method", c), ("params", d)], [("jsonrpc", b), ("method", c), ("params", d)];
    assert [("method", c)] + [("params", d)] == two && [("jsonrpc", b)] + two == three;
    MemberReads("jsonrpc", version, b, m, two);
    MemberReads("id", id, a, j, three);
    assert [("id", a)] + three == [("id", a), ("jsonrpc", b), ("method", c), ("params", d)];
  }

  /** The text that the client writes for a request is read as the very document that
      the request encodes to: every member with its name and value, in order, and
      nothing else. */
  lemma TextIsRead(m: JsonRpcMsg)
    requires m.Request?
    ensures ReadText(RequestText(m)) == Some(Encode(m))
  {
    var params := "[" + Join(ParamTexts(m.params)) + "]";
    DecimalDenotes(m.id);
    QuotedDenotes(m.jsonrpc);
    QuotedDenotes(MethodName(m.verb));
    ParamsDenote(m.params);
    TextInMembers(Decimal(m.id), Quoted(m.jsonrpc), Quoted(MethodName(m.verb)), Join(ParamTexts(m.params)));
    MembersRead(Decimal(m.id), Quoted(m.jsonrpc), Quoted(MethodName(m.verb)), params,
                Int(m.id), Str(m.jsonrpc), Str(MethodName(m.verb)), Arr(EncodeParams(m.params)));
    assert RequestText(m)[0] == '{';
  }
}
