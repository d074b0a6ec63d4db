/** The 80-byte block header and the slicing of concatenated headers
    (src/types/mod.rs, the `GetBlockHeaders` arm of `to_response`). */
module Headers {
  import opened Base

  // ----- little-endian integers

  function Power256(k: nat): (p: nat)
    ensures p >= 1
  {
    if k == 0 then 1 else 256 * Power256(k - 1)
  }

  function ToLittleEndian(n: nat, k: nat): (bs: seq<byte>)
    ensures |bs| == k
  {
    if k == 0 then [] else [n % 256] + ToLittleEndian(n / 256, k - 1)
  }

  function FromLittleEndian(bs: seq<byte>): (n: nat)
    ensures n < Power256(|bs|)
  {
    if bs == [] then 0 else bs[0] + 256 * FromLittleEndian(bs[1..])
  }

  lemma {:induction false} NumberReadsBack(n: nat, k: nat)
    requires n < Power256(k)
    ensures FromLittleEndian(ToLittleEndian(n, k)) == n
  {
    if k > 0 {
      NumberReadsBack(n / 256, k - 1);
      assert ToLittleEndian(n, k)[1..] == ToLittleEndian(n / 256, k - 1);
    }
  }

  lemma {:induction false} BytesReadBack(bs: seq<byte>)
    ensures ToLittleEndian(FromLittleEndian(bs), |bs|) == bs
  {
    if bs != [] {
      BytesReadBack(bs[1..]);
      assert FromLittleEndian(bs) % 256 == bs[0] && FromLittleEndian(bs) / 256 == FromLittleEndian(bs[1..]);
      assert bs == [bs[0]] + bs[1..];
    }
  }

  // ----- one header

  type u32 = n: nat | n < 0x1_0000_0000
  type i32 = n: int | -0x8000_0000 <= n < 0x8000_0000

  datatype Header = Header(
    version: i32, prevHash: Bytes32, merkleRoot: Bytes32, time: u32, bits: u32, nonce: u32)

  /** Two's complement. */
  function Signed(n: u32): i32 {
    if n < 0x8000_0000 then n else n - 0x1_0000_0000
  }

  function Unsigned(n: i32): u32 {
    if n >= 0 then n else n + 0x1_0000_0000
  }

  function EncodeHeader(h: Header): (bs: seq<byte>)
    ensures |bs| == 80
  {
    ToLittleEndian(Unsigned(h.version), 4) + h.prevHash + h.merkleRoot
    + ToLittleEndian(h.time, 4) + ToLittleEndian(h.bits, 4) + ToLittleEndian(h.nonce, 4)
  }

  function ReadU32(bs: seq<byte>, at: nat): u32
    requires at + 4 <= |bs|
  {
    assert Power256(4) == 0x1_0000_0000;
    FromLittleEndian(bs[at..at + 4])
  }

  /** Every 80 bytes are a header; any other length is refused, too short or with bytes left over. */
  function DecodeHeader(bs: seq<byte>): (r: Option<Header>)
    ensures r.Some? <==> |bs| == 80
  {
    if |bs| != 80 then None
    else Some(Header(Signed(ReadU32(bs, 0)), bs[4..36], bs[36..68], ReadU32(bs, 68), ReadU32(bs, 72), ReadU32(bs, 76)))
  }

  lemma HeaderReadsBack(h: Header)
    ensures DecodeHeader(EncodeHeader(h)) == Some(h)
  {
    var bs := EncodeHeader(h);
    assert Power256(4) == 0x1_0000_0000;
    NumberReadsBack(Unsigned(h.version), 4);
    NumberReadsBack(h.time, 4);
    NumberReadsBack(h.bits, 4);
    NumberReadsBack(h.nonce, 4);
    assert bs[0..4] == ToLittleEndian(Unsigned(h.version), 4);
    assert bs[4..36] == h.prevHash && bs[36..68] == h.merkleRoot;
    assert bs[68..72] == ToLittleEndian(h.time, 4);
    assert bs[72..76] == ToLittleEndian(h.bits, 4);
    assert bs[76..80] == ToLittleEndian(h.nonce, 4);
  }

  lemma HeaderBytesReadBack(bs: seq<byte>)
    requires |bs| == 80
    ensures EncodeHeader(DecodeHeader(bs).value) == bs
  {
    BytesReadBack(bs[0..4]);
    BytesReadBack(bs[68..72]);
    BytesReadBack(bs[72..76]);
    BytesReadBack(bs[76..80]);
    assert bs == bs[0..4] + bs[4..36] + bs[36..68] + bs[68..72] + bs[72..76] + bs[76..80];
  }

  lemma LowByte(a: byte, m: nat, k: nat)
    ensures ToLittleEndian(a + 0x100 * m, k + 1) == [a] + ToLittleEndian(m, k)
  {
  }

  lemma FourBytes(n: nat, a: byte, b: byte, c: byte, d: byte)
    requires n == a + 0x100 * (b + 0x100 * (c + 0x100 * d))
    ensures ToLittleEndian(n, 4) == [a, b, c, d]
  {
    LowByte(d, 0, 0);
    LowByte(c, d, 1);
    LowByte(b, c + 0x100 * d, 2);
    LowByte(a, b + 0x100 * (c + 0x100 * d), 3);
  }

  /** The header of the first block of the Bitcoin main chain. */
  function FirstHeader(): Header {
    Header(1, Zeros(), FirstMerkleRoot(), 1231006505, 0x1d00ffff, 2083236893)
  }

  function Zeros(): Bytes32 {
    seq(32, _ => 0)
  }

  function FirstMerkleRoot(): Bytes32 {
    Eight(0x3b, 0xa3, 0xed, 0xfd, 0x7a, 0x7b, 0x12, 0xb2) + Eight(0x7a, 0xc7, 0x2c, 0x3e, 0x67, 0x76, 0x8f, 0x61)
    + Eight(0x7f, 0xc8, 0x1b, 0xc3, 0x88, 0x8a, 0x51, 0x32) + Eight(0x3a, 0x9f, 0xb8, 0xaa, 0x4b, 0x1e, 0x5e, 0x4a)
  }

  function Eight(a: byte, b: byte, c: byte, d: byte, e: byte, f: byte, g: byte, h: byte): (bs: seq<byte>)
    ensures |bs| == 8
  {
    [a, b, c, d, e, f, g, h]
  }

  /** An input from the chain itself: the order and the byte order of the fields. */
  lemma FirstHeaderIsRead()
    ensures DecodeHeader([1, 0, 0, 0] + Zeros() + FirstMerkleRoot()
                         + [0x29, 0xab, 0x5f, 0x49] + [0xff, 0xff, 0, 0x1d] + [0x1d, 0xac, 0x2b, 0x7c])
         == Some(FirstHeader())
  {
    FourBytes(1, 1, 0, 0, 0);
    FourBytes(1231006505, 0x29, 0xab, 0x5f, 0x49);
    FourBytes(0x1d00ffff, 0xff, 0xff, 0, 0x1d);
    FourBytes(2083236893, 0x1d, 0xac, 0x2b, 0x7c);
    HeaderReadsBack(FirstHeader());
  }

  // ----- a run of headers

  function EncodeHeaders(hs: seq<Header>): (bs: seq<byte>)
    ensures |bs| == 80 * |hs|
  {
    if hs == [] then [] else EncodeHeaders(hs[..|hs| - 1]) + EncodeHeader(hs[|hs| - 1])
  }

  /** The `k`th header of the buffer. */
  function HeaderAt(raw: seq<byte>, k: nat): Header
    requires 80 * k + 80 <= |raw|
  {
    DecodeHeader(raw[80 * k..80 * k + 80]).value
  }

  /** The headers in the first 80 * count bytes, or None when the bytes run out. */
  function Slices(raw: seq<byte>, count: nat): (r: Option<seq<Header>>)
    ensures r.Some? <==> 80 * count <= |raw|
    ensures r.Some? ==> |r.value| == count
  {
    if 80 * count > |raw| then None
    else Some(seq(count, k requires 0 <= k < count => HeaderAt(raw, k)))
  }

  lemma {:induction false} SlicesAreTheBytes(raw: seq<byte>, count: nat)
    requires 80 * count <= |raw|
    ensures EncodeHeaders(Slices(raw, count).value) == raw[..80 * count]
  {
    if count > 0 {
      var k := count - 1;
      SlicesAreTheBytes(raw, k);
      SliceIsTheBytes(raw, k);
      var hs := Slices(raw, count).value;
      assert hs[..k] == Slices(raw, k).value && hs[k] == HeaderAt(raw, k);
    }
  }

  lemma SliceIsTheBytes(raw: seq<byte>, k: nat)
    requires 80 * k + 80 <= |raw|
    ensures raw[..80 * k] + EncodeHeader(HeaderAt(raw, k)) == raw[..80 * k + 80]
  {
    HeaderBytesReadBack(raw[80 * k..80 * k + 80]);
  }

  lemma IndexDoesNotWrap(i: nat, length: nat)
    requires 80 * i <= length < 0x8000_0000_0000_0000
    ensures i * 80 % WORD == 80 * i && (i + 1) * 80 % WORD == 80 * i + 80
  {
  }

  /** The loop itself, on 64-bit indices that would wrap around. It stops at the first
      slice that leaves the buffer, where the source panics. The bound on the buffer is
      the language's own bound on an allocation. */
  method SliceHeaders(count: usize, raw: seq<byte>) returns (headers: seq<Header>, panicked: bool)
    requires |raw| < 0x8000_0000_0000_0000
    ensures panicked <==> 80 * count > |raw|
    ensures !panicked ==> |headers| == count && EncodeHeaders(headers) == raw[..80 * count]
    ensures !panicked ==> Slices(raw, count) == Some(headers)
  {
    headers := [];
    panicked := false;
    var i := 0;
    while i < count
      invariant 0 <= i <= count && 80 * i <= |raw|
      invariant Slices(raw, i) == Some(headers)
    {
      var start, end := i * 80 % WORD, (i + 1) * 80 % WORD;
      IndexDoesNotWrap(i, |raw|);
      if end < start || end > |raw| {
        panicked := true;
        return;
      }
      var header := DecodeHeader(raw[start..end]);
      assert header == Some(HeaderAt(raw, i)) && Slices(raw, i + 1).value == Slices(raw, i).value + [HeaderAt(raw, i)];
      headers := headers + [header.value];
      i := i + 1;
    }
    SlicesAreTheBytes(raw, count);
  }
}
