/** ESP encapsulation and decapsulation for look-aside sessions (esp.c). */
module Esp {
  import opened Bytes
  import opened Common
  import opened Checksum
  import opened PacketBuffer
  import opened CryptoDev
  import Ipip

  const EINVAL := 22
  const ENOSPC := 28
  const IP_MAXPACKET := 65535
  const TWO_32: nat := 0x1_0000_0000
  const TWO_64: nat := 0x1_0000_0000_0000_0000

  datatype Mode = Ip4Tunnel | Ip6Tunnel | Transport | NoMode

  /** The fixed part of an SA. Salt and addresses are kept as the bytes in memory. */
  datatype Config = Config(
    spi: nat, salt: seq<byte>, mode: Mode, cipher: Cipher, auth: Auth, aead: Aead,
    digestLen: nat, ivLen: nat, blockSize: nat, src: seq<byte>, dst: seq<byte>)

  /** An SA: its configuration and the 64-bit sequence counter the sender advances. */
  class Sa {
    const cfg: Config
    var seq_: nat

    constructor (cfg: Config)
      ensures this.cfg == cfg && seq_ == 0
    {
      this.cfg, seq_ := cfg, 0;
    }

    ghost predicate Valid()
      reads this
    {
      seq_ < TWO_64 && WellConfigured(cfg)
    }
  }

  /** Parameters as the algorithm tables of sa.c hand them out. */
  predicate WellConfigured(c: Config)
  {
    && c.spi < TWO_32 && |c.salt| == 4
    && c.blockSize in {4, 8, 16, 64}
    && c.ivLen <= 16 && c.digestLen <= 32
    && (c.aead == AesGcm || c.cipher == AesCtr ==> c.ivLen >= 8)
    && (c.mode == Ip4Tunnel ==> Ipip.AddressesFit(false, c.src, c.dst))
    && (c.mode == Ip6Tunnel ==> Ipip.AddressesFit(true, c.src, c.dst))
  }

  /** The combinations the two switches of the codec let through. */
  predicate Supported(c: Config)
  {
    c.aead == AesGcm || (c.cipher != OtherCipher && c.auth != OtherAuth)
  }

  /** The rows of the algorithm tables behind a supported combination (sa.c:66-146). */
  predicate TableRow(c: Config)
  {
    && WellConfigured(c) && Supported(c) && c.mode != NoMode
    && if c.aead == AesGcm then c.ivLen == 8 && c.blockSize == 4 && c.digestLen == 16
       else
         && c.digestLen == (match c.auth case NullAuth => 0 case Sha1Hmac => 12 case _ => 16)
         && match c.cipher
            case NullCipher => c.ivLen == 0 && c.blockSize == 4
            case TripleDesCbc => c.ivLen == 8 && c.blockSize == 8
            case AesCbc => c.ivLen == 16 && c.blockSize == 16
            case _ => (c.ivLen == 8 && c.blockSize == 4) || (c.ivLen == 16 && c.blockSize == 16)
  }

  predicate Tunnel(c: Config) { c.mode == Ip4Tunnel || c.mode == Ip6Tunnel }

  /** RTE_ALIGN_CEIL: the least multiple of the block size that is not below x. */
  function AlignCeil(x: nat, a: nat): (r: nat)
    requires a > 0
    ensures x <= r < x + a && Blocks(r, a)
  {
    if x == 0 then 0 else if x <= a then a else a + AlignCeil(x - a, a)
  }

  /** Transport mode takes the header at its word; tunnel mode touches a few of its fields. */
  predicate Fitting(c: Config, p: seq<byte>)
  {
    if c.mode == Transport then Ipip.WholeHeader(p) else Ipip.Headed(p)
  }

  /** Header bytes that stay in front of the payload: none of the inner packet's in tunnel mode. */
  function Kept(c: Config, p: seq<byte>): (n: nat)
    requires Fitting(c, p)
    ensures n <= |p|
  {
    if c.mode == Transport then Ipip.HeaderLen(p) else 0
  }

  function TruePadded(c: Config, p: seq<byte>): nat
    requires WellConfigured(c) && Fitting(c, p)
  {
    AlignCeil(|p| - Kept(c, p) + 2, c.blockSize)
  }

  /** Truncation to uint16_t. */
  function Cut16(x: nat): (r: nat)
    ensures r < 0x10000 && (x < 0x10000 ==> r == x)
  {
    if x < 0x10000 then x else Cut16(x - 0x10000)
  }

  /** pad_payload_len: the aligned length cut to 16 bits. */
  function PadPayload(c: Config, p: seq<byte>): nat
    requires WellConfigured(c) && Fitting(c, p)
  {
    Cut16(TruePadded(c, p))
  }

  /** pad_len: padding plus the two trailer bytes. */
  function PadLen(c: Config, p: seq<byte>): (n: nat)
    requires WellConfigured(c) && Fitting(c, p)
    ensures 2 <= n <= 65
  {
    TruePadded(c, p) - (|p| - Kept(c, p))
  }

  /** The 16-bit subtraction gives the right pad length even where pad_payload_len itself was cut. */
  lemma {:induction false} PadLenIn16Bits(padded: nat, payload: nat)
    requires payload <= padded < payload + 0x10000
    ensures (Cut16(padded) - payload) % 0x10000 == padded - payload
  {
    if padded >= 0x10000 {
      if payload >= 0x10000 {
        PadLenIn16Bits(padded - 0x10000, payload - 0x10000);
        assert (Cut16(padded) - payload + 0x10000) % 0x10000 == (Cut16(padded) - payload) % 0x10000;
      } else {
        assert Cut16(padded) == padded - 0x10000;
      }
    }
  }

  /** The 64-bit sequence counter wraps. */
  function NextSeq(sn: nat): nat
  {
    if sn + 1 == TWO_64 then 0 else sn + 1
  }

  /** Bytes of IP header in front of the ESP header on the wire. */
  function FrontLen(c: Config, p: seq<byte>): nat
    requires Fitting(c, p)
  {
    match c.mode
    case Ip4Tunnel => 20
    case Ip6Tunnel => 40
    case _ => Kept(c, p)
  }

  function NextProto(c: Config, p: seq<byte>): byte
    requires Fitting(c, p)
  {
    if c.mode == Transport then (if Ipip.Version(p) == 4 then p[9] else p[6])
    else if Ipip.Version(p) == 4 then 4 else 41
  }

  /** A header with one byte and a two-byte field replaced. */
  function Fields(h: seq<byte>, protoAt: nat, proto: byte, lenAt: nat, l: seq<byte>): (r: seq<byte>)
    requires protoAt < |h| && lenAt + 2 <= |h| && |l| == 2
    ensures |r| == |h|
  {
    h[protoAt := proto][lenAt := l[0]][lenAt + 1 := l[1]]
  }

  /** A header with its protocol and length fields replaced, as transport mode does on the way out and back. */
  function Readdress(h: seq<byte>, proto: byte, total: nat): (r: seq<byte>)
    requires Ipip.WholeHeader(h)
    ensures |r| == |h| && Ipip.WholeHeader(r) && r[0] == h[0]
  {
    if Ipip.Version(h) == 4 then Fields(h, 9, proto, 2, Be(total, 2))
    else Fields(h, 6, proto, 4, Be(Body6(total), 2))
  }

  /** IPv6 payload length of a packet with the given total length. */
  function Body6(total: nat): nat
  {
    if total >= 40 then total - 40 else 0
  }

  /** Sequential padding 1, 2, 3, ... (section 2.4 of RFC 4303). */
  function Padding(n: nat): (s: seq<byte>)
    requires n <= 255
    ensures |s| == n
  {
    seq(n, i requires 0 <= i < n => i + 1)
  }

  /** An ESP packet taken apart. */
  datatype Frame = Frame(front: seq<byte>, spi: nat, sn: nat, iv: seq<byte>,
                         body: seq<byte>, pad: nat, next: byte, icv: seq<byte>)
  {
    function EspHdr(): (h: seq<byte>)
      ensures |h| == 8
    {
      Be(spi, 4) + Be(sn, 4)
    }

    /** Payload, padding, pad length and next header: what gets enciphered. */
    function Plain(): (s: seq<byte>)
      requires pad <= 255
      ensures |s| == |body| + pad + 2
    {
      body + Padding(pad) + [pad, next]
    }

    function Bytes(): (s: seq<byte>)
      requires pad <= 255
    {
      front + EspHdr() + iv + Plain() + icv
    }
  }

  /** counter block in the packet's private area: salt, 64-bit IV, block counter 1. */
  function CounterBlock(salt: seq<byte>, iv8: seq<byte>): seq<byte>
  {
    salt + iv8 + Be(1, 4)
  }

  /** What a successful esp_outbound leaves in the packet. */
  ghost predicate Encapsulates(c: Config, p: seq<byte>, sn: nat, f: Frame)
    requires WellConfigured(c) && Fitting(c, p)
  {
    && HasFields(c, p, sn, f)
    && f.body == (if c.mode == Transport then p[Kept(c, p)..] else Ipip.Hop(p))
    && FrontMatches(c, p, f.front, |f.Bytes()|)
  }

  /** Its ESP fields, and the lengths of its other parts. */
  ghost predicate HasFields(c: Config, p: seq<byte>, sn: nat, f: Frame)
    requires WellConfigured(c) && Fitting(c, p)
  {
    && f.spi == c.spi && f.sn == sn % TWO_32
    && |f.iv| == c.ivLen && |f.icv| == c.digestLen
    && (if c.aead == AesGcm || c.cipher == AesCtr then f.iv[..8] == Be(sn, 8) else f.iv == Zeros(c.ivLen))
    && f.pad == PadLen(c, p) - 2
    && f.next == NextProto(c, p)
    && |f.front| == FrontLen(c, p) && |f.body| == |p| - Kept(c, p)
  }

  ghost predicate FrontMatches(c: Config, p: seq<byte>, front: seq<byte>, total: nat)
    requires WellConfigured(c) && Fitting(c, p)
    requires |front| == FrontLen(c, p)
  {
    match c.mode
    case Transport => front == Readdress(p[..Kept(c, p)], Ipip.IPPROTO_ESP, total)
    case Ip4Tunnel => front == Ipip.Outer(false, Ipip.DsEcn(p), total, c.src, c.dst, front[10..12])
    case Ip6Tunnel => front == Ipip.Outer(true, Ipip.DsEcn(p), total, c.src, c.dst, front[10..12])
    case NoMode => false
  }

  /** The packet passes the version, mode and size checks. */
  ghost predicate Acceptable(c: Config, p: seq<byte>)
    requires WellConfigured(c)
  {
    && Fitting(c, p) && Ipip.Version(p) in {4, 6}
    && c.mode != NoMode
    && FrontLen(c, p) + 8 + c.ivLen + PadPayload(c, p) + c.digestLen <= IP_MAXPACKET
  }

  /** The packet gets as far as taking a sequence number. */
  ghost predicate Encapsulable(c: Config, p: seq<byte>, tailRoom: nat)
    requires WellConfigured(c)
  {
    Acceptable(c, p) && PadLen(c, p) + c.digestLen <= tailRoom
  }

  /** Cipher and ICV ranges the sender asks for. */
  function OutOp(c: Config, hl: nat, padPayload: nat, total: nat, sn: nat, esp: seq<byte>): Op
    requires c.digestLen <= total
  {
    var block := CounterBlock(c.salt, Be(sn, 8));
    if c.aead == AesGcm then AeadOp(hl + 8 + c.ivLen, padPayload, block, esp, total - c.digestLen)
    else if c.cipher == AesCtr then
      Chain(hl + 8 + c.ivLen, padPayload, block, hl, 8 + c.ivLen + padPayload, total - c.digestLen)
    else
      Chain(hl + 8, padPayload + c.ivLen, block, hl, 8 + c.ivLen + padPayload, total - c.digestLen)
  }

  function OutOpFor(c: Config, p: seq<byte>, total: nat, sn: nat, esp: seq<byte>): Op
    requires WellConfigured(c) && Fitting(c, p) && c.digestLen <= total
  {
    OutOp(c, FrontLen(c, p), PadPayload(c, p), total, sn, esp)
  }

  /** Appending bytes behind a packet does not disturb what tunnelling does to its header. */
  lemma HopOfExtended(p: seq<byte>, tail: seq<byte>)
    requires Ipip.Headed(p)
    ensures Ipip.Headed(p + tail) && Ipip.DsEcn(p + tail) == Ipip.DsEcn(p)
    ensures Ipip.Hop(p + tail) == Ipip.Hop(p) + tail
  {
  }

  /** The tunnel branch: outer header, then a gap for ESP header and IV, then the stepped packet. */
  method AddTunnelFront(m: Mbuf, c: Config, ghost p: seq<byte>, ghost tail: seq<byte>)
    returns (hl: nat, ghost front: seq<byte>, ghost gap: seq<byte>)
    requires m.Valid() && WellConfigured(c) && Tunnel(c)
    requires Fitting(c, p) && m.Data() == p + tail && FrontLen(c, p) + 8 + c.ivLen <= m.off
    modifies m, m.buf
    ensures m.Valid() && hl == |front| == FrontLen(c, p) && |gap| == 8 + c.ivLen
    ensures m.len == hl + 8 + c.ivLen + |p| + |tail|
    ensures FrontMatches(c, p, front, m.len)
    ensures m.Data() == front + gap + (Ipip.Hop(p) + tail)
  {
    HopOfExtended(p, tail);
    var v6 := c.mode == Ip6Tunnel;
    hl := Ipip.OuterLen(v6);
    ghost var room := m.Room(hl + (8 + c.ivLen));
    Ipip.Outbound(m, 8 + c.ivLen, v6, c.src, c.dst);
    front := Ipip.Outer(v6, Ipip.DsEcn(p), m.len, c.src, c.dst, room[10..12]);
    gap := room[hl..];
    StaleOfOuter(v6, Ipip.DsEcn(p), m.len, c.src, c.dst, room[10..12]);
  }

  lemma StaleOfOuter(v6: bool, ds: byte, total: nat, src: seq<byte>, dst: seq<byte>, stale: seq<byte>)
    requires Ipip.AddressesFit(v6, src, dst) && |stale| == 2
    ensures var h := Ipip.Outer(v6, ds, total, src, dst, stale);
            h == Ipip.Outer(v6, ds, total, src, dst, h[10..12])
  {
    if !v6 {
      var h := Ipip.Outer(v6, ds, total, src, dst, stale);
      assert h[10..12] == stale;
    }
  }

  /** Write protocol and length into the header at the start of the packet. */
  method ReaddressInPlace(m: Mbuf, proto: byte, ghost h: seq<byte>, ghost rest: seq<byte>)
    requires m.Valid() && Ipip.WholeHeader(h) && |h| == Ipip.HeaderLen(h) && m.Data() == h + rest
    modifies m.buf
    ensures m.Data() == Readdress(h, proto, m.len) + rest
  {
    var b0 := m.Get(0);
    if b0 / 16 == 4 {
      PutFields(m, 9, proto, 2, Be(m.len, 2), h, rest);
    } else {
      PutFields(m, 6, proto, 4, Be(m.len - 40, 2), h, rest);
    }
  }

  method PutFields(m: Mbuf, protoAt: nat, proto: byte, lenAt: nat, l: seq<byte>, ghost h: seq<byte>,
                   ghost rest: seq<byte>)
    requires m.Valid() && protoAt < |h| && lenAt + 2 <= |h| && |l| == 2 && m.Data() == h + rest
    modifies m.buf
    ensures m.Data() == Fields(h, protoAt, proto, lenAt, l) + rest
  {
    m.Put(protoAt, proto);
    m.Put(lenAt, l[0]);
    m.Put(lenAt + 1, l[1]);
  }

  /** Make room in front and slide the header into it. */
  method SlideHeader(m: Mbuf, gap: nat, hl: nat)
    requires m.Valid() && gap <= m.off && hl <= m.len
    modifies m, m.buf
    ensures m.Valid() && m.len == old(m.len) + gap
    ensures var d := old(m.Room(gap)) + old(m.Data());
            m.Data() == old(m.Data())[..hl] + (d[hl..gap + hl] + old(m.Data())[hl..])
  {
    RoomThenPacket(m.Room(gap), m.Data(), hl);
    m.Prepend(gap);
    m.Move(0, gap, hl);
  }

  lemma RoomThenPacket(room: seq<byte>, p: seq<byte>, hl: nat)
    requires hl <= |p|
    ensures var d, gap := room + p, |room|;
            d[gap..gap + hl] == p[..hl] && Splice(d, 0, p[..hl]) == p[..hl] + (d[hl..gap + hl] + p[hl..])
  {
    var d, gap := room + p, |room|;
    assert d[gap + hl..] == p[hl..];
    assert d[hl..] == d[hl..gap + hl] + d[gap + hl..];
  }

  /** The transport branch: make room, move the header to the front, and readdress it. */
  method AddTransportFront(m: Mbuf, c: Config, ghost p: seq<byte>, ghost tail: seq<byte>)
    returns (hl: nat, ghost front: seq<byte>, ghost gap: seq<byte>)
    requires m.Valid() && WellConfigured(c) && c.mode == Transport
    requires Fitting(c, p) && m.Data() == p + tail && 8 + c.ivLen <= m.off
    modifies m, m.buf
    ensures m.Valid() && hl == |front| == FrontLen(c, p) && |gap| == 8 + c.ivLen
    ensures m.len == 8 + c.ivLen + |p| + |tail|
    ensures FrontMatches(c, p, front, m.len)
    ensures m.Data() == front + gap + (p[Kept(c, p)..] + tail)
  {
    var b0 := m.Get(0);
    hl := if b0 / 16 == 4 then 4 * (b0 % 16) else 40;
    var g := 8 + c.ivLen;
    gap := (m.Room(g) + m.Data())[hl..g + hl];
    SlideHeader(m, g, hl);
    HeadAndRest(p, tail, hl);
    ghost var rest := gap + (p[hl..] + tail);
    ReaddressInPlace(m, Ipip.IPPROTO_ESP, p[..hl], rest);
    front := Readdress(p[..hl], Ipip.IPPROTO_ESP, m.len);
    assert front + rest == front + gap + (p[hl..] + tail);
  }

  lemma HeadAndRest(p: seq<byte>, tail: seq<byte>, n: nat)
    requires n <= |p|
    ensures (p + tail)[..n] == p[..n] && (p + tail)[n..] == p[n..] + tail
  {
  }

  lemma PaddingGrow(i: nat)
    requires i < 255
    ensures Padding(i + 1) == Padding(i) + [i + 1]
  {
  }

  /** Default sequential padding. */
  method FillPadding(m: Mbuf, at: nat, n: nat)
    requires m.Valid() && n <= 63 && at + n <= m.len
    modifies m.buf
    ensures m.Data() == Splice(old(m.Data()), at, Padding(n))
  {
    ghost var d := m.Data();
    assert d == Splice(d, at, Padding(0));
    for i := 0 to n
      invariant m.Data() == Splice(d, at, Padding(i))
    {
      SpliceGrow(d, at, Padding(i), i + 1);
      PaddingGrow(i);
      m.Put(at + i, i + 1);
    }
  }

  /** Padding, pad length and next header, written at an offset. */
  method FillTrailer(m: Mbuf, at: nat, padLen: nat, next: byte)
    requires m.Valid() && 2 <= padLen <= 65 && at + padLen <= m.len
    modifies m.buf
    ensures m.Data() == Splice(old(m.Data()), at, Padding(padLen - 2) + [padLen - 2, next])
  {
    SpliceJoin(m.Data(), at, Padding(padLen - 2), [padLen - 2, next]);
    FillPadding(m, at, padLen - 2);
    m.Store(at + padLen - 2, [padLen - 2, next]);
  }

  /** The IV field: the sequence number for counter modes, zeros otherwise. */
  method WriteIv(m: Mbuf, c: Config, sn: nat, hl: nat, ghost front: seq<byte>, ghost gap: seq<byte>,
                 ghost rest: seq<byte>)
    returns (ghost iv: seq<byte>)
    requires m.Valid() && WellConfigured(c) && |front| == hl && |gap| == 8 + c.ivLen
    requires m.Data() == front + gap + rest
    modifies m.buf
    ensures |iv| == c.ivLen
    ensures if c.aead == AesGcm || c.cipher == AesCtr then iv[..8] == Be(sn, 8) else iv == Zeros(c.ivLen)
    ensures m.Data() == front + (gap[..8] + iv) + rest
  {
    var field := if c.aead == AesGcm || c.cipher == AesCtr then Be(sn, 8) else Zeros(c.ivLen);
    SpliceInside(front, gap, rest, 8, field);
    m.Store(hl + 8, field);
    iv := Splice(gap, 8, field)[8..];
    assert Splice(gap, 8, field) == gap[..8] + iv;
  }

  /** ESP header, IV field and trailer, written into a packet whose front is in place. */
  method WriteEsp(m: Mbuf, c: Config, sn: nat, hl: nat, padLen: nat, next: byte,
                  ghost front: seq<byte>, ghost gap: seq<byte>, ghost body: seq<byte>, ghost tail: seq<byte>)
    returns (ghost f: Frame)
    requires m.Valid() && WellConfigured(c) && |front| == hl && |gap| == 8 + c.ivLen
    requires 2 <= padLen <= 65 && |tail| == padLen + c.digestLen
    requires m.Data() == front + gap + (body + tail)
    modifies m.buf
    ensures f.front == front && f.spi == c.spi && f.sn == sn % TWO_32 && |f.iv| == c.ivLen && |f.icv| == c.digestLen
    ensures if c.aead == AesGcm || c.cipher == AesCtr then f.iv[..8] == Be(sn, 8) else f.iv == Zeros(c.ivLen)
    ensures f.body == body && f.pad == padLen - 2 && f.next == next
    ensures m.Data() == f.Bytes() && m.len == |f.Bytes()|
  {
    ghost var iv := WriteHeader(m, c, sn, hl, front, gap, body + tail);
    f := Frame(front, c.spi, sn % TWO_32, iv, body, padLen - 2, next, tail[padLen..]);
    ghost var esp := f.EspHdr() + iv;
    Reassociate(front, esp, body, tail);
    WriteTrailer(m, c.digestLen, padLen, next, front + esp + body, tail);
    FrameBytes(f);
  }

  lemma Reassociate(a: seq<byte>, b: seq<byte>, c: seq<byte>, d: seq<byte>)
    ensures a + b + (c + d) == a + b + c + d
  {
  }

  method WriteTrailer(m: Mbuf, digestLen: nat, padLen: nat, next: byte, ghost before: seq<byte>, ghost tail: seq<byte>)
    requires m.Valid() && 2 <= padLen <= 65 && |tail| == padLen + digestLen && m.Data() == before + tail
    modifies m.buf
    ensures m.Data() == before + (Padding(padLen - 2) + [padLen - 2, next]) + tail[padLen..]
  {
    TrailerPlace(before, tail, padLen, Padding(padLen - 2) + [padLen - 2, next]);
    FillTrailer(m, m.len - digestLen - padLen, padLen, next);
  }

  lemma FrameBytes(f: Frame)
    requires f.pad <= 255
    ensures f.Bytes() == f.front + (f.EspHdr() + f.iv) + f.body + (Padding(f.pad) + [f.pad, f.next]) + f.icv
  {
  }

  /** ESP header and IV field. */
  method WriteHeader(m: Mbuf, c: Config, sn: nat, hl: nat, ghost front: seq<byte>, ghost gap: seq<byte>,
                     ghost rest: seq<byte>)
    returns (ghost iv: seq<byte>)
    requires m.Valid() && WellConfigured(c) && |front| == hl && |gap| == 8 + c.ivLen
    requires m.Data() == front + gap + rest
    modifies m.buf
    ensures |iv| == c.ivLen
    ensures if c.aead == AesGcm || c.cipher == AesCtr then iv[..8] == Be(sn, 8) else iv == Zeros(c.ivLen)
    ensures m.Data() == front + (Be(c.spi, 4) + Be(sn % TWO_32, 4) + iv) + rest
  {
    var esp := Be(c.spi, 4) + Be(sn % TWO_32, 4);
    SpliceInside(front, gap, rest, 0, esp);
    m.Store(hl, esp);
    ghost var gap1 := Splice(gap, 0, esp);
    assert gap1[..8] == esp;
    iv := WriteIv(m, c, sn, hl, front, gap1, rest);
  }

  lemma TrailerPlace(before: seq<byte>, tail: seq<byte>, n: nat, x: seq<byte>)
    requires |x| == n <= |tail|
    ensures Splice(before + tail, |before|, x) == before + x + tail[n..]
  {
    assert before + tail == before + tail[..n] + tail[n..];
    SpliceMiddle(before, tail[..n], tail[n..], x);
  }

  /** ESP header, IV field and trailer around a body of n bytes at byte `at` of packet w (section 2 of RFC 4303). */
  ghost predicate EspBytes(c: Config, sn: nat, w: seq<byte>, at: nat, n: nat)
  {
    && at + 8 + c.ivLen + n + 2 + c.digestLen <= |w|
    && w[at..at + 4] == Be(c.spi, 4) && w[at + 4..at + 8] == Be(sn % TWO_32, 4)
    && IvBytes(c, sn, w[at + 8..at + 8 + c.ivLen])
    && TrailerBytes(c, w[at + 8 + c.ivLen + n..|w| - c.digestLen], n)
  }

  /** The IV field: the sequence number for counter modes, zeros otherwise. */
  ghost predicate IvBytes(c: Config, sn: nat, iv: seq<byte>)
  {
    if c.aead == AesGcm || c.cipher == AesCtr then |iv| >= 8 && iv[..8] == Be(sn, 8)
    else forall k :: 0 <= k < |iv| ==> iv[k] == 0
  }

  /** Padding 1, 2, 3, ... and its length, as short as the block size allows for n bytes and two more. */
  ghost predicate TrailerBytes(c: Config, t: seq<byte>, n: nat)
  {
    && |t| >= 2 && t[|t| - 2] == |t| - 2
    && |t| - 2 < c.blockSize && Blocks(n + |t|, c.blockSize)
    && forall k :: 0 <= k < |t| - 2 ==> t[k] == k + 1
  }

  /** The byte before the ICV names what is in the body (section 2.6 of RFC 4303). */
  ghost predicate NamesBody(c: Config, p: seq<byte>, w: seq<byte>)
    requires |p| >= 1
  {
    && |w| >= c.digestLen + 1
    && var next := w[|w| - c.digestLen - 1];
       if c.mode == Transport then
         && (p[0] / 16 == 4 ==> |p| >= 10 && next == p[9])
         && (p[0] / 16 == 6 ==> |p| >= 7 && next == p[6])
       else (p[0] / 16 == 4 ==> next == 4) && (p[0] / 16 == 6 ==> next == 41)
  }

  /** The header of a transport packet: protocol 50, the new length, and everything else as it was. */
  predicate TransportBytes(p: seq<byte>, h: seq<byte>, total: nat)
    requires |p| >= |h| >= 20
  {
    if p[0] / 16 == 4 then
      && h[9] == 50 && h[2..4] == Be(total, 2)
      && forall k :: 0 <= k < |h| && k != 2 && k != 3 && k != 9 ==> h[k] == p[k]
    else
      && h[6] == 50 && total >= 40 && h[4..6] == Be(total - 40, 2)
      && forall k :: 0 <= k < |h| && k != 4 && k != 5 && k != 6 ==> h[k] == p[k]
  }

  /** Header and body of the packet w that carries p: the header is `at` bytes long, and `kept` of them were p's own. */
  ghost predicate CarriesBytes(c: Config, p: seq<byte>, w: seq<byte>, at: nat, kept: nat)
    requires |p| >= 2
  {
    && kept <= |p| && at + 8 + c.ivLen + |p| - kept <= |w|
    && var body := w[at + 8 + c.ivLen..at + 8 + c.ivLen + |p| - kept];
       match c.mode
       case Transport => 20 <= at == kept && TransportBytes(p, w[..at], |w|) && body == p[kept..]
       case Ip4Tunnel =>
         at == 20 && kept == 0 && Ipip.OuterBytes(false, p, c.src, c.dst, w[..at], |w|)
         && Ipip.Headed(p) && Ipip.HoppedBytes(p, body)
       case Ip6Tunnel =>
         at == 40 && kept == 0 && Ipip.OuterBytes(true, p, c.src, c.dst, w[..at], |w|)
         && Ipip.Headed(p) && Ipip.HoppedBytes(p, body)
       case NoMode => false
  }

  /**
   * What the device is asked for, in the bytes of w behind an ESP header at `at`: to encipher from the IV field, or
   * what follows it, up to the ICV, and to authenticate from the ESP header up to the ICV. The lengths are exact as
   * long as they fit in 16 bits.
   */
  ghost predicate OpBytes(c: Config, w: seq<byte>, at: nat, op: Op)
  {
    && at + 8 + c.ivLen + c.digestLen <= |w|
    && var end, counter := |w| - c.digestLen, c.aead == AesGcm || c.cipher == AesCtr;
       && op.digestOff == end && op.AeadOp? == (c.aead == AesGcm)
       && op.off == (if counter then at + 8 + c.ivLen else at + 8)
       && (counter ==> c.ivLen >= 8 && op.iv == c.salt + w[at + 8..at + 16] + [0, 0, 0, 1])
       && (end < 0x10000 ==> op.off + op.len == end)
       && match op
          case AeadOp(_, _, _, aad, _) => aad == w[at..at + 8]
          case Chain(_, _, _, authOff, authLen, _) => authOff == at && (end < 0x10000 ==> authOff + authLen == end)
  }

  /** The packet w and the device operation a packet p becomes, in bytes. */
  ghost predicate OnTheWire(c: Config, p: seq<byte>, sn: nat, w: seq<byte>, op: Op)
    requires |p| >= 2
  {
    var kept := if c.mode != Transport then 0 else if p[0] / 16 == 4 then 4 * (p[0] % 16) else 40;
    var at := match c.mode case Ip4Tunnel => 20 case Ip6Tunnel => 40 case _ => kept;
    && CarriesBytes(c, p, w, at, kept) && EspBytes(c, sn, w, at, |p| - kept)
    && NamesBody(c, p, w) && OpBytes(c, w, at, op)
  }

  /** The parts of a frame, at their places in w. */
  ghost predicate Laid(f: Frame, w: seq<byte>)
  {
    var at := |f.front|;
    var body := at + 8 + |f.iv|;
    && f.pad <= 255 && |w| == body + |f.body| + f.pad + 2 + |f.icv|
    && w[..at] == f.front && w[at..at + 8] == f.EspHdr()
    && w[at + 8..body] == f.iv && w[body..body + |f.body|] == f.body
    && w[body + |f.body|..|w| - |f.icv|] == Padding(f.pad) + [f.pad, f.next]
  }

  lemma FrameLaid(f: Frame, w: seq<byte>)
    requires f.pad <= 255 && w == f.Bytes()
    ensures Laid(f, w)
  {
    FrameBytes(f);
    Six(f.front, f.EspHdr(), f.iv, f.body, Padding(f.pad) + [f.pad, f.next], f.icv);
  }

  lemma Six(a: seq<byte>, b: seq<byte>, c: seq<byte>, d: seq<byte>, e: seq<byte>, g: seq<byte>)
    ensures var w := a + (b + c) + d + e + g;
            && w[..|a|] == a && w[|a|..|a| + |b|] == b && w[|a| + |b|..|a| + |b| + |c|] == c
            && w[|a| + |b| + |c|..|a| + |b| + |c| + |d|] == d
            && w[|a| + |b| + |c| + |d|..|a| + |b| + |c| + |d| + |e|] == e
  {
  }

  lemma EspInBytes(c: Config, sn: nat, f: Frame, w: seq<byte>)
    requires Laid(f, w) && f.spi == c.spi && f.sn == sn % TWO_32 && |f.iv| == c.ivLen && |f.icv| == c.digestLen
    requires IvBytes(c, sn, f.iv) && TrailerBytes(c, Padding(f.pad) + [f.pad, f.next], |f.body|)
    ensures EspBytes(c, sn, w, |f.front|, |f.body|)
  {
    var at := |f.front|;
    assert w[at..at + 4] == w[at..at + 8][..4] == Be(f.spi, 4);
    assert w[at + 4..at + 8] == w[at..at + 8][4..] == Be(f.sn, 4);
  }

  lemma LastOfFrame(f: Frame, w: seq<byte>)
    requires Laid(f, w)
    ensures w[|w| - |f.icv| - 1] == f.next
  {
    var t := w[|f.front| + 8 + |f.iv| + |f.body|..|w| - |f.icv|];
    assert w[|w| - |f.icv| - 1] == t[|t| - 1];
  }

  lemma TrailerInBytes(c: Config, p: seq<byte>, pad: byte, next: byte)
    requires WellConfigured(c) && Fitting(c, p) && pad == PadLen(c, p) - 2
    ensures TrailerBytes(c, Padding(pad) + [pad, next], |p| - Kept(c, p))
  {
  }

  lemma IvInBytes(c: Config, sn: nat, iv: seq<byte>)
    requires if c.aead == AesGcm || c.cipher == AesCtr then |iv| >= 8 && iv[..8] == Be(sn, 8) else iv == Zeros(c.ivLen)
    ensures IvBytes(c, sn, iv)
  {
  }

  lemma TransportInBytes(c: Config, p: seq<byte>, f: Frame, w: seq<byte>)
    requires c.mode == Transport && Ipip.WholeHeader(p) && Laid(f, w) && |f.iv| == c.ivLen
    requires f.front == Readdress(p[..Ipip.HeaderLen(p)], Ipip.IPPROTO_ESP, |w|) && f.body == p[Ipip.HeaderLen(p)..]
    ensures CarriesBytes(c, p, w, |f.front|, |f.front|)
  {
    ReaddressedInBytes(p, |f.front|, |w|);
  }

  lemma TunnelInBytes(c: Config, v6: bool, p: seq<byte>, f: Frame, w: seq<byte>, stale: seq<byte>)
    requires c.mode == if v6 then Ip6Tunnel else Ip4Tunnel
    requires Ipip.Headed(p) && Laid(f, w) && |f.iv| == c.ivLen && Ipip.AddressesFit(v6, c.src, c.dst) && |stale| == 2
    requires f.front == Ipip.Outer(v6, Ipip.DsEcn(p), |w|, c.src, c.dst, stale) && f.body == Ipip.Hop(p)
    ensures CarriesBytes(c, p, w, |f.front|, 0)
  {
    Ipip.OuterInBytes(v6, p, |w|, c.src, c.dst, stale);
    Ipip.HopInBytes(p);
  }

  lemma CarriedInBytes(c: Config, p: seq<byte>, sn: nat, f: Frame, w: seq<byte>)
    requires WellConfigured(c) && Acceptable(c, p) && Encapsulates(c, p, sn, f) && w == f.Bytes()
    ensures CarriesBytes(c, p, w, FrontLen(c, p), Kept(c, p))
  {
    FrameLaid(f, w);
    if c.mode == Transport {
      TransportInBytes(c, p, f, w);
    } else {
      TunnelInBytes(c, c.mode == Ip6Tunnel, p, f, w, f.front[10..12]);
    }
  }

  lemma ReaddressedInBytes(p: seq<byte>, n: nat, total: nat)
    requires Ipip.WholeHeader(p) && n == Ipip.HeaderLen(p) && n <= total
    ensures TransportBytes(p, Readdress(p[..n], Ipip.IPPROTO_ESP, total), total)
  {
    var h := Readdress(p[..n], Ipip.IPPROTO_ESP, total);
    if p[0] / 16 == 4 {
      assert h[2..4] == Be(total, 2);
    } else {
      assert h[4..6] == Be(total - 40, 2);
    }
  }

  lemma OpInBytes(c: Config, f: Frame, w: seq<byte>, padPayload: nat, sn: nat)
    requires WellConfigured(c) && Laid(f, w) && |f.iv| == c.ivLen && |f.icv| == c.digestLen
    requires padPayload == Cut16(|f.body| + f.pad + 2)
    requires c.aead == AesGcm || c.cipher == AesCtr ==> f.iv[..8] == Be(sn, 8)
    ensures OpBytes(c, w, |f.front|, OutOp(c, |f.front|, padPayload, |w|, sn, f.EspHdr()))
  {
    var at := |f.front|;
    if c.aead == AesGcm || c.cipher == AesCtr {
      assert w[at + 8..at + 16] == w[at + 8..at + 8 + c.ivLen][..8] == Be(sn, 8);
    }
    assert Be(1, 4) == [0, 0, 0, 1];
  }

  lemma FieldsPart(c: Config, p: seq<byte>, sn: nat, f: Frame)
    requires WellConfigured(c) && Acceptable(c, p) && HasFields(c, p, sn, f)
    ensures f.spi == c.spi && f.sn == sn % TWO_32 && |f.iv| == c.ivLen && |f.icv| == c.digestLen && f.pad <= 63
    ensures |f.front| == FrontLen(c, p) && |f.body| == |p| - Kept(c, p)
    ensures IvBytes(c, sn, f.iv) && TrailerBytes(c, Padding(f.pad) + [f.pad, f.next], |f.body|)
  {
    IvInBytes(c, sn, f.iv);
    TrailerInBytes(c, p, f.pad, f.next);
  }

  lemma EspPart(c: Config, p: seq<byte>, sn: nat, f: Frame, w: seq<byte>)
    requires WellConfigured(c) && Acceptable(c, p) && HasFields(c, p, sn, f) && w == f.Bytes()
    ensures EspBytes(c, sn, w, FrontLen(c, p), |p| - Kept(c, p))
  {
    FieldsPart(c, p, sn, f);
    FrameLaid(f, w);
    EspInBytes(c, sn, f, w);
  }

  lemma NamePart(c: Config, p: seq<byte>, sn: nat, f: Frame, w: seq<byte>)
    requires WellConfigured(c) && Acceptable(c, p) && HasFields(c, p, sn, f) && w == f.Bytes()
    ensures NamesBody(c, p, w)
  {
    FrameLaid(f, w);
    LastOfFrame(f, w);
  }

  lemma OpPart(c: Config, p: seq<byte>, sn: nat, f: Frame, w: seq<byte>)
    requires WellConfigured(c) && Acceptable(c, p) && HasFields(c, p, sn, f) && w == f.Bytes()
    ensures c.digestLen <= |w| && OpBytes(c, w, FrontLen(c, p), OutOpFor(c, p, |w|, sn, f.EspHdr()))
  {
    FrameLaid(f, w);
    OpInBytes(c, f, w, PadPayload(c, p), sn);
  }

  lemma Assembled(c: Config, p: seq<byte>, sn: nat, w: seq<byte>, op: Op)
    requires WellConfigured(c) && Fitting(c, p) && |p| >= 2 && c.mode != NoMode
    requires CarriesBytes(c, p, w, FrontLen(c, p), Kept(c, p)) && EspBytes(c, sn, w, FrontLen(c, p), |p| - Kept(c, p))
    requires NamesBody(c, p, w) && OpBytes(c, w, FrontLen(c, p), op)
    ensures OnTheWire(c, p, sn, w, op)
  {
  }

  /** All of it, for what a successful esp_outbound leaves. */
  lemma FrameOnTheWire(c: Config, p: seq<byte>, sn: nat, f: Frame, w: seq<byte>)
    requires WellConfigured(c) && Acceptable(c, p) && Encapsulates(c, p, sn, f) && w == f.Bytes()
    ensures c.digestLen <= |w| && |p| >= 2 && OnTheWire(c, p, sn, w, OutOpFor(c, p, |w|, sn, f.EspHdr()))
  {
    EspPart(c, p, sn, f, w);
    NamePart(c, p, sn, f, w);
    CarriedInBytes(c, p, sn, f, w);
    OpPart(c, p, sn, f, w);
    Assembled(c, p, sn, w, OutOpFor(c, p, |w|, sn, f.EspHdr()));
  }

  function HeadNeed(c: Config): nat
  {
    (match c.mode case Ip4Tunnel => 20 case Ip6Tunnel => 40 case _ => 0) + 8 + c.ivLen
  }

  /** The checks and length computations at the head of esp_outbound. */
  method Plan(m: Mbuf, c: Config) returns (rc: int, hl: nat, padPayload: nat, padLen: nat, next: byte)
    requires m.Valid() && WellConfigured(c) && m.len >= 1
    requires Ipip.Version(m.Data()) in {4, 6} ==> Fitting(c, m.Data())
    ensures rc == (if Acceptable(c, m.Data()) then 0 else -EINVAL)
    ensures rc == 0 ==> hl == FrontLen(c, m.Data()) && padPayload == PadPayload(c, m.Data())
    ensures rc == 0 ==> padLen == PadLen(c, m.Data()) && next == NextProto(c, m.Data())
    ensures rc == 0 && c.mode == Transport ==> next == m.Data()[if m.Data()[0] / 16 == 4 then 9 else 6]
    ensures rc == 0 && c.mode != Transport ==> next == if m.Data()[0] / 16 == 4 then 4 else 41
  {
    hl, padPayload, padLen, next := 0, 0, 0, 0;
    var b0 := m.Get(0);
    if b0 / 16 == 4 {
      if c.mode == Transport {
        hl, next := 4 * (b0 % 16), m.Get(9);
      } else {
        next := 4;
      }
    } else if b0 / 16 == 6 {
      if c.mode == Transport {
        hl, next := 40, m.Get(6);
      } else {
        next := 41;
      }
    } else {
      rc := -EINVAL;
      return;
    }
    assert hl == Kept(c, m.Data());
    padPayload := Cut16(AlignCeil(m.len - hl + 2, c.blockSize));
    padLen := (padPayload - (m.len - hl)) % 0x10000;
    PadLenIn16Bits(TruePadded(c, m.Data()), m.len - hl);
    if c.mode == Ip4Tunnel {
      hl := 20;
    } else if c.mode == Ip6Tunnel {
      hl := 40;
    } else if c.mode != Transport {
      rc := -EINVAL;
      return;
    }
    rc := if hl + 8 + c.ivLen + padPayload + c.digestLen > IP_MAXPACKET then -EINVAL else 0;
  }

  /** The part of esp_outbound that rewrites the packet. */
  method Wrap(m: Mbuf, c: Config, sn: nat, padPayload: nat, padLen: nat, next: byte, ghost p: seq<byte>,
              ghost tail: seq<byte>)
    returns (op: Op, ghost f: Frame)
    requires m.Valid() && WellConfigured(c) && Acceptable(c, p) && HeadNeed(c) <= m.off
    requires padPayload == PadPayload(c, p) && padLen == PadLen(c, p) && next == NextProto(c, p)
    requires |tail| == padLen + c.digestLen && m.Data() == p + tail
    modifies m, m.buf
    ensures m.Valid() && Encapsulates(c, p, sn, f) && m.Data() == f.Bytes()
    ensures c.digestLen <= m.len && op == OutOpFor(c, p, m.len, sn, f.EspHdr())
  {
    var hl;
    ghost var front, gap, body;
    if c.mode == Transport {
      hl, front, gap := AddTransportFront(m, c, p, tail);
      body := p[Kept(c, p)..];
    } else {
      hl, front, gap := AddTunnelFront(m, c, p, tail);
      body := Ipip.Hop(p);
    }
    f := WriteEsp(m, c, sn, hl, padLen, next, front, gap, body, tail);
    op := OutOp(c, hl, padPayload, m.len, sn, Be(c.spi, 4) + Be(sn % TWO_32, 4));
  }

  /** Trailer room, sequence number, and the rewriting itself. */
  method Encapsulate(m: Mbuf, sa: Sa, padPayload: nat, padLen: nat, next: byte)
    returns (fits: bool, op: Option<Op>, ghost f: Frame)
    requires m.Valid() && sa.Valid() && Acceptable(sa.cfg, m.Data()) && HeadNeed(sa.cfg) <= m.off
    requires padPayload == PadPayload(sa.cfg, m.Data()) && padLen == PadLen(sa.cfg, m.Data())
    requires next == NextProto(sa.cfg, m.Data())
    modifies m, m.buf, sa
    ensures m.Valid() && sa.Valid()
    ensures fits == Encapsulable(sa.cfg, old(m.Data()), old(m.buf.Length - m.off - m.len))
    ensures sa.seq_ == if fits then NextSeq(old(sa.seq_)) else old(sa.seq_)
    ensures !fits ==> m.Data() == old(m.Data())
    ensures fits ==> Encapsulates(sa.cfg, old(m.Data()), sa.seq_, f) && m.Data() == f.Bytes()
    ensures fits ==>
              sa.cfg.digestLen <= m.len && op == Some(OutOpFor(sa.cfg, old(m.Data()), m.len, sa.seq_, f.EspHdr()))
  {
    f, op := Frame([], 0, 0, [], [], 0, 0, []), None;
    ghost var p, room := m.Data(), m.buf.Length - m.off - m.len;
    ghost var tail := m.Slack(if padLen + sa.cfg.digestLen <= room then padLen + sa.cfg.digestLen else 0);
    fits := m.Append(padLen + sa.cfg.digestLen);
    if fits {
      sa.seq_ := NextSeq(sa.seq_);
      var made;
      made, f := Wrap(m, sa.cfg, sa.seq_, padPayload, padLen, next, p, tail);
      op := Some(made);
    }
  }

  /** esp_outbound for a look-aside session. */
  method Outbound(m: Mbuf, sa: Sa) returns (rc: int, op: Option<Op>, ghost f: Frame)
    requires m.Valid() && sa.Valid() && m.len >= 1
    requires Ipip.Version(m.Data()) in {4, 6} ==> Fitting(sa.cfg, m.Data())
    requires HeadNeed(sa.cfg) <= m.off
    modifies m, m.buf, sa
    ensures m.Valid() && sa.Valid()
    ensures rc == if !Acceptable(sa.cfg, old(m.Data())) then -EINVAL
                  else if !Encapsulable(sa.cfg, old(m.Data()), old(m.buf.Length - m.off - m.len)) then -ENOSPC
                  else if !Supported(sa.cfg) then -EINVAL else 0
    ensures sa.seq_ == if Encapsulable(sa.cfg, old(m.Data()), old(m.buf.Length - m.off - m.len))
                       then NextSeq(old(sa.seq_)) else old(sa.seq_)
    ensures rc == -ENOSPC ==> m.Data() == old(m.Data())
    ensures !Acceptable(sa.cfg, old(m.Data())) ==> m.Data() == old(m.Data())
    ensures rc == 0 ==> Encapsulates(sa.cfg, old(m.Data()), sa.seq_, f) && m.Data() == f.Bytes()
    ensures rc == 0 ==>
              sa.cfg.digestLen <= m.len && op == Some(OutOpFor(sa.cfg, old(m.Data()), m.len, sa.seq_, f.EspHdr()))
    ensures rc == 0 ==>
              op.Some? && |old(m.Data())| >= 2 && OnTheWire(sa.cfg, old(m.Data()), sa.seq_, m.Data(), op.value)
  {
    f, op := Frame([], 0, 0, [], [], 0, 0, []), None;
    ghost var p := m.Data();
    var hl, padPayload, padLen, next, fits;
    rc, hl, padPayload, padLen, next := Plan(m, sa.cfg);
    if rc != 0 {
      return;
    }
    fits, op, f := Encapsulate(m, sa, padPayload, padLen, next);
    if !fits {
      rc := -ENOSPC;
      return;
    }
    FrameOnTheWire(sa.cfg, p, sa.seq_, f, m.Data());
    if sa.cfg.aead != AesGcm && (sa.cfg.cipher == OtherCipher || sa.cfg.auth == OtherAuth) {
      rc := -EINVAL;
    }
  }

  /** payload_len of a received packet; negative when the packet is shorter than its fixed parts. */
  function Payload(c: Config, w: seq<byte>): int
    requires |w| >= 1
  {
    |w| - Ipip.HeaderLen(w) - 8 - c.ivLen - c.digestLen
  }

  /** The length and version checks of esp_inbound. */
  predicate Receivable(c: Config, w: seq<byte>)
    requires WellConfigured(c) && |w| >= 1
  {
    Ipip.Version(w) in {4, 6} && Payload(c, w) > 0 && Blocks(Payload(c, w), c.blockSize)
  }

  /** Cipher and ICV ranges the receiver asks for. */
  function InOp(c: Config, w: seq<byte>): Op
    requires WellConfigured(c) && |w| >= 1 && Receivable(c, w)
  {
    InOpAt(c, w, Ipip.HeaderLen(w), Payload(c, w))
  }

  function InOpAt(c: Config, w: seq<byte>, hl: nat, n: nat): Op
    requires WellConfigured(c) && |w| == hl + 8 + c.ivLen + n + c.digestLen
  {
    if c.aead == AesGcm then
      AeadOp(hl + 8 + c.ivLen, n, CounterBlock(c.salt, w[hl + 8..hl + 16]), w[hl..hl + 8], |w| - c.digestLen)
    else
      var iv := if c.cipher == AesCtr then CounterBlock(c.salt, w[hl + 8..hl + 16]) else w[hl + 8..hl + 8 + c.ivLen];
      Chain(hl + 8 + c.ivLen, n, iv, hl, 8 + c.ivLen + n, |w| - c.digestLen)
  }

  /** esp_inbound for a look-aside session. */
  method Inbound(m: Mbuf, c: Config) returns (rc: int, op: Option<Op>)
    requires m.Valid() && WellConfigured(c) && m.len >= 1
    ensures rc == if Receivable(c, m.Data()) && Supported(c) then 0 else -EINVAL
    ensures rc == 0 ==> op == Some(InOp(c, m.Data()))
  {
    op := None;
    var hl, n;
    rc, hl, n := Measure(m, c);
    if rc == 0 {
      if c.aead != AesGcm && (c.cipher == OtherCipher || c.auth == OtherAuth) {
        rc := -EINVAL;
      } else {
        var made := MakeInOp(m, c, hl, n);
        op := Some(made);
      }
    }
  }

  method Measure(m: Mbuf, c: Config) returns (rc: int, hl: nat, n: int)
    requires m.Valid() && WellConfigured(c) && m.len >= 1
    ensures rc == if Receivable(c, m.Data()) then 0 else -EINVAL
    ensures rc == 0 ==> hl == Ipip.HeaderLen(m.Data()) && n == Payload(c, m.Data())
  {
    hl, n := 0, 0;
    var b0 := m.Get(0);
    if b0 / 16 == 4 {
      hl := 4 * (b0 % 16);
    } else if b0 / 16 == 6 {
      hl := 40;
    } else {
      return -EINVAL, hl, n;
    }
    n := m.len - hl - 8 - c.ivLen - c.digestLen;
    if n > 0 {
      BlocksIffMultiple(n, c.blockSize);
    }
    rc := if n <= 0 || n % c.blockSize != 0 then -EINVAL else 0;
  }

  method MakeInOp(m: Mbuf, c: Config, hl: nat, n: nat) returns (op: Op)
    requires m.Valid() && WellConfigured(c) && m.len == hl + 8 + c.ivLen + n + c.digestLen
    ensures op == InOpAt(c, m.Data(), hl, n)
  {
    if c.aead == AesGcm {
      op := MakeAeadOp(m, c, hl, n);
    } else {
      op := MakeChain(m, c, hl, n);
    }
  }

  method MakeAeadOp(m: Mbuf, c: Config, hl: nat, n: nat) returns (op: Op)
    requires m.Valid() && WellConfigured(c) && m.len == hl + 8 + c.ivLen + n + c.digestLen && c.aead == AesGcm
    ensures op == InOpAt(c, m.Data(), hl, n)
  {
    var iv := m.Slice(hl + 8, hl + 16);
    var esp := m.Slice(hl, hl + 8);
    op := AeadOp(hl + 8 + c.ivLen, n, CounterBlock(c.salt, iv), esp, m.len - c.digestLen);
  }

  method MakeChain(m: Mbuf, c: Config, hl: nat, n: nat) returns (op: Op)
    requires m.Valid() && WellConfigured(c) && m.len == hl + 8 + c.ivLen + n + c.digestLen && c.aead != AesGcm
    ensures op == InOpAt(c, m.Data(), hl, n)
  {
    var iv := m.Slice(hl + 8, hl + 8 + (if c.cipher == AesCtr then 8 else c.ivLen));
    iv := if c.cipher == AesCtr then CounterBlock(c.salt, iv) else iv;
    op := Chain(hl + 8 + c.ivLen, n, iv, hl, 8 + c.ivLen + n, m.len - c.digestLen);
  }

  /** The packet left after ESP is stripped, for a packet d already trimmed of trailer and ICV. */
  function Unwrapped(c: Config, d: seq<byte>, next: byte): seq<byte>
    requires Unwrappable(c, d)
  {
    if c.mode == Transport then
      var hl := Ipip.HeaderLen(d);
      Readdress(d[..hl], next, |d| - 8 - c.ivLen) + d[hl + 8 + c.ivLen..]
    else
      var skip := Ipip.OuterLen(Ipip.Version(d) != 4) + 8 + c.ivLen;
      Ipip.Arrive(Ipip.CarriesCe(d), d[skip..])
  }

  /** The headers the decapsulation code takes for granted are inside the packet. */
  predicate Unwrappable(c: Config, d: seq<byte>)
  {
    && |d| >= 2
    && if c.mode == Transport then Ipip.WholeHeader(d) && Ipip.HeaderLen(d) + 8 + c.ivLen <= |d|
       else
         var skip := Ipip.OuterLen(Ipip.Version(d) != 4) + 8 + c.ivLen;
         skip <= |d| && Ipip.Headed(d[skip..])
  }

  /** The bytes in front of the pad-length field count 1, 2, 3, ... up to it. */
  predicate SequentialPad(d: seq<byte>, at: nat)
    requires at < |d|
  {
    d[at] <= at && forall k :: at - d[at] <= k < at ==> d[k] == k - (at - d[at]) + 1
  }

  /** The padding loop. A pad length too big for the packet makes it read on in front of the packet. */
  method CheckPadding(m: Mbuf, at: nat) returns (good: bool)
    requires m.Valid() && at < m.len && m.Data()[at] <= m.off + at
    ensures m.Data()[at] <= at ==> good == SequentialPad(m.Data(), at)
  {
    var n := m.Get(at);
    var start := m.off + at - n;
    for i := 0 to n
      invariant forall k :: start <= k < start + i ==> m.buf[k] == k - start + 1
    {
      if m.buf[start + i] != i + 1 {
        assert n <= at ==> m.Data()[at - n + i] != i + 1;
        return false;
      }
    }
    if n <= at {
      forall k | at - n <= k < at ensures m.Data()[k] == k - (at - n) + 1 {
        assert m.Data()[k] == m.buf[m.off + k];
      }
    }
    return true;
  }

  /** Transport mode: close the gap the ESP header leaves, then restore protocol and length. */
  method UnwrapTransport(m: Mbuf, c: Config, next: byte)
    requires m.Valid() && c.mode == Transport && Unwrappable(c, m.Data())
    modifies m, m.buf
    ensures m.Valid() && m.Data() == Unwrapped(c, old(m.Data()), next)
  {
    ghost var d := m.Data();
    var b0 := m.Get(0);
    var hl := if b0 / 16 == 4 then 4 * (b0 % 16) else 40;
    ClosedUp(c, d, hl, next);
    CloseAndReaddress(m, 8 + c.ivLen, hl, next);
  }

  method CloseAndReaddress(m: Mbuf, gap: nat, hl: nat, next: byte)
    requires m.Valid() && gap + hl <= m.len
    requires Ipip.WholeHeader(m.Data()[..hl]) && Ipip.HeaderLen(m.Data()[..hl]) == hl
    modifies m, m.buf
    ensures m.Valid() && m.Data() == Readdress(old(m.Data())[..hl], next, old(m.len) - gap) + old(m.Data())[gap + hl..]
  {
    ghost var d := m.Data();
    CloseGap(m, gap, hl);
    ReaddressInPlace(m, next, d[..hl], d[gap + hl..]);
  }

  lemma ClosedUp(c: Config, d: seq<byte>, hl: nat, next: byte)
    requires c.mode == Transport && Unwrappable(c, d) && hl == Ipip.HeaderLen(d)
    ensures hl + 8 + c.ivLen <= |d| && Ipip.WholeHeader(d[..hl]) && Ipip.HeaderLen(d[..hl]) == |d[..hl]| == hl
    ensures Unwrapped(c, d, next) == Readdress(d[..hl], next, |d| - (8 + c.ivLen)) + d[8 + c.ivLen + hl..]
  {
  }

  method CloseGap(m: Mbuf, gap: nat, hl: nat)
    requires m.Valid() && gap + hl <= m.len
    modifies m, m.buf
    ensures m.Valid() && m.len == old(m.len) - gap
    ensures m.Data() == old(m.Data())[..hl] + old(m.Data())[gap + hl..]
  {
    ClosedGap(m.Data(), gap, hl);
    m.Move(gap, 0, hl);
    m.Adj(gap);
  }

  lemma ClosedGap(d: seq<byte>, gap: nat, hl: nat)
    requires gap + hl <= |d|
    ensures Splice(d, gap, d[..hl])[gap..] == d[..hl] + d[gap + hl..]
  {
  }

  method UnwrapTunnel(m: Mbuf, c: Config)
    requires m.Valid() && c.mode != Transport && Unwrappable(c, m.Data())
    modifies m, m.buf
    ensures m.Valid() && m.Data() == Unwrapped(c, old(m.Data()), 0)
  {
    ghost var d := m.Data();
    ghost var skip := Ipip.OuterLen(Ipip.Version(d) != 4) + 8 + c.ivLen;
    assert d == d[..skip] + d[skip..];
    Ipip.Inbound(m, 8 + c.ivLen, d[..skip], d[skip..]);
  }

  /** Position of the pad-length byte. */
  function PadAt(c: Config, d: seq<byte>): nat
    requires |d| >= c.digestLen + 2
  {
    |d| - c.digestLen - 2
  }

  /** The packet without padding, trailer and ICV. */
  function Stripped(c: Config, d: seq<byte>): seq<byte>
    requires |d| >= c.digestLen + 2 && d[PadAt(c, d)] <= PadAt(c, d)
  {
    d[..PadAt(c, d) - d[PadAt(c, d)]]
  }

  /** The bytes esp_inbound_post reads and skips are inside the packet. */
  predicate Strippable(c: Config, d: seq<byte>)
  {
    && |d| >= c.digestLen + 2
    && d[PadAt(c, d)] <= PadAt(c, d)
    && Unwrappable(c, Stripped(c, d))
  }

  /** The packet esp_inbound_post hands on. */
  function Delivered(c: Config, d: seq<byte>): seq<byte>
    requires Strippable(c, d)
  {
    Unwrapped(c, Stripped(c, d), if c.mode == Transport then d[PadAt(c, d) + 1] else 0)
  }

  lemma DeliveredFrom(c: Config, e: seq<byte>, s: seq<byte>, next: byte, r: seq<byte>)
    requires |e| >= c.digestLen + 2 && e[PadAt(c, e)] <= PadAt(c, e) && e[PadAt(c, e) + 1] == next
    requires Stripped(c, e) == s && Unwrappable(c, s) && Unwrapped(c, s, if c.mode == Transport then next else 0) == r
    ensures Strippable(c, e) && Delivered(c, e) == r
  {
  }

  /** Trailer and padding check out, and lie inside the packet. */
  predicate GoodTrailer(c: Config, d: seq<byte>)
  {
    |d| >= c.digestLen + 2 && SequentialPad(d, PadAt(c, d))
  }

  /** What is read lies inside the mbuf: `off` bytes of it are in front of the packet. */
  predicate Readable(c: Config, d: seq<byte>, off: nat)
  {
    && |d| >= c.digestLen + 2
    && d[PadAt(c, d)] <= off + PadAt(c, d)
    && (GoodTrailer(c, d) ==> Unwrappable(c, Stripped(c, d)))
  }

  /** Cut trailer and ICV off, if the packet is long enough, and unwrap. */
  method StripAndUnwrap(m: Mbuf, c: Config) returns (cut: bool)
    requires m.Valid() && WellConfigured(c) && m.len >= c.digestLen + 2
    requires m.Data()[PadAt(c, m.Data())] <= PadAt(c, m.Data()) ==> Strippable(c, m.Data())
    modifies m, m.buf
    ensures m.Valid() && cut == (old(m.Data())[PadAt(c, old(m.Data()))] <= PadAt(c, old(m.Data())))
    ensures m.Data() == if cut then Delivered(c, old(m.Data())) else old(m.Data())
  {
    ghost var d := m.Data();
    var next;
    cut, next := Strip(m, c);
    if cut {
      ghost var s := m.Data();
      Unwrap(m, c, next);
      DeliveredFrom(c, d, s, next, m.Data());
    }
  }

  method Strip(m: Mbuf, c: Config) returns (cut: bool, next: byte)
    requires m.Valid() && m.len >= c.digestLen + 2
    modifies m
    ensures m.Valid() && cut == (old(m.Data())[PadAt(c, old(m.Data()))] <= PadAt(c, old(m.Data())))
    ensures m.Data() == (if cut then Stripped(c, old(m.Data())) else old(m.Data()))
    ensures next == old(m.Data())[PadAt(c, old(m.Data())) + 1]
  {
    var at := m.len - c.digestLen - 2;
    var pad;
    next, pad := m.Get(at + 1), m.Get(at);
    cut := m.Trim(pad + 2 + c.digestLen);
  }

  method Unwrap(m: Mbuf, c: Config, next: byte)
    requires m.Valid() && WellConfigured(c) && Unwrappable(c, m.Data())
    modifies m, m.buf
    ensures m.Valid() && m.Data() == Unwrapped(c, old(m.Data()), if c.mode == Transport then next else 0)
  {
    if c.mode == Transport {
      UnwrapTransport(m, c, next);
    } else {
      UnwrapTunnel(m, c);
    }
  }

  /**
   * esp_inbound_post for a look-aside session; `ok` is the status the crypto device reported. A pad length that is not
   * the packet's own fails at the padding loop or, at the latest, when trailer and padding are cut off.
   */
  method InboundPost(m: Mbuf, c: Config, ok: bool) returns (rc: int)
    requires m.Valid() && WellConfigured(c) && (ok ==> Readable(c, m.Data(), m.off))
    modifies m, m.buf
    ensures m.Valid()
    ensures rc == if !ok then -1 else if GoodTrailer(c, old(m.Data())) then 0 else -EINVAL
    ensures m.Data() == if rc == 0 then Delivered(c, old(m.Data())) else old(m.Data())
  {
    if !ok {
      return -1;
    }
    var good := CheckPadding(m, m.len - c.digestLen - 2);
    if !good {
      return -EINVAL;
    }
    var cut := StripAndUnwrap(m, c);
    return if cut then 0 else -EINVAL;
  }
}
