/** IP-in-IP encapsulation and decapsulation (ipip.h). */
module Ipip {
  import opened Bytes
  import opened Checksum
  import opened PacketBuffer

  const IPPROTO_ESP: byte := 50
  const IPDEFTTL: byte := 64

  function Version(p: seq<byte>): byte
    requires |p| >= 1
  {
    p[0] / 16
  }

  /** Length of the leading IP header: options counted for IPv4, none supported for IPv6. */
  function HeaderLen(p: seq<byte>): nat
    requires |p| >= 1
  {
    if Version(p) == 4 then 4 * (p[0] % 16) else 40
  }

  /** The packet holds the whole header its first byte announces. */
  predicate WholeHeader(p: seq<byte>)
  {
    |p| >= 1 && HeaderLen(p) <= |p| && (Version(p) == 4 ==> HeaderLen(p) >= 20)
  }

  /** The packet holds the fields of its header that encapsulation and decapsulation touch. */
  predicate Headed(p: seq<byte>)
  {
    |p| >= if |p| >= 1 && Version(p) == 4 then 12 else 8
  }

  /** DSCP and ECN bits of the inner header. */
  function DsEcn(p: seq<byte>): byte
    requires Headed(p)
  {
    if Version(p) == 4 then p[1] else 16 * (p[0] % 16) + p[1] / 16
  }

  /** The hop taken by the inner header: TTL with checksum patch, or hop limit. */
  function Hop(p: seq<byte>): (r: seq<byte>)
    requires Headed(p)
    ensures |r| == |p| && Headed(r) && r[0] == p[0]
  {
    if Version(p) == 4 then TtlStep(p) else p[7 := LessOne(p[7])]
  }

  /** Outer header per section 5.1.2.1 of RFC 4301; an IPv4 checksum field keeps the stale bytes. */
  function Outer(v6: bool, ds: byte, total: nat, src: seq<byte>, dst: seq<byte>, stale: seq<byte>): (h: seq<byte>)
    requires AddressesFit(v6, src, dst) && |stale| == 2
    ensures |h| == OuterLen(v6)
  {
    if v6 then [0x60 + ds / 16, 16 * (ds % 16), 0, 0] + Be(if total >= 40 then total - 40 else 0, 2)
        + [IPPROTO_ESP, IPDEFTTL] + src + dst
    else [0x45, ds] + Be(total, 2) + [0, 0, 0, 0, IPDEFTTL, IPPROTO_ESP] + stale + src + dst
  }

  function OuterLen(v6: bool): nat
  {
    if v6 then 40 else 20
  }

  predicate AddressesFit(v6: bool, src: seq<byte>, dst: seq<byte>)
  {
    |src| == |dst| == if v6 then 16 else 4
  }

  predicate CeMark(b0: byte, b1: byte)
  {
    if b0 / 16 == 4 then b1 % 4 == 3 else b1 / 16 % 4 == 3
  }

  /** Does an outer header carry the congestion mark? */
  predicate CarriesCe(outer: seq<byte>)
    requires |outer| >= 2
  {
    CeMark(outer[0], outer[1])
  }

  function Ecn6Step(p: seq<byte>): (r: seq<byte>)
    requires |p| >= 2
    ensures |r| == |p|
  {
    var ecn := p[1] / 16 % 4;
    if ecn == 0 then p else p[1 := p[1] + 16 * (3 - ecn)]
  }

  /** What decapsulation does to the inner packet. */
  function Arrive(ce: bool, p: seq<byte>): (r: seq<byte>)
    requires Headed(p)
    ensures |r| == |p|
  {
    if Version(p) == 4 then TtlStep(if ce then EcnStep(p) else p)
    else var q := if ce then Ecn6Step(p) else p; q[7 := LessOne(q[7])]
  }

  /** Patch TTL and checksum in place at the start of the packet. */
  method StepTtl(m: Mbuf)
    requires m.Valid() && m.len >= 12
    modifies m.buf
    ensures m.Data() == TtlStep(old(m.Data()))
    ensures m.buf[..m.off] == old(m.buf[..m.off])
  {
    var t := TtlSum(Le16(m.Get(10), m.Get(11)));
    m.Put(8, LessOne(m.Get(8)));
    m.Put(10, Low(t));
    m.Put(11, High(t));
  }

  /** ECN bits once congestion is marked: 3, unless the packet is not capable of it. */
  predicate MarkedAs(before: int, after: int)
  {
    after == if before == 0 then 0 else 3
  }

  method SetEcn4(m: Mbuf)
    requires m.Valid() && m.len >= 12
    modifies m.buf
    ensures m.Data() == EcnStep(old(m.Data()))
    ensures MarkedAs(old(m.Data())[1] % 4, m.Data()[1] % 4) && m.Data()[1] / 4 == old(m.Data())[1] / 4
    ensures forall k :: 0 <= k < m.len && (k < 10 || k > 11) && k != 1 ==> m.Data()[k] == old(m.Data())[k]
  {
    var tos, hi, lo := m.Get(1), m.Get(10), m.Get(11);
    if tos % 4 != 0 {
      var c := Folded(tos as int + (255 - WithCe(tos)) + Be16(hi, lo));
      assert c == EcnSum(m.Data());
      m.Put(1, WithCe(tos));
      m.Put(10, High(c));
      m.Put(11, Low(c));
    }
  }

  method SetEcn6(m: Mbuf)
    requires m.Valid() && m.len >= 2
    modifies m.buf
    ensures m.Data() == Ecn6Step(old(m.Data()))
    ensures MarkedAs(old(m.Data())[1] / 16 % 4, m.Data()[1] / 16 % 4)
    ensures m.Data()[1] / 64 == old(m.Data())[1] / 64 && m.Data()[1] % 16 == old(m.Data())[1] % 16
    ensures forall k :: 0 <= k < m.len && k != 1 ==> m.Data()[k] == old(m.Data())[k]
  {
    var tc := m.Get(1);
    var ecn := tc / 16 % 4;
    if ecn != 0 {
      m.Put(1, tc + 16 * (3 - ecn));
    }
  }

  /** Take the hop on the inner header and read its DSCP and ECN bits. */
  method StepInner(m: Mbuf) returns (ds: byte)
    requires m.Valid() && Headed(m.Data())
    modifies m.buf
    ensures ds == DsEcn(old(m.Data()))
    ensures m.Data() == Hop(old(m.Data()))
    ensures m.buf[..m.off] == old(m.buf[..m.off])
  {
    var b0, b1 := m.Get(0), m.Get(1);
    if b0 / 16 == 4 {
      StepTtl(m);
      ds := b1;
    } else {
      var hops := m.Get(7);
      m.Put(7, LessOne(hops));
      ds := 16 * (b0 % 16) + b1 / 16;
    }
  }

  method WriteOuter4(m: Mbuf, ds: byte, src: seq<byte>, dst: seq<byte>)
    requires m.Valid() && m.len >= 20 && AddressesFit(false, src, dst)
    modifies m.buf
    ensures m.Data() == Outer(false, ds, m.len, src, dst, old(m.Data())[10..12]) + old(m.Data())[20..]
  {
    var h := [0x45, ds] + Be(m.len, 2) + [0, 0, 0, 0, IPDEFTTL, IPPROTO_ESP];
    m.Store(0, h);
    m.Store(12, src + dst);
  }

  method WriteOuter6(m: Mbuf, ds: byte, src: seq<byte>, dst: seq<byte>)
    requires m.Valid() && m.len >= 40 && AddressesFit(true, src, dst)
    modifies m.buf
    ensures m.Data() == Outer(true, ds, m.len, src, dst, old(m.Data())[10..12]) + old(m.Data())[40..]
  {
    var h := [0x60 + ds / 16, 16 * (ds % 16), 0, 0] + Be(m.len - 40, 2) + [IPPROTO_ESP, IPDEFTTL] + src + dst;
    m.Store(0, h);
  }

  /** The DSCP and ECN bits, wherever the version puts them. */
  predicate Marked(b0: byte, b1: byte, ds: int)
  {
    ds == if b0 / 16 == 4 then b1 as int else 16 * (b0 % 16) + b1 / 16
  }

  /** The bytes of the header a packet of `total` bytes gets for packet p (section 5.1.2.1 of RFC 4301). */
  predicate OuterBytes(v6: bool, p: seq<byte>, src: seq<byte>, dst: seq<byte>, h: seq<byte>, total: nat)
    requires |p| >= 2
  {
    if v6 then
      && |h| == 40 && h[0] / 16 == 6 && h[1] % 16 == 0 && h[2] == 0 && h[3] == 0
      && Marked(p[0], p[1], 16 * (h[0] % 16) + h[1] / 16)
      && total >= 40 && h[4..6] == Be(total - 40, 2) && h[6] == 50 && h[7] == 64
      && h[8..24] == src && h[24..40] == dst
    else
      && |h| == 20 && h[0] == 0x45 && Marked(p[0], p[1], h[1])
      && h[2..4] == Be(total, 2) && h[4..8] == [0, 0, 0, 0] && h[8] == 64 && h[9] == 50
      && h[12..16] == src && h[16..20] == dst
  }

  /** Packet w is packet p a hop later: besides TTL and checksum, or hop limit, nothing changes. */
  predicate HoppedBytes(p: seq<byte>, w: seq<byte>)
    requires Headed(p)
  {
    && |w| == |p|
    && if p[0] / 16 == 4 then
         && w[8] == (if p[8] == 0 then 255 else p[8] - 1)
         && forall k :: 0 <= k < |p| && k != 8 && k != 10 && k != 11 ==> w[k] == p[k]
       else
         && w[7] == (if p[7] == 0 then 255 else p[7] - 1)
         && forall k :: 0 <= k < |p| && k != 7 ==> w[k] == p[k]
  }

  lemma OuterInBytes(v6: bool, p: seq<byte>, total: nat, src: seq<byte>, dst: seq<byte>, stale: seq<byte>)
    requires Headed(p) && AddressesFit(v6, src, dst) && |stale| == 2 && OuterLen(v6) <= total
    ensures OuterBytes(v6, p, src, dst, Outer(v6, DsEcn(p), total, src, dst, stale), total)
  {
    var h := Outer(v6, DsEcn(p), total, src, dst, stale);
    if v6 {
      assert h[8..24] == src && h[24..40] == dst && h[4..6] == Be(total - 40, 2);
    } else {
      assert h[12..16] == src && h[16..20] == dst && h[2..4] == Be(total, 2) && h[4..8] == [0, 0, 0, 0];
    }
  }

  lemma HopInBytes(p: seq<byte>)
    requires Headed(p)
    ensures HoppedBytes(p, Hop(p))
  {
  }

  lemma Parts(a: seq<byte>, b: seq<byte>, c: seq<byte>)
    ensures (a + b + c)[..|a|] == a && (a + b + c)[|a| + |b|..] == c
  {
  }

  /** What tunnelling gives, in bytes. */
  predicate Tunnelled(v6: bool, p: seq<byte>, src: seq<byte>, dst: seq<byte>, w: seq<byte>, n: nat)
    requires Headed(p) && OuterLen(v6) <= n <= |w|
  {
    OuterBytes(v6, p, src, dst, w[..OuterLen(v6)], |w|) && HoppedBytes(p, w[n..])
  }

  lemma TunnelledBytes(v6: bool, p: seq<byte>, total: nat, src: seq<byte>, dst: seq<byte>, stale: seq<byte>,
                       gap: seq<byte>, w: seq<byte>)
    requires Headed(p) && AddressesFit(v6, src, dst) && |stale| == 2 && |w| == total
    requires w == Outer(v6, DsEcn(p), total, src, dst, stale) + gap + Hop(p)
    ensures Tunnelled(v6, p, src, dst, w, OuterLen(v6) + |gap|)
  {
    Parts(Outer(v6, DsEcn(p), total, src, dst, stale), gap, Hop(p));
    OuterInBytes(v6, p, total, src, dst, stale);
    HopInBytes(p);
  }

  /** ipip_outbound: step the inner header, then put `extra` bytes and an outer header in front. */
  method Outbound(m: Mbuf, extra: nat, v6: bool, src: seq<byte>, dst: seq<byte>)
    requires m.Valid() && Headed(m.Data())
    requires AddressesFit(v6, src, dst) && OuterLen(v6) + extra <= m.off
    modifies m, m.buf
    ensures m.Valid() && m.off == old(m.off) - OuterLen(v6) - extra
    ensures m.len == old(m.len) + OuterLen(v6) + extra
    ensures var room := old(m.Room(OuterLen(v6) + extra));
            m.Data() ==
            Outer(v6, DsEcn(old(m.Data())), m.len, src, dst, room[10..12])
            + room[OuterLen(v6)..] + Hop(old(m.Data()))
    ensures Tunnelled(v6, old(m.Data()), src, dst, m.Data(), OuterLen(v6) + extra)
  {
    ghost var p, room := m.Data(), m.Room(OuterLen(v6) + extra);
    var ds := StepInner(m);
    RoomKept(old(m.buf[..m.off]), m.buf[..m.off], m, room);
    m.Prepend(OuterLen(v6) + extra);
    assert m.Data() == room + Hop(p);
    TailOfRoom(room, Hop(p), OuterLen(v6));
    WriteOuter(m, v6, ds, src, dst);
    TunnelledBytes(v6, p, m.len, src, dst, room[10..12], room[OuterLen(v6)..], m.Data());
  }

  method WriteOuter(m: Mbuf, v6: bool, ds: byte, src: seq<byte>, dst: seq<byte>)
    requires m.Valid() && AddressesFit(v6, src, dst) && OuterLen(v6) <= m.len
    modifies m.buf
    ensures m.Data() == Outer(v6, ds, m.len, src, dst, old(m.Data())[10..12]) + old(m.Data())[OuterLen(v6)..]
  {
    if v6 {
      WriteOuter6(m, ds, src, dst);
    } else {
      WriteOuter4(m, ds, src, dst);
    }
  }

  lemma TailOfRoom(room: seq<byte>, p: seq<byte>, n: nat)
    requires 12 <= n <= |room|
    ensures (room + p)[n..] == room[n..] + p && (room + p)[10..12] == room[10..12]
  {
  }

  lemma RoomKept(before: seq<byte>, after: seq<byte>, m: Mbuf, room: seq<byte>)
    requires m.Valid() && |room| <= m.off == |before| && before == after == m.buf[..m.off]
    requires room == before[m.off - |room|..]
    ensures m.Room(|room|) == room
  {
  }

  /** Packet w is packet p out of a tunnel: a hop later, and marked if the outer header is and p is capable of it. */
  predicate ArrivedBytes(b0: byte, b1: byte, p: seq<byte>, w: seq<byte>)
    requires Headed(p)
  {
    var ce := if b0 / 16 == 4 then b1 % 4 == 3 else b1 / 16 % 4 == 3;
    |w| == |p| && if p[0] / 16 == 4 then Arrived4(ce, p, w) else Arrived6(ce, p, w)
  }

  predicate Arrived4(ce: bool, p: seq<byte>, w: seq<byte>)
    requires |w| == |p| >= 12
  {
    && w[8] == (if p[8] == 0 then 255 else p[8] - 1)
    && w[1] == (if ce && p[1] % 4 != 0 then p[1] - p[1] % 4 + 3 else p[1])
    && forall k :: 0 <= k < |p| && k != 1 && k != 8 && k != 10 && k != 11 ==> w[k] == p[k]
  }

  predicate Arrived6(ce: bool, p: seq<byte>, w: seq<byte>)
    requires |w| == |p| >= 8
  {
    && w[7] == (if p[7] == 0 then 255 else p[7] - 1)
    && w[1] == (if ce && p[1] / 16 % 4 != 0 then p[1] + 16 * (3 - p[1] / 16 % 4) else p[1])
    && forall k :: 0 <= k < |p| && k != 1 && k != 7 ==> w[k] == p[k]
  }

  lemma ArriveInBytes4(ce: bool, p: seq<byte>)
    requires Headed(p) && Version(p) == 4
    ensures Arrived4(ce, p, Arrive(ce, p))
  {
  }

  lemma ArriveInBytes6(ce: bool, p: seq<byte>)
    requires Headed(p) && Version(p) != 4
    ensures Arrived6(ce, p, Arrive(ce, p))
  {
  }

  lemma ArriveInBytes(outer: seq<byte>, p: seq<byte>)
    requires |outer| >= 2 && Headed(p)
    ensures ArrivedBytes(outer[0], outer[1], p, Arrive(CarriesCe(outer), p))
  {
    if Version(p) == 4 {
      ArriveInBytes4(CarriesCe(outer), p);
    } else {
      ArriveInBytes6(CarriesCe(outer), p);
    }
  }

  /** ipip_inbound: strip the outer header and `extra` bytes, then step the inner header. */
  method Inbound(m: Mbuf, extra: nat, ghost outer: seq<byte>, ghost inner: seq<byte>)
    requires m.Valid() && m.Data() == outer + inner && |outer| >= 2
    requires |outer| == OuterLen(Version(outer) != 4) + extra && Headed(inner)
    modifies m, m.buf
    ensures m.Valid() && m.Data() == Arrive(CarriesCe(outer), inner)
    ensures ArrivedBytes(outer[0], outer[1], inner, m.Data())
  {
    ArriveInBytes(outer, inner);
    var b0, b1 := m.Get(0), m.Get(1);
    assert b0 == outer[0] && b1 == outer[1];
    m.Adj(OuterLen(b0 / 16 != 4) + extra);
    assert m.Data() == inner;
    ArriveInPlace(m, CeMark(b0, b1));
  }

  method ArriveInPlace(m: Mbuf, ce: bool)
    requires m.Valid() && Headed(m.Data())
    modifies m.buf
    ensures m.Data() == Arrive(ce, old(m.Data()))
  {
    if m.Get(0) / 16 == 4 {
      if ce {
        SetEcn4(m);
      }
      StepTtl(m);
    } else {
      if ce {
        SetEcn6(m);
      }
      m.Put(7, LessOne(m.Get(7)));
    }
  }
}
