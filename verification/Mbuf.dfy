/** The packet buffer: one segment of bytes inside a fixed array, with head and tail room. */
module PacketBuffer {
  import opened Bytes

  class Mbuf {
    const buf: array<byte>
    var off: nat
    var len: nat

    /** A packet placed in a buffer that already holds old bytes around it. */
    constructor (head: seq<byte>, packet: seq<byte>, tail: seq<byte>)
      ensures Valid() && fresh(buf)
      ensures off == |head| && len == |packet| && buf[..] == head + packet + tail
      ensures Data() == packet
    {
      var all := head + packet + tail;
      buf := new byte[|all|](i requires 0 <= i < |all| => all[i]);
      off, len := |head|, |packet|;
    }

    ghost predicate Valid()
      reads this
    {
      off + len <= buf.Length
    }

    /** The bytes of the packet. */
    ghost function Data(): (d: seq<byte>)
      requires Valid()
      reads this, buf
      ensures |d| == len
    {
      buf[off..off + len]
    }

    /** The n stale bytes just in front of the packet. */
    ghost function Room(n: nat): (d: seq<byte>)
      requires Valid() && n <= off
      reads this, buf
      ensures |d| == n
    {
      buf[off - n..off]
    }

    /** The n stale bytes just behind the packet. */
    ghost function Slack(n: nat): (d: seq<byte>)
      requires Valid() && off + len + n <= buf.Length
      reads this, buf
      ensures |d| == n
    {
      buf[off + len..off + len + n]
    }

    function Get(i: nat): (b: byte)
      requires Valid() && i < len
      reads this, buf
      ensures b == Data()[i]
    {
      buf[off + i]
    }

    method Slice(i: nat, j: nat) returns (b: seq<byte>)
      requires Valid() && i <= j <= len
      ensures b == Data()[i..j]
    {
      SubSlice(buf[..], off, len, i, j);
      b := buf[off + i..off + j];
    }

    method Put(i: nat, b: byte)
      requires Valid() && i < len
      modifies buf
      ensures Data() == old(Data())[i := b]
      ensures buf[..off] == old(buf[..off]) && buf[off + len..] == old(buf[off + len..])
    {
      buf[off + i] := b;
    }

    /** rte_pktmbuf_prepend, with the head room its callers assume. */
    method Prepend(n: nat)
      requires Valid() && n <= off
      modifies this
      ensures Valid() && off == old(off) - n && len == old(len) + n
      ensures Data() == old(Room(n)) + old(Data())
    {
      off, len := off - n, len + n;
    }

    /** rte_pktmbuf_append: fails when the tail room is too small. */
    method Append(n: nat) returns (ok: bool)
      requires Valid()
      modifies this
      ensures Valid() && off == old(off)
      ensures ok == (old(off + len) + n <= buf.Length)
      ensures ok ==> len == old(len) + n && Data() == old(Data()) + old(Slack(n))
      ensures !ok ==> len == old(len) && Data() == old(Data())
    {
      ok := off + len + n <= buf.Length;
      if ok {
        len := len + n;
      }
    }

    /** rte_pktmbuf_adj on a packet at least that long. */
    method Adj(n: nat)
      requires Valid() && n <= len
      modifies this
      ensures Valid() && off == old(off) + n && len == old(len) - n
      ensures Data() == old(Data())[n..]
    {
      off, len := off + n, len - n;
    }

    /** rte_pktmbuf_trim: fails when the packet is shorter than the cut. */
    method Trim(n: nat) returns (ok: bool)
      requires Valid()
      modifies this
      ensures Valid() && off == old(off)
      ensures ok == (n <= old(len))
      ensures len == if ok then old(len) - n else old(len)
      ensures Data() == if ok then old(Data())[..old(len) - n] else old(Data())
    {
      ok := n <= len;
      if ok {
        len := len - n;
      }
    }

    /** Store bytes at a position inside the packet. */
    method Store(i: nat, b: seq<byte>)
      requires Valid() && i + |b| <= len
      modifies buf
      ensures Data() == Splice(old(Data()), i, b)
    {
      ghost var d := Data();
      assert d == Splice(d, i, b[..0]);
      for k := 0 to |b|
        invariant Data() == Splice(d, i, b[..k])
      {
        SpliceGrow(d, i, b[..k], b[k]);
        assert b[..k + 1] == b[..k] + [b[k]];
        Put(i + k, b[k]);
      }
      assert b[..|b|] == b;
    }

    /** memmove inside the packet; the regions may overlap. */
    method Move(dst: nat, src: nat, n: nat)
      requires Valid() && dst + n <= len && src + n <= len
      modifies buf
      ensures Data() == Splice(old(Data()), dst, old(Data())[src..src + n])
    {
      var bytes := Slice(src, src + n);
      Store(dst, bytes);
    }
  }
}
