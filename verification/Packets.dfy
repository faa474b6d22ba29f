/** Packets as the pipeline moves them about: who holds them, and in which order an SA numbered them. */
module Packets {
  import opened Common

  datatype Ether = EtherIp4 | EtherIp6 | EtherOther
  datatype Proto = ProtoEsp | ProtoUdp | ProtoOther

  /** The outbound SA that encapsulated a packet and the sequence number it gave. */
  datatype Tag = Tag(sa: nat, sn: nat)

  /**
   * One mbuf. `ver` and `dst` are the version nibble and destination of the header in front; `inner` and `innerDst`
   * are those of the header decapsulation would uncover. `offload` is the Tx security offload flag and `saPort` the
   * port of the SA saved in the private area.
   */
  datatype Packet = Packet(
    id: nat, ether: Ether, proto: Proto, natPort: bool, longHeader: bool,
    ver: nat, dst: nat, inner: nat, innerDst: nat, len: nat, offload: bool, saPort: Option<nat>, tag: Option<Tag>)

  /** How often mbuf x is on a list. */
  function Cnt(ps: seq<Packet>, x: nat): nat
  {
    if ps == [] then 0 else (if ps[0].id == x then 1 else 0) + Cnt(ps[1..], x)
  }

  /** How often mbuf x is in a table of lists. */
  function CntAll(t: seq<seq<Packet>>, x: nat): nat
  {
    if t == [] then 0 else Cnt(t[0], x) + CntAll(t[1..], x)
  }

  /** Number of mbufs in a table of lists. */
  function Total(t: seq<seq<Packet>>): nat
  {
    if t == [] then 0 else |t[0]| + Total(t[1..])
  }

  lemma {:induction false} CntConcat(a: seq<Packet>, b: seq<Packet>, x: nat)
    ensures Cnt(a + b, x) == Cnt(a, x) + Cnt(b, x)
  {
    if a == [] {
      assert a + b == b;
    } else {
      assert (a + b)[1..] == a[1..] + b;
      CntConcat(a[1..], b, x);
    }
  }

  lemma CntSplit(a: seq<Packet>, n: nat, x: nat)
    requires n <= |a|
    ensures Cnt(a, x) == Cnt(a[..n], x) + Cnt(a[n..], x)
  {
    assert a == a[..n] + a[n..];
    CntConcat(a[..n], a[n..], x);
  }

  lemma {:induction false} TableUpdate(t: seq<seq<Packet>>, i: nat, y: seq<Packet>, x: nat)
    requires i < |t|
    ensures CntAll(t[i := y], x) == CntAll(t, x) - Cnt(t[i], x) + Cnt(y, x)
    ensures Total(t[i := y]) == Total(t) - |t[i]| + |y|
  {
    var u := t[i := y];
    if i == 0 {
      assert u[1..] == t[1..];
    } else {
      assert u[1..] == t[1..][i - 1 := y];
      TableUpdate(t[1..], i - 1, y, x);
    }
  }

  /** Sequence numbers SA s gave to the packets of a list, in list order. */
  function Sns(ps: seq<Packet>, s: nat): seq<nat>
  {
    if ps == [] then []
    else (if ps[0].tag.Some? && ps[0].tag.value.sa == s then [ps[0].tag.value.sn] else []) + Sns(ps[1..], s)
  }

  lemma {:induction false} SnsConcat(a: seq<Packet>, b: seq<Packet>, s: nat)
    ensures Sns(a + b, s) == Sns(a, s) + Sns(b, s)
  {
    if a == [] {
      assert a + b == b;
    } else {
      assert (a + b)[1..] == a[1..] + b;
      SnsConcat(a[1..], b, s);
    }
  }

  lemma SnsSplit(a: seq<Packet>, n: nat, s: nat)
    requires n <= |a|
    ensures Sns(a, s) == Sns(a[..n], s) + Sns(a[n..], s)
  {
    assert a == a[..n] + a[n..];
    SnsConcat(a[..n], a[n..], s);
  }

  /** a is what remains of b after some elements are taken out. */
  predicate Sub(a: seq<nat>, b: seq<nat>)
  {
    a == [] || (b != [] && ((a[0] == b[0] && Sub(a[1..], b[1..])) || Sub(a, b[1..])))
  }

  lemma {:induction false} SubRefl(a: seq<nat>)
    ensures Sub(a, a)
  {
    if a != [] {
      SubRefl(a[1..]);
    }
  }

  lemma SubSkip(a: seq<nat>, x: nat, b: seq<nat>)
    requires Sub(a, b)
    ensures Sub(a, [x] + b)
  {
    assert ([x] + b)[1..] == b;
  }

  lemma {:induction false} SubTrans(a: seq<nat>, b: seq<nat>, c: seq<nat>)
    requires Sub(a, b) && Sub(b, c)
    ensures Sub(a, c)
    decreases |b| + |c|
  {
    if a != [] {
      if b[0] == c[0] && Sub(b[1..], c[1..]) {
        if a[0] == b[0] && Sub(a[1..], b[1..]) {
          SubTrans(a[1..], b[1..], c[1..]);
        } else {
          SubTrans(a, b[1..], c[1..]);
        }
      } else {
        SubTrans(a, b, c[1..]);
      }
    }
  }

  lemma {:induction false} SubLeft(x: seq<nat>, a: seq<nat>, b: seq<nat>)
    requires Sub(a, b)
    ensures Sub(x + a, x + b)
  {
    if x == [] {
      assert x + a == a && x + b == b;
    } else {
      SubLeft(x[1..], a, b);
      assert (x + a)[1..] == x[1..] + a && (x + b)[1..] == x[1..] + b;
    }
  }

  lemma {:induction false} SubRight(a: seq<nat>, b: seq<nat>, y: seq<nat>)
    requires Sub(a, b)
    ensures Sub(a + y, b + y)
    decreases |b|
  {
    if a == [] {
      SubPrefixAway(b, y);
      assert a + y == y;
    } else if a[0] == b[0] && Sub(a[1..], b[1..]) {
      SubRight(a[1..], b[1..], y);
      assert (a + y)[1..] == a[1..] + y && (b + y)[1..] == b[1..] + y;
    } else {
      SubRight(a, b[1..], y);
      assert (b + y)[1..] == b[1..] + y;
    }
  }

  lemma {:induction false} SubPrefixAway(b: seq<nat>, y: seq<nat>)
    ensures Sub(y, b + y)
  {
    if b == [] {
      assert b + y == y;
      SubRefl(y);
    } else {
      SubPrefixAway(b[1..], y);
      assert (b + y)[1..] == b[1..] + y;
    }
  }

  /** Two steps in a row: each keeps some of what was there and adds some of what it is given. */
  lemma PipeThen(x: seq<nat>, g1: seq<nat>, y: seq<nat>, g2: seq<nat>, z: seq<nat>)
    requires Sub(y, x + g1) && Sub(z, y + g2)
    ensures Sub(z, x + (g1 + g2))
  {
    SubRight(y, x + g1, g2);
    SubTrans(z, y + g2, x + g1 + g2);
    assert x + g1 + g2 == x + (g1 + g2);
  }

  /** Strictly increasing. */
  predicate Increasing(a: seq<nat>)
  {
    |a| < 2 || (a[0] < a[1] && Increasing(a[1..]))
  }

  lemma {:induction false} FirstIsLeast(a: seq<nat>, x: nat)
    requires a != [] && Increasing(a) && x in a[1..]
    ensures a[0] < x
  {
    if x != a[1] {
      assert x in a[1..][1..];
      FirstIsLeast(a[1..], x);
    }
  }

  /** The recursive form says what it should about any two positions. */
  lemma {:induction false} IncreasingAt(a: seq<nat>, i: nat, j: nat)
    requires Increasing(a) && i < j < |a|
    ensures a[i] < a[j]
  {
    if i == 0 {
      assert a[j] == a[1..][j - 1];
      FirstIsLeast(a, a[j]);
    } else {
      assert a[i] == a[1..][i - 1] && a[j] == a[1..][j - 1];
      IncreasingAt(a[1..], i - 1, j - 1);
    }
  }

  lemma {:induction false} IncreasingByNeighbours(a: seq<nat>)
    requires forall i :: 0 <= i < |a| - 1 ==> a[i] < a[i + 1]
    ensures Increasing(a)
  {
    if |a| >= 2 {
      var b := a[1..];
      forall i | 0 <= i < |b| - 1 ensures b[i] < b[i + 1] {
        assert b[i] == a[i + 1] && b[i + 1] == a[i + 1 + 1];
      }
      IncreasingByNeighbours(b);
      assert a[0] < a[0 + 1];
    }
  }

  lemma {:induction false} SubMember(a: seq<nat>, b: seq<nat>, x: nat)
    requires Sub(a, b) && x in a
    ensures x in b
    decreases |b|
  {
    if a[0] == b[0] && Sub(a[1..], b[1..]) {
      if x != a[0] {
        SubMember(a[1..], b[1..], x);
      }
    } else {
      SubMember(a, b[1..], x);
    }
  }

  /** What remains of an increasing sequence is increasing. */
  lemma {:induction false} SubIncreasing(a: seq<nat>, b: seq<nat>)
    requires Sub(a, b) && Increasing(b)
    ensures Increasing(a)
    decreases |b|
  {
    if |a| >= 2 {
      assert Increasing(b[1..]);
      if a[0] == b[0] && Sub(a[1..], b[1..]) {
        SubIncreasing(a[1..], b[1..]);
        SubMember(a[1..], b[1..], a[1]);
        FirstIsLeast(b, a[1]);
      } else {
        SubIncreasing(a, b[1..]);
      }
    }
  }
}
