/**
 * An IPsec context's crypto queue pairs in legacy mode (ipsec.c): staging buffers in front of FIFO devices that
 * take only as much as they have room for, and round-robin collection of what the devices finished.
 */
module CryptoContext {
  import opened Common
  import opened Packets

  /** Per queue pair: the staged operations buf[..len], the device's queue, the in_flight counter; and last_qp. */
  datatype Ctx = Ctx(stage: seq<seq<Packet>>, dev: seq<seq<Packet>>, inFlight: seq<nat>, last: nat)

  predicate Shaped(c: Ctx)
  {
    && |c.stage| == |c.dev| == |c.inFlight|
    && (c.last < |c.stage| || c.last == 0)
    && forall q :: 0 <= q < |c.stage| ==> c.inFlight[q] == |c.dev[q]| <= CDEV_QUEUE_DESC
  }

  /** Between calls no staging buffer is full, and in_flight is what the device holds. */
  predicate CtxOk(c: Ctx)
  {
    Shaped(c) && forall q :: 0 <= q < |c.stage| ==> |c.stage[q]| < MAX_PKT_BURST
  }

  /**
   * The point of view from which a run is followed: any mbuf, and any outbound tunnel SA with the queue pair it is
   * bound to, the outer header it writes and the port that header is routed to. Nothing is known about them, so
   * what is shown for one holds for all.
   */
  datatype Watch = Watch(mbuf: nat, sa: nat, qp: nat, ver: nat, dst: nat, home: nat, ports: nat)

  /** Packets the watched SA encapsulated carry its outer header; packets for inline offload name an existing port. */
  predicate Routed(ps: seq<Packet>, v: Watch)
  {
    ps == [] || (RoutedOne(ps[0], v) && Routed(ps[1..], v))
  }

  predicate RoutedOne(p: Packet, v: Watch)
  {
    && (p.tag.Some? && p.tag.value.sa == v.sa ==> p.ver == v.ver && p.dst == v.dst && !p.offload)
    && (p.offload && p.saPort.Some? ==> p.saPort.value < v.ports)
  }

  lemma {:induction false} RoutedConcat(a: seq<Packet>, b: seq<Packet>, v: Watch)
    ensures Routed(a + b, v) <==> Routed(a, v) && Routed(b, v)
  {
    if a == [] {
      assert a + b == b;
    } else {
      assert (a + b)[1..] == a[1..] + b;
      RoutedConcat(a[1..], b, v);
    }
  }

  lemma RoutedSplit(a: seq<Packet>, n: nat, v: Watch)
    requires n <= |a|
    ensures Routed(a, v) <==> Routed(a[..n], v) && Routed(a[n..], v)
  {
    assert a == a[..n] + a[n..];
    RoutedConcat(a[..n], a[n..], v);
  }

  /** Copies of the watched mbuf held by the context. */
  function CtxCnt(c: Ctx, v: Watch): nat
  {
    CntAll(c.dev, v.mbuf) + CntAll(c.stage, v.mbuf)
  }

  function CtxLen(c: Ctx): nat
  {
    Total(c.dev) + Total(c.stage)
  }

  /** Sequence numbers of the watched SA on its queue pair, oldest first. */
  function QPipe(c: Ctx, v: Watch): seq<nat>
  {
    if v.qp < |c.stage| && v.qp < |c.dev| then Sns(c.dev[v.qp], v.sa) + Sns(c.stage[v.qp], v.sa) else []
  }

  /** The watched SA has packets on its own queue pair only, under its own outer header. */
  ghost predicate OnlyOn(c: Ctx, v: Watch)
    requires Shaped(c)
  {
    && (forall q :: 0 <= q < |c.stage| && q != v.qp ==> Sns(c.dev[q], v.sa) == [] && Sns(c.stage[q], v.sa) == [])
    && (forall q :: 0 <= q < |c.stage| ==> Routed(c.dev[q], v) && Routed(c.stage[q], v))
  }

  /**
   * What every context operation keeps: packets come in through `given` and leave through `taken` or `freed`, none is
   * lost or doubled; and of the watched SA's numbers only some are removed, none reordered.
   */
  ghost predicate Keeps(c: Ctx, given: seq<Packet>, d: Ctx, taken: seq<Packet>, freed: seq<Packet>, v: Watch)
    requires Shaped(c) && Shaped(d)
  {
    && |d.stage| == |c.stage| && OnlyOn(d, v)
    && CtxCnt(d, v) + Cnt(taken, v.mbuf) + Cnt(freed, v.mbuf) == CtxCnt(c, v) + Cnt(given, v.mbuf)
    && CtxLen(d) + |taken| + |freed| == CtxLen(c) + |given|
    && Sub(Sns(taken, v.sa) + QPipe(d, v), QPipe(c, v) + Sns(given, v.sa))
  }

  /** Packet p is staged for queue pair q or in its device. */
  predicate OnQp(c: Ctx, q: nat, p: Packet)
  {
    q < |c.stage| && q < |c.dev| && (p in c.stage[q] || p in c.dev[q])
  }

  /** No queue pair has a packet it did not have. */
  ghost predicate NoMore(c: Ctx, d: Ctx)
  {
    forall q, p :: OnQp(d, q, p) ==> OnQp(c, q, p)
  }

  /** Packet r is p as the device and post-processing give it back: inbound, with the inner header to the front. */
  predicate GivenBackAs(p: Packet, inbound: bool, r: Packet)
  {
    r == if inbound then p.(ver := p.inner, dst := p.innerDst) else p
  }

  /** Packet r was on a queue pair, its processing went well, and it came back as above. */
  ghost predicate CameFrom(c: Ctx, inbound: bool, good: Packet -> bool, r: Packet)
  {
    exists q, p :: OnQp(c, q, p) && good(p) && GivenBackAs(p, inbound, r)
  }

  lemma KeepsNothing(c: Ctx, v: Watch)
    requires Shaped(c) && OnlyOn(c, v)
    ensures Keeps(c, [], c, [], [], v)
  {
    assert [] + QPipe(c, v) == QPipe(c, v) == QPipe(c, v) + [];
    SubRefl(QPipe(c, v));
  }

  /** rte_cryptodev_enqueue_burst on a staged buffer takes a prefix; the rest is freed (enqueue_cop_burst). */
  method CopBurst(c: Ctx, q: nat, ghost v: Watch) returns (d: Ctx, freed: seq<Packet>)
    requires Shaped(c) && q < |c.stage| && OnlyOn(c, v)
    ensures Shaped(d) && d.stage == c.stage[q := []] && d.last == c.last
    ensures Keeps(c, [], d, [], freed, v) && NoMore(c, d) && Submits(c, q, c.stage[q], d, freed)
  {
    var buf := c.stage[q];
    var n: nat :| n <= |buf| && |c.dev[q]| + n <= CDEV_QUEUE_DESC;
    freed := buf[n..];
    d := Ctx(c.stage[q := []], c.dev[q := c.dev[q] + buf[..n]], c.inFlight[q := c.inFlight[q] + n], c.last);
    BurstKeeps(c, q, n, d, v);
    assert |buf| - |freed| == n;
  }

  /** Queue pair q's buffer, by now `buf`, is emptied: its device takes a prefix, the rest is freed. */
  ghost predicate Submits(c: Ctx, q: nat, buf: seq<Packet>, d: Ctx, freed: seq<Packet>)
  {
    && q < |c.stage| && q < |c.dev| && q < |c.inFlight| && |freed| <= |buf|
    && var n := |buf| - |freed|;
       && freed == buf[n..] && d.stage == c.stage[q := []] && d.dev == c.dev[q := c.dev[q] + buf[..n]]
       && d.inFlight == c.inFlight[q := c.inFlight[q] + n] && d.last == c.last
  }

  /** Operation p is staged on queue pair q, and nothing else happens unless that fills the buffer. */
  ghost predicate StagedOn(c: Ctx, q: nat, p: Packet, d: Ctx, freed: seq<Packet>)
    requires q < |c.stage|
  {
    if |c.stage[q]| + 1 < MAX_PKT_BURST then freed == [] && d == c.(stage := c.stage[q := c.stage[q] + [p]])
    else Submits(c, q, c.stage[q] + [p], d, freed)
  }

  lemma {:induction false} BurstKeeps(c: Ctx, q: nat, n: nat, d: Ctx, v: Watch)
    requires Shaped(c) && q < |c.stage| && n <= |c.stage[q]| && OnlyOn(c, v)
    requires Shaped(d) && d.stage == c.stage[q := []] && d.dev == c.dev[q := c.dev[q] + c.stage[q][..n]]
    ensures Keeps(c, [], d, [], c.stage[q][n..], v)
  {
    var buf, held := c.stage[q], c.dev[q];
    TableUpdate(c.stage, q, [], v.mbuf);
    TableUpdate(c.dev, q, held + buf[..n], v.mbuf);
    CntConcat(held, buf[..n], v.mbuf);
    CntSplit(buf, n, v.mbuf);
    RoutedSplit(buf, n, v);
    RoutedConcat(held, buf[..n], v);
    BurstOrder(c, q, n, d, v);
  }

  lemma BurstOrder(c: Ctx, q: nat, n: nat, d: Ctx, v: Watch)
    requires Shaped(c) && q < |c.stage| && n <= |c.stage[q]| && OnlyOn(c, v)
    requires Shaped(d) && d.stage == c.stage[q := []] && d.dev == c.dev[q := c.dev[q] + c.stage[q][..n]]
    requires Routed(c.dev[q] + c.stage[q][..n], v)
    ensures OnlyOn(d, v) && Sub([] + QPipe(d, v), QPipe(c, v) + [])
  {
    var buf, held := c.stage[q], c.dev[q];
    SnsConcat(held, buf[..n], v.sa);
    SnsSplit(buf, n, v.sa);
    OnlyOnAt(c, d, q, v);
    if q == v.qp {
      HandedOver(Sns(held, v.sa), Sns(buf[..n], v.sa), Sns(buf[n..], v.sa));
    } else {
      SamePipe(QPipe(c, v));
    }
  }

  lemma OnlyOnAt(c: Ctx, d: Ctx, q: nat, v: Watch)
    requires Shaped(c) && Shaped(d) && |d.stage| == |c.stage| && q < |c.stage| && OnlyOn(c, v)
    requires forall i :: 0 <= i < |c.stage| && i != q ==> d.dev[i] == c.dev[i] && d.stage[i] == c.stage[i]
    requires q != v.qp ==> Sns(d.dev[q], v.sa) == [] && Sns(d.stage[q], v.sa) == []
    requires Routed(d.dev[q], v) && Routed(d.stage[q], v)
    ensures OnlyOn(d, v)
  {
  }

  lemma HandedOver(x: seq<nat>, a: seq<nat>, b: seq<nat>)
    ensures Sub([] + (x + a + []), x + (a + b) + [])
  {
    assert [] + (x + a + []) == x + a + [];
    assert x + (a + b) + [] == x + a + b;
    SubLeft(x + a, [], b);
  }

  lemma SamePipe(x: seq<nat>)
    ensures Sub([] + x, x + [])
  {
    assert [] + x == x == x + [];
    SubRefl(x);
  }

  /** enqueue_cop: stage one operation, and hand the buffer over when it is full. */
  method Cop(c: Ctx, q: nat, p: Packet, ghost v: Watch) returns (d: Ctx, freed: seq<Packet>)
    requires CtxOk(c) && q < |c.stage| && OnlyOn(c, v)
    requires (q != v.qp ==> Sns([p], v.sa) == []) && Routed([p], v)
    ensures CtxOk(d) && d.last == c.last
    ensures Keeps(c, [p], d, [], freed, v)
    ensures StagedOn(c, q, p, d, freed)
  {
    d, freed := c.(stage := c.stage[q := c.stage[q] + [p]]), [];
    StageKeeps(c, q, p, d, v);
    if |d.stage[q]| == MAX_PKT_BURST {
      ghost var mid := d;
      d, freed := CopBurst(d, q, v);
      KeepsThen(c, [p], mid, [], [], d, freed, v);
      SubmitsStaged(c, q, p, mid, d, freed);
      assert [p] + [] == [p] && [] + freed == freed;
    }
  }

  lemma SubmitsStaged(c: Ctx, q: nat, p: Packet, mid: Ctx, d: Ctx, freed: seq<Packet>)
    requires Shaped(c) && q < |c.stage| && mid == c.(stage := c.stage[q := c.stage[q] + [p]])
    requires Submits(mid, q, mid.stage[q], d, freed)
    ensures Submits(c, q, c.stage[q] + [p], d, freed)
  {
    assert mid.stage[q := []] == c.stage[q := []];
  }

  /** Only packet p is new, and that on queue pair q. */
  ghost predicate Adds(c: Ctx, q: nat, p: Packet, d: Ctx)
  {
    forall k, r :: OnQp(d, k, r) ==> OnQp(c, k, r) || (k == q && r == p)
  }

  lemma StagedAdds(c: Ctx, q: nat, p: Packet, d: Ctx, freed: seq<Packet>)
    requires CtxOk(c) && q < |c.stage| && StagedOn(c, q, p, d, freed)
    ensures Adds(c, q, p, d)
  {
    if |c.stage[q]| + 1 >= MAX_PKT_BURST {
      var buf := c.stage[q] + [p];
      assert forall r :: r in buf[..|buf| - |freed|] ==> r in buf;
    }
  }

  lemma {:induction false} StageKeeps(c: Ctx, q: nat, p: Packet, d: Ctx, v: Watch)
    requires Shaped(c) && q < |c.stage| && OnlyOn(c, v)
    requires (q != v.qp ==> Sns([p], v.sa) == []) && Routed([p], v)
    requires d == c.(stage := c.stage[q := c.stage[q] + [p]])
    ensures Keeps(c, [p], d, [], [], v)
  {
    TableUpdate(c.stage, q, c.stage[q] + [p], v.mbuf);
    CntConcat(c.stage[q], [p], v.mbuf);
    SnsConcat(c.stage[q], [p], v.sa);
    RoutedConcat(c.stage[q], [p], v);
    OnlyOnAt(c, d, q, v);
    if q == v.qp {
      assert QPipe(d, v) == QPipe(c, v) + Sns([p], v.sa);
    }
    SamePipe(QPipe(d, v));
    assert QPipe(d, v) + [] == QPipe(c, v) + Sns([p], v.sa);
  }

  /** Two enqueueing operations in a row. */
  lemma KeepsThen(c: Ctx, given: seq<Packet>, mid: Ctx, freed1: seq<Packet>,
                  given2: seq<Packet>, d: Ctx, freed2: seq<Packet>, v: Watch)
    requires Shaped(c) && Shaped(mid) && Shaped(d)
    requires Keeps(c, given, mid, [], freed1, v) && Keeps(mid, given2, d, [], freed2, v)
    ensures Keeps(c, given + given2, d, [], freed1 + freed2, v)
  {
    CntConcat(given, given2, v.mbuf);
    CntConcat(freed1, freed2, v.mbuf);
    SnsConcat(given, given2, v.sa);
    EnqueueOrder(QPipe(c, v), Sns(given, v.sa), QPipe(mid, v), Sns(given2, v.sa), QPipe(d, v));
  }

  lemma EnqueueOrder(x: seq<nat>, g1: seq<nat>, y: seq<nat>, g2: seq<nat>, z: seq<nat>)
    requires Sub([] + y, x + g1) && Sub([] + z, y + g2)
    ensures Sub([] + z, x + (g1 + g2))
  {
    assert [] + y == y && [] + z == z;
    SubRight(y, x + g1, g2);
    SubTrans(z, y + g2, x + g1 + g2);
    assert x + g1 + g2 == x + (g1 + g2);
  }

  /** drain_crypto_buffers for one context: hand over every buffer that holds something. */
  method Drain(c: Ctx, ghost v: Watch) returns (d: Ctx, freed: seq<Packet>)
    requires CtxOk(c) && OnlyOn(c, v)
    ensures CtxOk(d) && d.last == c.last && Keeps(c, [], d, [], freed, v) && NoMore(c, d)
    ensures forall q :: 0 <= q < |d.stage| ==> d.stage[q] == []
    ensures forall q :: 0 <= q < |c.dev| ==> TakesPrefix(c.stage[q], c.dev[q], d.dev[q])
  {
    d, freed := c, [];
    KeepsNothing(c, v);
    for i := 0 to |c.stage|
      invariant CtxOk(d) && d.last == c.last && Keeps(c, [], d, [], freed, v) && NoMore(c, d)
      invariant forall q :: 0 <= q < i ==> d.stage[q] == []
      invariant forall q :: i <= q < |c.stage| ==> d.stage[q] == c.stage[q] && d.dev[q] == c.dev[q]
      invariant forall q :: 0 <= q < i ==> TakesPrefix(c.stage[q], c.dev[q], d.dev[q])
    {
      d, freed := DrainOne(c, d, freed, i, v);
    }
  }

  /** One buffer handed over, if it holds something. */
  method DrainOne(ghost c: Ctx, mid: Ctx, was: seq<Packet>, i: nat, ghost v: Watch)
    returns (d: Ctx, freed: seq<Packet>)
    requires Shaped(c) && CtxOk(mid) && i < |mid.stage| && Keeps(c, [], mid, [], was, v)
    ensures CtxOk(d) && d.last == mid.last && Keeps(c, [], d, [], freed, v) && NoMore(mid, d)
    ensures d.stage == mid.stage[i := []] && |d.dev| == |mid.dev|
    ensures TakesPrefix(mid.stage[i], mid.dev[i], d.dev[i])
    ensures forall k :: 0 <= k < |mid.dev| && k != i ==> d.dev[k] == mid.dev[k]
  {
    d, freed := mid, was;
    if mid.stage[i] != [] {
      var more;
      d, more := CopBurst(mid, i, v);
      SubmitsPrefix(mid, i, d, more);
      freed := was + more;
      KeepsThen(c, [], mid, was, [], d, more, v);
      ghost var none: seq<Packet> := [];
      assert none + none == none;
    }
  }

  /** A device has got some of what was staged, from the front and in order, behind what it had. */
  predicate TakesPrefix(staged: seq<Packet>, before: seq<Packet>, after: seq<Packet>)
  {
    before <= after && after[|before|..] <= staged
  }

  lemma SubmitsPrefix(c: Ctx, q: nat, d: Ctx, freed: seq<Packet>)
    requires Shaped(c) && q < |c.stage| && Submits(c, q, c.stage[q], d, freed)
    ensures |d.dev| == |c.dev| && TakesPrefix(c.stage[q], c.dev[q], d.dev[q])
    ensures forall k :: 0 <= k < |c.dev| && k != q ==> d.dev[k] == c.dev[k]
  {
    var n := |c.stage[q]| - |freed|;
    assert d.dev[q][|c.dev[q]|..] == c.stage[q][..n];
  }

  /** Two collecting operations in a row. */
  lemma KeepsTake(c: Ctx, mid: Ctx, taken1: seq<Packet>, freed1: seq<Packet>,
                  d: Ctx, taken2: seq<Packet>, freed2: seq<Packet>, v: Watch)
    requires Shaped(c) && Shaped(mid) && Shaped(d)
    requires Keeps(c, [], mid, taken1, freed1, v) && Keeps(mid, [], d, taken2, freed2, v)
    ensures Keeps(c, [], d, taken1 + taken2, freed1 + freed2, v)
  {
    CntConcat(taken1, taken2, v.mbuf);
    CntConcat(freed1, freed2, v.mbuf);
    SnsConcat(taken1, taken2, v.sa);
    TakeOrder(QPipe(c, v), Sns(taken1, v.sa), QPipe(mid, v), Sns(taken2, v.sa), QPipe(d, v));
  }

  lemma {:induction false} TakeOrder(x: seq<nat>, t1: seq<nat>, y: seq<nat>, t2: seq<nat>, z: seq<nat>)
    requires Sub(t1 + y, x + []) && Sub(t2 + z, y + [])
    ensures Sub(t1 + t2 + z, x + [])
  {
    assert x + [] == x && y + [] == y;
    SubLeft(t1, t2 + z, y);
    assert t1 + (t2 + z) == t1 + t2 + z;
    SubTrans(t1 + t2 + z, t1 + y, x);
  }

  /** The packet that the device has finished, and esp_inbound_post or esp_outbound_post: decapsulated, or as it is. */
  function Post(p: Packet, inbound: bool): Packet
  {
    if inbound then p.(ver := p.inner, dst := p.innerDst) else p
  }

  /**
   * Finish the operations of one burst: one that the device or the post-processing fails is freed, the others are kept
   * in order.
   */
  method Finish(cops: seq<Packet>, inbound: bool, good: Packet -> bool, ghost v: Watch)
    returns (out: seq<Packet>, freed: seq<Packet>)
    ensures |out| + |freed| == |cops|
    ensures Cnt(out, v.mbuf) + Cnt(freed, v.mbuf) == Cnt(cops, v.mbuf)
    ensures Sub(Sns(out, v.sa), Sns(cops, v.sa))
    ensures Routed(cops, v) && (inbound ==> Sns(cops, v.sa) == []) ==> Routed(out, v)
    ensures forall r :: r in out ==> exists p :: p in cops && good(p) && GivenBackAs(p, inbound, r)
    ensures forall p :: p in freed ==> p in cops && !good(p)
  {
    out, freed := [], [];
    for j := 0 to |cops|
      invariant Finished(cops[..j], inbound, good, out, freed, v)
      invariant forall p :: p in freed ==> p in cops && !good(p)
    {
      var p := cops[j];
      assert cops[..j + 1] == cops[..j] + [p];
      if !good(p) {
        FailedOne(cops[..j], p, inbound, good, out, freed, v);
        freed := freed + [p];
      } else {
        FinishedOne(cops[..j], p, Post(p, inbound), inbound, good, out, freed, v);
        out := out + [Post(p, inbound)];
      }
    }
    assert cops[..|cops|] == cops;
  }

  /** What has become of the operations of a burst so far. */
  ghost predicate Finished(cops: seq<Packet>, inbound: bool, good: Packet -> bool, out: seq<Packet>,
                           freed: seq<Packet>, v: Watch)
  {
    && |out| + |freed| == |cops| && Cnt(out, v.mbuf) + Cnt(freed, v.mbuf) == Cnt(cops, v.mbuf)
    && Sub(Sns(out, v.sa), Sns(cops, v.sa))
    && (Routed(cops, v) && (inbound ==> Sns(cops, v.sa) == []) ==> Routed(out, v))
    && (forall r :: r in out ==> exists p :: p in cops && good(p) && GivenBackAs(p, inbound, r))
  }

  lemma {:induction false} FailedOne(cops: seq<Packet>, p: Packet, inbound: bool, good: Packet -> bool,
                                     out: seq<Packet>, freed: seq<Packet>, v: Watch)
    requires Finished(cops, inbound, good, out, freed, v)
    ensures Finished(cops + [p], inbound, good, out, freed + [p], v)
  {
    CntConcat(cops, [p], v.mbuf);
    SnsConcat(cops, [p], v.sa);
    RoutedConcat(cops, [p], v);
    CntConcat(freed, [p], v.mbuf);
    SubExtend(Sns(out, v.sa), Sns(cops, v.sa), Sns([p], v.sa));
  }

  lemma {:induction false} FinishedOne(cops: seq<Packet>, p: Packet, q: Packet, inbound: bool, good: Packet -> bool,
                                       out: seq<Packet>, freed: seq<Packet>, v: Watch)
    requires Finished(cops, inbound, good, out, freed, v) && q == Post(p, inbound) && good(p)
    ensures Finished(cops + [p], inbound, good, out + [q], freed, v)
  {
    CntConcat(cops, [p], v.mbuf);
    SnsConcat(cops, [p], v.sa);
    RoutedConcat(cops, [p], v);
    CntConcat(out, [q], v.mbuf);
    SnsConcat(out, [q], v.sa);
    RoutedConcat(out, [q], v);
    SubRight(Sns(out, v.sa), Sns(cops, v.sa), Sns([p], v.sa));
    assert Sns([q], v.sa) == Sns([p], v.sa) && Cnt([q], v.mbuf) == Cnt([p], v.mbuf);
    assert p in cops + [p] && GivenBackAs(p, inbound, q);
  }

  lemma SubExtend(a: seq<nat>, b: seq<nat>, y: seq<nat>)
    requires Sub(a, b)
    ensures Sub(a, b + y)
  {
    SubLeft(b, [], y);
    assert b + [] == b;
    SubTrans(a, b, b + y);
  }

  /** Finished operations that device q would hand back now. */
  function ReadyAt(ready: seq<nat>, q: nat): nat
  {
    if q < |ready| then ready[q] else 0
  }

  /** Poll one queue pair: take what is finished, at most `room`, off the front of its device. */
  method Poll(c: Ctx, q: nat, room: nat, inbound: bool, ready: nat, good: Packet -> bool, ghost v: Watch)
    returns (d: Ctx, out: seq<Packet>, freed: seq<Packet>)
    requires CtxOk(c) && q < |c.stage|
    ensures CtxOk(d) && d.last == c.last && d.stage == c.stage && |out| <= room
    ensures d.dev == c.dev[q := c.dev[q][Min(room, Min(ready, |c.dev[q]|))..]]
    ensures OnlyOn(c, v) ==> Keeps(c, [], d, out, freed, v) && ((inbound ==> v.qp >= |c.stage|) ==> Routed(out, v))
    ensures Collects(c, d, inbound, good, out, freed)
  {
    var k := Min(room, Min(ready, |c.dev[q]|));
    var cops := c.dev[q][..k];
    d := c.(dev := c.dev[q := c.dev[q][k..]], inFlight := c.inFlight[q := c.inFlight[q] - k]);
    RoutedSplit(c.dev[q], k, v);
    SnsSplit(c.dev[q], k, v.sa);
    out, freed := Finish(cops, inbound, good, v);
    forall r | r in out ensures CameFrom(c, inbound, good, r) {
      var p :| p in cops && good(p) && GivenBackAs(p, inbound, r);
      assert OnQp(c, q, p);
    }
    if OnlyOn(c, v) {
      PollKeeps(c, q, k, d, out, freed, v);
    }
  }

  lemma {:induction false} PollKeeps(c: Ctx, q: nat, k: nat, d: Ctx, out: seq<Packet>, freed: seq<Packet>, v: Watch)
    requires Shaped(c) && Shaped(d) && q < |c.stage| && k <= |c.dev[q]| && OnlyOn(c, v)
    requires d.dev == c.dev[q := c.dev[q][k..]] && d.stage == c.stage
    requires |out| + |freed| == k && Cnt(out, v.mbuf) + Cnt(freed, v.mbuf) == Cnt(c.dev[q][..k], v.mbuf)
    requires Sub(Sns(out, v.sa), Sns(c.dev[q][..k], v.sa))
    ensures Keeps(c, [], d, out, freed, v)
  {
    TableUpdate(c.dev, q, c.dev[q][k..], v.mbuf);
    CntSplit(c.dev[q], k, v.mbuf);
    RoutedSplit(c.dev[q], k, v);
    PollOrder(c, q, k, d, out, v);
  }

  lemma {:induction false} PollOrder(c: Ctx, q: nat, k: nat, d: Ctx, out: seq<Packet>, v: Watch)
    requires Shaped(c) && Shaped(d) && q < |c.stage| && k <= |c.dev[q]| && OnlyOn(c, v)
    requires d.dev == c.dev[q := c.dev[q][k..]] && d.stage == c.stage
    requires Sub(Sns(out, v.sa), Sns(c.dev[q][..k], v.sa)) && Routed(c.dev[q][k..], v)
    ensures OnlyOn(d, v) && Sub(Sns(out, v.sa) + QPipe(d, v), QPipe(c, v) + [])
  {
    SnsSplit(c.dev[q], k, v.sa);
    OnlyOnAt(c, d, q, v);
    assert QPipe(c, v) + [] == QPipe(c, v);
    var o, front := Sns(out, v.sa), Sns(c.dev[q][..k], v.sa);
    if q == v.qp {
      assert QPipe(c, v) == front + QPipe(d, v);
      SubRight(o, front, QPipe(d, v));
    } else {
      assert front == [] && Sns(c.dev[q][k..], v.sa) == [];
      assert o + QPipe(d, v) == QPipe(c, v);
      SubRefl(QPipe(c, v));
    }
  }

  /** The queue pair after i, wrapping at n. */
  function NextQp(i: nat, n: nat): nat
  {
    if i + 1 == n then 0 else i + 1
  }

  /** The queue pair k polls after `last`. */
  function Around(last: nat, k: nat, n: nat): nat
  {
    if k == 0 then last else NextQp(Around(last, k - 1, n), n)
  }

  lemma {:induction false} AroundClosed(last: nat, k: nat, n: nat)
    requires last < n && k <= n
    ensures Around(last, k, n) == if last + k < n then last + k else last + k - n
  {
    if k > 0 {
      AroundClosed(last, k - 1, n);
    }
  }

  /** What a poll with `ready` finished operations and room for some does to a device: it gives some if it has any. */
  predicate Delivered(before: seq<Packet>, ready: nat, after: seq<Packet>)
  {
    && |after| <= |before| && after == before[|before| - |after|..] && |before| - |after| <= ready
    && (ready > 0 && before != [] ==> |after| < |before|)
  }

  /** The queue pairs visited so far, in turn from last_qp on, have been polled, and no others. */
  predicate Visited(c: Ctx, ready: seq<nat>, visited: seq<nat>, dev: seq<seq<Packet>>)
  {
    && |dev| == |c.dev| && |visited| <= |c.dev|
    && (forall j :: 0 <= j < |visited| ==> visited[j] == Around(c.last, j, |c.dev|) < |c.dev|)
    && (forall i, j :: 0 <= i < j < |visited| ==> visited[i] != visited[j])
    && (forall q :: 0 <= q < |dev| ==>
          if q in visited then Delivered(c.dev[q], ReadyAt(ready, q), dev[q]) else dev[q] == c.dev[q])
  }

  lemma {:induction false} VisitOne(c: Ctx, ready: seq<nat>, visited: seq<nat>, dev: seq<seq<Packet>>, q: nat, k: nat)
    requires Visited(c, ready, visited, dev) && c.last < |c.dev| && |visited| < |c.dev|
    requires q == Around(c.last, |visited|, |c.dev|) < |dev| && k <= |dev[q]|
    requires k <= ReadyAt(ready, q) && (ReadyAt(ready, q) > 0 && dev[q] != [] ==> k > 0)
    ensures Visited(c, ready, visited + [q], dev[q := dev[q][k..]])
  {
    forall j | 0 <= j < |visited| ensures visited[j] != q {
      AroundClosed(c.last, j, |c.dev|);
      AroundClosed(c.last, |visited|, |c.dev|);
    }
  }

  /**
   * A whole call: what was visited, and that it polls at least once and stops only when full or all have been
   * polled.
   */
  predicate Collected(c: Ctx, max: nat, ready: seq<nat>, visited: seq<nat>, d: Ctx)
  {
    && Visited(c, ready, visited, d.dev) && d.stage == c.stage && d.last == Around(c.last, |visited|, |c.dev|)
    && (max > 0 && |c.dev| > 0 ==> |visited| > 0)
  }

  /**
   * ipsec_dequeue: go round the queue pairs from last_qp until max packets are in hand or all have been polled
   * once.
   */
  method Dequeue(c: Ctx, max: nat, inbound: bool, ready: seq<nat>, good: Packet -> bool, ghost v: Watch)
    returns (d: Ctx, out: seq<Packet>, freed: seq<Packet>, visited: seq<nat>)
    requires CtxOk(c)
    ensures CtxOk(d) && |out| <= max && Collected(c, max, ready, visited, d)
    ensures (|visited| == |c.stage| || |out| == max) && Gathered(c, d, out, freed, inbound, v)
    ensures Collects(c, d, inbound, good, out, freed)
  {
    d, out, freed, visited := c, [], [], [];
    var i, last := 0, c.last;
    GatheredNothing(c, inbound, v);
    while i < |c.stage| && |out| < max
      invariant CtxOk(d) && |out| <= max && d.last == c.last && d.stage == c.stage
      invariant Visited(c, ready, visited, d.dev) && |visited| == i && last == Around(c.last, i, |c.dev|)
      invariant last < |c.stage| || last == 0
      invariant i == 0 ==> |out| == 0
      invariant Gathered(c, d, out, freed, inbound, v) && Collects(c, d, inbound, good, out, freed)
    {
      var q := last;
      last := NextQp(q, |c.stage|);
      i := i + 1;
      d, out, freed := PollNext(c, d, out, freed, q, max, inbound, ready, good, visited, v);
      visited := visited + [q];
    }
    GatheredAnyCursor(c, d, last, out, freed, inbound, v);
    assert forall q, p :: OnQp(d.(last := last), q, p) ==> OnQp(d, q, p);
    d := d.(last := last);
  }

  /**
   * What is collected came off the queue pairs and went well, and they have nothing new; only what the device or the
   * post-processing failed is freed.
   */
  ghost predicate Collects(c: Ctx, d: Ctx, inbound: bool, good: Packet -> bool, out: seq<Packet>, freed: seq<Packet>)
  {
    && NoMore(c, d) && (forall r :: r in out ==> CameFrom(c, inbound, good, r))
    && (forall p :: p in freed ==> !good(p))
  }

  /** What the calls of a context's collecting side keep, seen from a watched SA that keeps to its own queue pair. */
  ghost predicate Gathered(c: Ctx, d: Ctx, out: seq<Packet>, freed: seq<Packet>, inbound: bool, v: Watch)
    requires Shaped(c) && Shaped(d)
  {
    OnlyOn(c, v) ==> Keeps(c, [], d, out, freed, v) && ((inbound ==> v.qp >= |c.stage|) ==> Routed(out, v))
  }

  lemma GatheredNothing(c: Ctx, inbound: bool, v: Watch)
    requires Shaped(c)
    ensures Gathered(c, c, [], [], inbound, v)
  {
    if OnlyOn(c, v) {
      KeepsNothing(c, v);
    }
  }

  lemma GatheredAnyCursor(c: Ctx, d: Ctx, last: nat, out: seq<Packet>, freed: seq<Packet>, inbound: bool, v: Watch)
    requires Shaped(c) && CtxOk(d) && (last < |d.stage| || last == 0) && Gathered(c, d, out, freed, inbound, v)
    ensures CtxOk(d.(last := last)) && Gathered(c, d.(last := last), out, freed, inbound, v)
  {
    if OnlyOn(c, v) {
      KeepsAnyCursor(c, d, last, out, freed, v);
    }
  }

  /** The body of the loop: poll the queue pair if it has anything in flight. */
  method PollNext(ghost c: Ctx, mid: Ctx, had: seq<Packet>, was: seq<Packet>, q: nat, max: nat, inbound: bool,
                  ready: seq<nat>, good: Packet -> bool, ghost visited: seq<nat>, ghost v: Watch)
    returns (d: Ctx, out: seq<Packet>, freed: seq<Packet>)
    requires CtxOk(c) && CtxOk(mid) && c.last < |c.dev| && |had| < max && mid.last == c.last && mid.stage == c.stage
    requires Visited(c, ready, visited, mid.dev) && |visited| < |c.dev|
             && q == Around(c.last, |visited|, |c.dev|) < |c.dev|
    requires Gathered(c, mid, had, was, inbound, v) && Collects(c, mid, inbound, good, had, was)
    ensures CtxOk(d) && |out| <= max && d.last == c.last && d.stage == c.stage
    ensures Collects(c, d, inbound, good, out, freed)
    ensures Visited(c, ready, visited + [q], d.dev) && Gathered(c, d, out, freed, inbound, v)
  {
    if mid.inFlight[q] != 0 {
      var more, bad;
      d, more, bad := Poll(mid, q, max - |had|, inbound, ReadyAt(ready, q), good, v);
      out, freed := had + more, was + bad;
      CollectsMore(c, mid, had, was, d, more, bad, inbound, good);
      VisitOne(c, ready, visited, mid.dev, q, Min(max - |had|, Min(ReadyAt(ready, q), |mid.dev[q]|)));
      if OnlyOn(c, v) {
        KeepsTake(c, mid, had, was, d, more, bad, v);
        RoutedConcat(had, more, v);
      }
    } else {
      d, out, freed := mid, had, was;
      VisitOne(c, ready, visited, mid.dev, q, 0);
      assert mid.dev[q := mid.dev[q][0..]] == mid.dev;
    }
  }

  lemma CollectsMore(c: Ctx, mid: Ctx, had: seq<Packet>, was: seq<Packet>, d: Ctx, more: seq<Packet>,
                     bad: seq<Packet>, inbound: bool, good: Packet -> bool)
    requires Collects(c, mid, inbound, good, had, was) && Collects(mid, d, inbound, good, more, bad)
    ensures Collects(c, d, inbound, good, had + more, was + bad)
  {
    forall r | r in more ensures CameFrom(c, inbound, good, r) {
      var q, p :| OnQp(mid, q, p) && good(p) && GivenBackAs(p, inbound, r);
      assert OnQp(c, q, p);
    }
  }

  lemma KeepsAnyCursor(c: Ctx, d: Ctx, last: nat, taken: seq<Packet>, freed: seq<Packet>, v: Watch)
    requires Shaped(c) && CtxOk(d) && (last < |d.stage| || last == 0) && Keeps(c, [], d, taken, freed, v)
    ensures CtxOk(d.(last := last)) && Keeps(c, [], d.(last := last), taken, freed, v)
  {
    assert QPipe(d.(last := last), v) == QPipe(d, v);
  }

  /** Polls still to come before queue pair q is reached from `last`. */
  function Ahead(last: nat, q: nat, n: nat): nat
    requires last < n && q < n
  {
    if q >= last then q - last else q + n - last
  }

  /** One call of ipsec_dequeue: the context it found, its arguments, what it visited, and what it left. */
  datatype Call = Call(before: Ctx, max: nat, ready: seq<nat>, visited: seq<nat>, after: Ctx)

  /** A run of calls on a context with n queue pairs. Between two calls anything may happen to it but to last_qp. */
  predicate Calls(calls: seq<Call>, n: nat)
  {
    && (forall i :: 0 <= i < |calls| ==> CallOk(calls[i], n))
    && (forall i :: 0 < i < |calls| ==> calls[i].before.last == calls[i - 1].after.last)
  }

  predicate CallOk(k: Call, n: nat)
  {
    && CtxOk(k.before) && |k.before.dev| == n && k.before.last < n && k.max > 0
    && Collected(k.before, k.max, k.ready, k.visited, k.after)
  }

  /**
   * Polling is fair: however little each call asks for and however full the other queue pairs are, every queue pair q
   * is visited, and so delivers if it has anything finished, within as many calls as it is ahead of last_qp.
   */
  lemma {:induction false} PollingIsFair(calls: seq<Call>, n: nat, w: nat, q: nat) returns (i: nat)
    requires Calls(calls, n) && w < |calls| && q < n && w + Ahead(calls[w].before.last, q, n) < |calls|
    ensures w <= i <= w + Ahead(calls[w].before.last, q, n) && q in calls[i].visited
    decreases |calls| - w
  {
    var k := calls[w];
    assert CallOk(k, n);
    var last, far := k.before.last, Ahead(k.before.last, q, n);
    AroundClosed(last, far, n);
    if far < |k.visited| {
      assert k.visited[far] == q;
      i := w;
    } else {
      AroundClosed(last, |k.visited|, n);
      assert calls[w + 1].before.last == k.after.last;
      i := PollingIsFair(calls, n, w + 1, q);
    }
  }

  /** What a caller hands to ipsec_dequeue: the queues as they are then, how much it wants, and what is finished. */
  datatype Input = Input(c: Ctx, max: nat, ready: seq<nat>)

  predicate InputsOk(inputs: seq<Input>, n: nat)
  {
    forall i :: 0 <= i < |inputs| ==> CtxOk(inputs[i].c) && |inputs[i].c.dev| == n && inputs[i].max > 0
  }

  predicate FairlyServed(calls: seq<Call>, n: nat)
  {
    forall w, q :: 0 <= w <= |calls| - n && 0 <= q < n ==> ServedWithin(calls, w, n, q)
  }

  /** One of n calls from the one numbered w on visits q. */
  predicate ServedWithin(calls: seq<Call>, w: nat, n: nat, q: nat)
    requires w + n <= |calls|
  {
    exists i :: w <= i < w + n && q in calls[i].visited
  }

  lemma AllServed(calls: seq<Call>, n: nat)
    requires Calls(calls, n)
    ensures FairlyServed(calls, n)
  {
    forall w, q | 0 <= w <= |calls| - n && 0 <= q < n ensures ServedWithin(calls, w, n, q) {
      assert CallOk(calls[w], n);
      var i := PollingIsFair(calls, n, w, q);
    }
  }

  lemma OneMoreCall(calls: seq<Call>, n: nat, k: Call)
    requires Calls(calls, n) && CallOk(k, n) && (|calls| > 0 ==> k.before.last == calls[|calls| - 1].after.last)
    ensures Calls(calls + [k], n)
  {
  }

  /**
   * A run of ipsec_dequeue with last_qp carried from call to call: any nb_qps calls in a row that each want
   * something visit every queue pair.
   */
  method DequeueRun(inputs: seq<Input>, n: nat, last0: nat, inbound: bool, good: Packet -> bool, ghost v: Watch)
    returns (last: nat, calls: seq<Call>)
    requires InputsOk(inputs, n) && last0 < n
    ensures |calls| == |inputs| && Calls(calls, n) && FairlyServed(calls, n)
    ensures last == if |calls| == 0 then last0 else calls[|calls| - 1].after.last
  {
    last, calls := last0, [];
    for i := 0 to |inputs|
      invariant |calls| == i && Calls(calls, n) && last < n
      invariant last == if i == 0 then last0 else calls[i - 1].after.last
    {
      var c := inputs[i].c.(last := last);
      var d, out, freed, visited := Dequeue(c, inputs[i].max, inbound, inputs[i].ready, good, v);
      AroundClosed(last, |visited|, n);
      OneMoreCall(calls, n, Call(c, inputs[i].max, inputs[i].ready, visited, d));
      last := d.last;
      calls := calls + [Call(c, inputs[i].max, inputs[i].ready, visited, d)];
    }
    AllServed(calls, n);
  }
}
