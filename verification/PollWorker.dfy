/**
 * The poll-mode worker of one lcore in legacy mode (ipsec-secgw.c): receive, classify, apply policy, encrypt or
 * decrypt through the crypto queues, route, buffer and transmit. Devices, sessions and transforms may accept or
 * fail as they like.
 */
module PollWorker {
  import opened Common
  import opened Packets
  import opened CryptoContext
  import opened TxPorts
  import opened Traffic
  import opened Rulings

  /** The watched SA is a look-aside tunnel of the outbound table; its home port is where its outer header is routed. */
  predicate Watches(g: Config, v: Watch)
  {
    && v.ports == g.ports && v.ver in {4, 6}
    && v.home == Lookup(if v.ver == 4 then g.rt4 else g.rt6, v.dst).UnwrapOr(g.ports)
  }

  /** Inbound contexts hold nothing that an outbound SA numbered: watched from a queue pair that is not there. */
  function Inside(g: Config, v: Watch): Watch
  {
    v.(qp := g.qpsIn)
  }

  ghost predicate TablesOk(g: Config, v: Watch)
  {
    && (forall p :: g.sad(p).Some? ==> g.sad(p).value < |g.sasIn|)
    && (forall i :: 0 <= i < |g.sasIn| ==> SaOk(g.sasIn[i], i, true, g.ports, Inside(g, v)))
    && (forall i :: 0 <= i < |g.sasOut| ==> SaOk(g.sasOut[i], i, false, g.ports, v))
  }

  ghost predicate Routable(g: Config, v: Watch)
  {
    Watches(g, v) && RoutesOk(g.rt4, g.ports) && RoutesOk(g.rt6, g.ports)
  }

  /** A policy result names an SA by index plus one. */
  ghost predicate VerdictsOk(g: Config)
  {
    && (g.spOut4.Some? ==> forall p :: VerdictOk(g, g.spOut4.value(p)))
    && (g.spOut6.Some? ==> forall p :: VerdictOk(g, g.spOut6.value(p)))
  }

  /** What the configuration has to see to. */
  ghost predicate Deployed(g: Config, v: Watch)
  {
    Routable(g, v) && TablesOk(g, v) && VerdictsOk(g)
  }

  predicate VerdictOk(g: Config, res: nat)
  {
    PolicyLane(res) == Esp ==> res - 1 < |g.sasOut|
  }

  /** What a configuration has to see to, whoever watches: positions in tables are in range, and so are ports in use. */
  ghost predicate ConfigOk(g: Config)
  {
    && (forall p :: g.sad(p).Some? ==> g.sad(p).value < |g.sasIn|)
    && (forall i :: 0 <= i < |g.sasIn| && Inline(g.sasIn[i]) ==> g.sasIn[i].port < g.ports)
    && (forall i :: 0 <= i < |g.sasOut| && Inline(g.sasOut[i]) ==> g.sasOut[i].port < g.ports)
    && RoutesOk(g.rt4, g.ports) && RoutesOk(g.rt6, g.ports) && VerdictsOk(g)
  }

  /** The point of view of mbuf x and of outbound SA i. */
  function WatchOf(g: Config, x: nat, i: nat): Watch
    requires i < |g.sasOut|
  {
    var sa := g.sasOut[i];
    Watch(x, i, sa.qp, sa.ver, sa.dst, Lookup(if sa.ver == 4 then g.rt4 else g.rt6, sa.dst).UnwrapOr(g.ports), g.ports)
  }

  /** The point of view of mbuf x alone, with an SA that is not there. */
  function MbufOf(g: Config, x: nat): Watch
  {
    Watch(x, |g.sasOut|, 0, 4, 0, Lookup(g.rt4, 0).UnwrapOr(g.ports), g.ports)
  }

  predicate Watchable(sa: SaInfo)
  {
    sa.kind == LookasideNone && sa.tunnel && sa.ver in {4, 6}
  }

  /** So every mbuf can be watched, in every configuration, and every look-aside tunnel SA. */
  lemma EveryMbufAndTunnel(g: Config, x: nat)
    requires ConfigOk(g)
    ensures Deployed(g, MbufOf(g, x))
    ensures forall i :: 0 <= i < |g.sasOut| && Watchable(g.sasOut[i]) ==> Deployed(g, WatchOf(g, x, i))
  {
  }

  /**
   * The lcore's queues, buffers and counters; the mbufs it has received; those it has freed, before a policy saw
   * them, by order of one, and after one had let them go on; and the decisions its policies have made.
   */
  datatype State = State(inb: Ctx, outb: Ctx, ports: Ports, seqs: seq<nat>, rx: nat, dropped: nat,
                         arrived: seq<Packet>, unread: seq<Packet>, denied: seq<Packet>, unsent: seq<Packet>,
                         rulings: seq<Ruling>)

  ghost predicate QueuesOk(g: Config, v: Watch, s: State)
  {
    && CtxOk(s.inb) && |s.inb.stage| == g.qpsIn && OnlyOn(s.inb, Inside(g, v))
    && CtxOk(s.outb) && |s.outb.stage| == g.qpsOut && OnlyOn(s.outb, v)
    && PortsOk(s.ports) && |s.ports.tx| == g.ports && Homed(s.ports, v)
    && |s.seqs| == |g.sasOut|
  }

  /**
   * Every mbuf received has exactly one place: freed, sent, buffered for transmission, staged, or in a crypto device.
   * In numbers, and for the watched mbuf by name.
   */
  ghost predicate Books(v: Watch, s: State)
  {
    && s.rx == |s.arrived| && s.dropped == |s.unread| + |s.denied| + |s.unsent|
    && s.rx == s.dropped + HeldLen(s)
    && Cnt(s.arrived, v.mbuf) == Cnt(s.unread, v.mbuf) + Cnt(s.denied, v.mbuf) + Cnt(s.unsent, v.mbuf) + HeldCnt(s, v)
  }

  /** Mbufs in the worker's hands, or sent. */
  function HeldLen(s: State): nat
  {
    PortsLen(s.ports) + CtxLen(s.inb) + CtxLen(s.outb)
  }

  function HeldCnt(s: State, v: Watch): nat
  {
    OutCnt(s, v) + CtxCnt(s.inb, v)
  }

  /** Copies of the watched mbuf on their way out: at a port, or on the outbound side. */
  function OutCnt(s: State, v: Watch): nat
  {
    PortsCnt(s.ports, v) + CtxCnt(s.outb, v)
  }

  /**
   * Every decision is the one its table gives; the watched mbuf has been freed by order of a policy as often as one
   * was against it, and has gone on as often as one was for it.
   */
  ghost predicate Ruled(g: Config, v: Watch, s: State)
  {
    && AllTrue(g, s.rulings)
    && Cnt(s.denied, v.mbuf) == Denials(s.rulings, v.mbuf)
    && OutCnt(s, v) + Cnt(s.unsent, v.mbuf) == Grants(s.rulings, v.mbuf)
  }

  /**
   * Every packet at a port is there because a decision lets it go there; every packet on the outbound side, because
   * one was to protect it under an SA of that queue pair, which took it.
   */
  ghost predicate Justified(g: Config, s: State)
  {
    && (forall w, p :: On(s.ports, w, p) ==> Sendable(g, s.rulings, w, p))
    && (forall q, p :: OnQp(s.outb, q, p) ==> Queued(g, s.rulings, q, p))
  }

  /**
   * The watched SA's numbers, from the wire back to its staging buffer and on to the next one it will give,
   * increase.
   */
  ghost predicate Order(v: Watch, s: State)
  {
    Orderly(v, s.ports, s.outb, s.seqs)
  }

  predicate Orderly(v: Watch, a: Ports, c: Ctx, seqs: seq<nat>)
  {
    v.sa < |seqs| ==> Piped(TxPipe(a, v), QPipe(c, v), seqs[v.sa] + 1)
  }

  /** Numbers at the port, then numbers on the way to it, then the next one: they go up. */
  predicate Piped(x: seq<nat>, q: seq<nat>, next: nat)
  {
    Increasing(x + q + [next])
  }

  ghost predicate Good(g: Config, v: Watch, s: State)
  {
    QueuesOk(g, v, s) && Books(v, s) && Order(v, s) && Ruled(g, v, s) && Justified(g, s)
  }

  lemma StillIncreasing(a: seq<nat>, b: seq<nat>, y: seq<nat>)
    requires Increasing(b + y) && Sub(a, b)
    ensures Increasing(a + y)
  {
    SubRight(a, b, y);
    SubIncreasing(a + y, b + y);
  }

  /** Numbers handed from queue to port: what the queue lost the port may have gained, behind what it had. */
  lemma {:induction false} HandOver(x: seq<nat>, q: seq<nat>, taken: seq<nat>, x': seq<nat>, q': seq<nat>, z: nat)
    requires Piped(x, q, z) && Sub(x', x + taken) && Sub(taken + q', q + [])
    ensures Piped(x', q', z)
  {
    assert q + [] == q;
    SubRight(x', x + taken, q');
    SubLeft(x, taken + q', q);
    assert x + taken + q' == x + (taken + q');
    SubTrans(x' + q', x + taken + q', x + q);
    StillIncreasing(x' + q', x + q, [z]);
  }

  /** Numbers given out after all that are in the pipe go in at its end. */
  lemma NewNumbers(x: seq<nat>, lo: nat, sns: seq<nat>, hi: nat)
    requires Increasing(x + [lo + 1]) && Between(lo, sns, hi)
    ensures Increasing(x + sns + [hi + 1])
  {
    var a, b, c := x + [lo + 1], [lo] + sns + [hi + 1], x + sns + [hi + 1];
    forall i | 0 <= i < |c| - 1 ensures c[i] < c[i + 1] {
      if i + 1 < |x| {
        assert c[i] == a[i] && c[i + 1] == a[i + 1];
        IncreasingAt(a, i, i + 1);
      } else if i >= |x| {
        assert c[i] == b[i - |x| + 1] && c[i + 1] == b[i - |x| + 2];
        IncreasingAt(b, i - |x| + 1, i - |x| + 2);
      } else {
        assert c[i] == a[i] && a[i + 1] == lo + 1 && c[i + 1] == b[1] && b[0] == lo;
        IncreasingAt(a, i, i + 1);
        IncreasingAt(b, 0, 1);
      }
    }
    IncreasingByNeighbours(c);
  }

  lemma EnqueueKeepsOrder(x: seq<nat>, q: seq<nat>, q': seq<nat>, lo: nat, sns: seq<nat>, hi: nat)
    requires Piped(x, q, lo + 1) && Between(lo, sns, hi) && Sub(q', q + sns)
    ensures Piped(x, q', hi + 1)
  {
    NewNumbers(x + q, lo, sns, hi);
    StagedLast(x, q, q', sns);
    StillIncreasing(x + q', x + q + sns, [hi + 1]);
  }

  lemma StagedLast(x: seq<nat>, q: seq<nat>, q': seq<nat>, sns: seq<nat>)
    requires Sub(q', q + sns)
    ensures Sub(x + q', x + q + sns)
  {
    SubLeft(x, q', q + sns);
    assert x + (q + sns) == x + q + sns;
  }

  /** route4_pkts and then route6_pkts. The traffic arrays have room for two bursts. */
  method RouteBoth(g: Config, a: Ports, ip4: seq<Packet>, ip6: seq<Packet>, ghost v: Watch)
    returns (b: Ports, freed: seq<Packet>)
    requires Routable(g, v)
    requires PortsOk(a) && |a.tx| == g.ports && Homed(a, v) && Routed(ip4, v) && Routed(ip6, v)
    requires |ip4| <= 2 * MAX_PKT_BURST && |ip6| <= 2 * MAX_PKT_BURST
    requires (v.ver != 4 ==> Sns(ip4, v.sa) == []) && (v.ver != 6 ==> Sns(ip6, v.sa) == [])
    ensures PortsOk(b) && Carries(a, ip4 + ip6, b, freed, v)
    ensures forall w, p :: On(b, w, p) ==> On(a, w, p) || RoutedTo(g, ip4, ip6, w, p)
    ensures SentUnless(g, a, ip4, ip6, freed)
  {
    var mid, f1, f2;
    ghost var s1, s2;
    mid, f1, s1 := Route(a, ip4, g.rt4, g.mtu, v.home, v);
    b, f2, s2 := Route(mid, ip6, g.rt6, g.mtu, v.home, v);
    freed := f1 + f2;
    CarriesThen(a, ip4, mid, f1, ip6, b, f2, v);
    forall w, p | On(b, w, p) ensures On(a, w, p) || RoutedTo(g, ip4, ip6, w, p) {
      assert GainsAt(a, ip4, g.rt4, g.mtu, mid, w, p) && GainsAt(mid, ip6, g.rt6, g.mtu, b, w, p);
    }
    BothSent(g, a, ip4, mid, f1, ip6, b, f2);
  }

  /** Routing frees only packets that are too long or have no port, as long as no tx buffer fills up. */
  ghost predicate SentUnless(g: Config, a: Ports, ip4: seq<Packet>, ip6: seq<Packet>, freed: seq<Packet>)
  {
    forall p :: SentUnlessStuck(g, a, ip4, ip6, freed, p)
  }

  ghost predicate SentUnlessStuck(g: Config, a: Ports, ip4: seq<Packet>, ip6: seq<Packet>, freed: seq<Packet>,
                                  p: Packet)
  {
    p in freed ==>
      || (p in ip4 && (p.len > g.mtu || Unrouted(p, g.rt4))) || (p in ip6 && (p.len > g.mtu || Unrouted(p, g.rt6)))
      || TxMayFill(a, |ip4| + |ip6|)
  }

  lemma BothSent(g: Config, a: Ports, ip4: seq<Packet>, mid: Ports, f1: seq<Packet>, ip6: seq<Packet>, b: Ports,
                 f2: seq<Packet>)
    requires Spares(a, ip4, g.rt4, g.mtu, mid, f1) && Spares(mid, ip6, g.rt6, g.mtu, b, f2)
    ensures SentUnless(g, a, ip4, ip6, f1 + f2)
  {
    TxPorts.FillsStill(a, mid, |ip4|, |ip6|);
    var freed := f1 + f2;
    forall p ensures SentUnlessStuck(g, a, ip4, ip6, freed, p) {
      assert SparesOne(a, ip4, g.rt4, g.mtu, f1, p) && SparesOne(mid, ip6, g.rt6, g.mtu, f2, p);
    }
  }

  /** A packet of these two lists fits, and its own route, in its list's family, leads to port w. */
  predicate RoutedTo(g: Config, ip4: seq<Packet>, ip6: seq<Packet>, w: nat, p: Packet)
  {
    p.len <= g.mtu && ((p in ip4 && BoundFor(p, g.rt4, w)) || (p in ip6 && BoundFor(p, g.rt6, w)))
  }

  /** What a call adds to the worker's records. */
  datatype Moves = Moves(came: seq<Packet>, unread: seq<Packet>, denied: seq<Packet>, unsent: seq<Packet>,
                         rulings: seq<Ruling>)

  /** The worker after a call. */
  function After(s: State, inb: Ctx, outb: Ctx, ports: Ports, seqs: seq<nat>, m: Moves): State
  {
    State(inb, outb, ports, seqs, s.rx + |m.came|, s.dropped + |m.unread| + |m.denied| + |m.unsent|,
        s.arrived + m.came, s.unread + m.unread, s.denied + m.denied, s.unsent + m.unsent, s.rulings + m.rulings)
  }

  /** A context between calls, of the inbound side and of the outbound side. */
  ghost predicate InCtx(g: Config, v: Watch, c: Ctx)
  {
    CtxOk(c) && |c.stage| == g.qpsIn && OnlyOn(c, Inside(g, v))
  }

  ghost predicate OutCtx(g: Config, v: Watch, c: Ctx)
  {
    CtxOk(c) && |c.stage| == g.qpsOut && OnlyOn(c, v)
  }

  /** Packets went into a context; others came out, or were freed. */
  predicate Passed(c: Ctx, given: seq<Packet>, d: Ctx, out: seq<Packet>, freed: seq<Packet>, v: Watch)
  {
    && CtxLen(d) + |out| + |freed| == CtxLen(c) + |given|
    && CtxCnt(d, v) + Cnt(out, v.mbuf) + Cnt(freed, v.mbuf) == CtxCnt(c, v) + Cnt(given, v.mbuf)
  }

  /** A list was dealt out to two others and the freed ones. */
  predicate Dealt(ps: seq<Packet>, a: seq<Packet>, b: seq<Packet>, freed: seq<Packet>, v: Watch)
  {
    && |a| + |b| + |freed| == |ps|
    && Cnt(a, v.mbuf) + Cnt(b, v.mbuf) + Cnt(freed, v.mbuf) == Cnt(ps, v.mbuf)
  }

  /** Each protected packet has an SA of the table. */
  predicate Assigned(g: Config, esp: seq<Packet>, idx: seq<Option<nat>>)
  {
    |idx| == |esp| && forall i :: 0 <= i < |idx| ==> idx[i].Some? && idx[i].value < |g.sasOut|
  }

  /** The watched SA's numbers went in behind those it had given before. */
  predicate NumberedOn(c: Ctx, seqs: seq<nat>, d: Ctx, seqs': seq<nat>, sns: seq<nat>, v: Watch)
  {
    |seqs'| == |seqs| && Sub(QPipe(d, v), QPipe(c, v) + sns)
        && (v.sa < |seqs| ==> Between(seqs[v.sa], sns, seqs'[v.sa]))
  }

  /** Mbufs changed hands between ports, contexts and the free lists. */
  lemma Balanced(v: Watch, s: State, t: State, m: Moves)
    requires Books(v, s) && t == After(s, t.inb, t.outb, t.ports, t.seqs, m)
    requires HeldLen(t) + |m.unread| + |m.denied| + |m.unsent| == HeldLen(s) + |m.came|
    requires HeldCnt(t, v) + Cnt(m.unread, v.mbuf) + Cnt(m.denied, v.mbuf) + Cnt(m.unsent, v.mbuf)
             == HeldCnt(s, v) + Cnt(m.came, v.mbuf)
    ensures Books(v, t)
  {
    CntConcat(s.arrived, m.came, v.mbuf);
    CntConcat(s.unread, m.unread, v.mbuf);
    CntConcat(s.denied, m.denied, v.mbuf);
    CntConcat(s.unsent, m.unsent, v.mbuf);
  }

  /** The decisions of a call account for what it freed by order of a policy and for what it let go on. */
  lemma RuledMore(g: Config, v: Watch, s: State, t: State, m: Moves)
    requires Ruled(g, v, s) && t == After(s, t.inb, t.outb, t.ports, t.seqs, m)
    requires AllTrue(g, m.rulings) && Cnt(m.denied, v.mbuf) == Denials(m.rulings, v.mbuf)
    requires OutCnt(t, v) + Cnt(m.unsent, v.mbuf) == OutCnt(s, v) + Grants(m.rulings, v.mbuf)
    ensures Ruled(g, v, t)
  {
    RulingsConcat(s.rulings, m.rulings, v.mbuf);
    CntConcat(s.denied, m.denied, v.mbuf);
    CntConcat(s.unsent, m.unsent, v.mbuf);
  }

  /** What is new at a port or on the outbound side is so by the decisions of the call, or earlier ones. */
  lemma JustifiedMore(g: Config, s: State, t: State, m: Moves)
    requires Justified(g, s) && t == After(s, t.inb, t.outb, t.ports, t.seqs, m)
    requires forall w, p :: On(t.ports, w, p) ==>
               On(s.ports, w, p) || Sendable(g, s.rulings, w, p) || Sendable(g, m.rulings, w, p)
    requires forall q, p :: OnQp(t.outb, q, p) ==> OnQp(s.outb, q, p) || Queued(g, m.rulings, q, p)
    ensures Justified(g, t)
  {
    forall w, p | On(t.ports, w, p) ensures Sendable(g, t.rulings, w, p) {
      SendableStill(g, s.rulings, m.rulings, w, p);
    }
    forall q, p | OnQp(t.outb, q, p) ensures Queued(g, t.rulings, q, p) {
      QueuedStill(g, s.rulings, m.rulings, q, p);
    }
  }

  lemma Ordered(v: Watch, s: State, t: State, taken: seq<nat>)
    requires Order(v, s) && t.seqs == s.seqs
    requires Sub(TxPipe(t.ports, v), TxPipe(s.ports, v) + taken) && Sub(taken + QPipe(t.outb, v), QPipe(s.outb, v) + [])
    ensures Order(v, t)
  {
    StillOrdered(v, s.ports, s.outb, t.ports, t.outb, s.seqs, taken);
  }

  lemma {:induction false} StillOrdered(v: Watch, a: Ports, c: Ctx, b: Ports, d: Ctx, seqs: seq<nat>, taken: seq<nat>)
    requires Orderly(v, a, c, seqs)
    requires Sub(TxPipe(b, v), TxPipe(a, v) + taken) && Sub(taken + QPipe(d, v), QPipe(c, v) + [])
    ensures Orderly(v, b, d, seqs)
  {
    if v.sa < |seqs| {
      PipeHandOver(v, a, c, b, d, taken, seqs[v.sa] + 1);
    }
  }

  lemma PipeHandOver(v: Watch, a: Ports, c: Ctx, b: Ports, d: Ctx, taken: seq<nat>, z: nat)
    requires Piped(TxPipe(a, v), QPipe(c, v), z)
    requires Sub(TxPipe(b, v), TxPipe(a, v) + taken) && Sub(taken + QPipe(d, v), QPipe(c, v) + [])
    ensures Piped(TxPipe(b, v), QPipe(d, v), z)
  {
    HandOver(TxPipe(a, v), QPipe(c, v), taken, TxPipe(b, v), QPipe(d, v), z);
  }

  /** Clean packets do not disturb the order. */
  lemma {:induction false} OrderedIn(v: Watch, s: State, t: State)
    requires Order(v, s) && t.seqs == s.seqs && t.outb == s.outb
    requires Sub(TxPipe(t.ports, v), TxPipe(s.ports, v) + [])
    ensures Order(v, t)
  {
    if v.sa < |s.seqs| {
      NothingNew(TxPipe(s.ports, v), QPipe(s.outb, v), TxPipe(t.ports, v), s.seqs[v.sa] + 1);
    }
  }

  /** Collect from the outbound crypto devices and split by version. */
  method CollectOutbound(c: Ctx, w: World, ghost v: Watch)
    returns (d: Ctx, ip4: seq<Packet>, ip6: seq<Packet>, freed: seq<Packet>)
    requires CtxOk(c) && OnlyOn(c, v) && v.ver in {4, 6}
    ensures CtxOk(d) && Keeps(c, [], d, ip4 + ip6, freed, v)
    ensures Routed(ip4, v) && Routed(ip6, v) && |ip4 + ip6| <= 2 * MAX_PKT_BURST
    ensures (v.ver != 4 ==> Sns(ip4, v.sa) == []) && (v.ver != 6 ==> Sns(ip6, v.sa) == [])
    ensures NoMore(c, d) && (forall p :: p in ip4 ==> p.ver == 4 && CameFrom(c, false, w.good, p))
    ensures forall p :: p in ip6 ==> p.ver == 6 && CameFrom(c, false, w.good, p)
    ensures forall p :: p in freed ==> !w.good(p) || NoVersion(p)
  {
    var out, f1, visited, esp, f2;
    d, out, f1, visited := Dequeue(c, 2 * MAX_PKT_BURST, false, w.ready, w.good, v);
    esp, ip4, ip6, f2 := DealOut(out, SplitLane);
    freed := f1 + f2;
    SplitOrder(out, v);
    SplitBooks(out, v);
    CntConcat(f1, f2, v.mbuf);
    PickIn(out, SplitLane, Ip4);
    PickIn(out, SplitLane, Ip6);
    PickIn(out, SplitLane, Gone);
  }

  /** A lane has the packets of a list that are for it. */
  lemma {:induction false} PickIn(ps: seq<Packet>, f: Packet -> Lane, l: Lane)
    ensures forall p :: p in Pick(ps, f, l) <==> p in ps && f(p) == l
  {
    if ps != [] {
      PickIn(ps[1..], f, l);
      assert forall p :: p in ps <==> p == ps[0] || p in ps[1..];
    }
  }

  /** split46_traffic: nothing lost, and the watched SA's packets stay in order. */
  lemma SplitBooks(ps: seq<Packet>, v: Watch)
    requires Routed(ps, v) && v.ver in {4, 6}
    ensures var ip4, ip6, gone := Pick(ps, SplitLane, Ip4), Pick(ps, SplitLane, Ip6), Pick(ps, SplitLane, Gone);
            && |ip4 + ip6| + |gone| == |ps| && Cnt(ip4 + ip6, v.mbuf) + Cnt(gone, v.mbuf) == Cnt(ps, v.mbuf)
            && Sns(ip4 + ip6, v.sa) == Sns(ps, v.sa)
  {
    var ip4, ip6 := Pick(ps, SplitLane, Ip4), Pick(ps, SplitLane, Ip6);
    PickAll(ps, SplitLane, v.mbuf);
    NoEsp(ps);
    SplitOrder(ps, v);
    CntConcat(ip4, ip6, v.mbuf);
    SnsConcat(ip4, ip6, v.sa);
  }

  lemma {:induction false} NoEsp(ps: seq<Packet>)
    ensures Pick(ps, SplitLane, Esp) == []
  {
    if ps != [] {
      NoEsp(ps[1..]);
    }
  }

  /** drain_outbound_crypto_queues: collect, split by version, route. */
  method OutboundDrained(g: Config, s: State, w: World, ghost v: Watch) returns (t: State)
    requires Routable(g, v) && Good(g, v, s)
    ensures Good(g, v, t) && t.arrived == s.arrived && t.seqs == s.seqs && t.rulings == s.rulings
    ensures t.unread == s.unread && DrainedOutFor(g, s, t, w) && SentGood(s, t, w)
  {
    var outb, ip4, ip6, f1 := CollectOutbound(s.outb, w, v);
    var ports, f2 := RouteBoth(g, s.ports, ip4, ip6, v);
    var m := Moves([], [], [], f1 + f2, []);
    t := After(s, s.inb, outb, ports, s.seqs, m);
    CntConcat(f1, f2, v.mbuf);
    SameRecords(s, t, m);
    Balanced(v, s, t, m);
    Ordered(v, s, t, Sns(ip4 + ip6, v.sa));
    RuledMore(g, v, s, t, m);
    DrainedJustified(g, s, t, w, ip4, ip6, m);
    assert |ip4 + ip6| + |f1| == CtxLen(s.outb) - CtxLen(t.outb);
    DrainedCauses(g, s, t, w, ip4, ip6, f1, f2);
  }

  /** New on one of the worker's lists. */
  function New(before: seq<Packet>, after: seq<Packet>): seq<Packet>
  {
    if |before| <= |after| then after[|before|..] else []
  }

  /**
   * What is freed on collecting from outbound devices: what failed there or is no IP packet; and in routing, what is
   * too long or has no route, or more if what was collected may fill a tx buffer.
   */
  ghost predicate DrainedOutFor(g: Config, s: State, t: State, w: World)
  {
    && s.unsent <= t.unsent
    && forall p :: p in New(s.unsent, t.unsent) ==> DrainedOutCause(g, s, w, CtxLen(s.outb) - CtxLen(t.outb), p)
  }

  ghost predicate DrainedOutCause(g: Config, s: State, w: World, n: int, p: Packet)
  {
    || !w.good(p) || NoVersion(p) || p.len > g.mtu || Unrouted(p, if p.ver == 4 then g.rt4 else g.rt6)
    || (n >= 0 && TxMayFill(s.ports, n))
  }

  lemma DrainedCauses(g: Config, s: State, t: State, w: World, ip4: seq<Packet>, ip6: seq<Packet>, f1: seq<Packet>,
                      f2: seq<Packet>)
    requires t.unsent == s.unsent + (f1 + f2) && |ip4| + |ip6| <= CtxLen(s.outb) - CtxLen(t.outb)
    requires (forall p :: p in ip4 ==> p.ver == 4) && (forall p :: p in ip6 ==> p.ver == 6)
    requires (forall p :: p in f1 ==> !w.good(p) || NoVersion(p)) && SentUnless(g, s.ports, ip4, ip6, f2)
    ensures DrainedOutFor(g, s, t, w)
  {
    assert New(s.unsent, t.unsent) == f1 + f2;
    FillsMore(s.ports, |ip4| + |ip6|, CtxLen(s.outb) - CtxLen(t.outb));
    forall p | p in f1 + f2 ensures DrainedOutCause(g, s, w, CtxLen(s.outb) - CtxLen(t.outb), p) {
      assert SentUnlessStuck(g, s.ports, ip4, ip6, f2, p);
    }
  }

  lemma FillsMore(a: Ports, n: nat, m: nat)
    requires n <= m
    ensures TxMayFill(a, n) ==> TxMayFill(a, m)
  {
    if w: nat :| w < |a.tx| && |a.tx[w]| + n >= MAX_PKT_BURST {
      assert |a.tx[w]| + m >= MAX_PKT_BURST;
    }
  }

  /** What is new at the ports came off an outbound queue pair, and its processing went well. */
  ghost predicate SentGood(s: State, t: State, w: World)
  {
    forall port, p :: On(t.ports, port, p) ==> On(s.ports, port, p) || CameFrom(s.outb, false, w.good, p)
  }

  lemma DrainedJustified(g: Config, s: State, t: State, w: World, ip4: seq<Packet>, ip6: seq<Packet>, m: Moves)
    requires Justified(g, s) && t == After(s, t.inb, t.outb, t.ports, t.seqs, m) && NoMore(s.outb, t.outb)
    requires forall p :: p in ip4 ==> p.ver == 4 && CameFrom(s.outb, false, w.good, p)
    requires forall p :: p in ip6 ==> p.ver == 6 && CameFrom(s.outb, false, w.good, p)
    requires forall w, p :: On(t.ports, w, p) ==> On(s.ports, w, p) || RoutedTo(g, ip4, ip6, w, p)
    ensures Justified(g, t) && SentGood(s, t, w)
  {
    forall port, p | RoutedTo(g, ip4, ip6, port, p) ensures Sendable(g, s.rulings, port, p) {
      QueuedIsSendable(g, s, w, port, p);
    }
    JustifiedMore(g, s, t, m);
  }

  /** What comes off the outbound side may go where the header now in front is routed. */
  lemma QueuedIsSendable(g: Config, s: State, w: World, port: nat, p: Packet)
    requires Justified(g, s) && CameFrom(s.outb, false, w.good, p) && p.len <= g.mtu
    requires BoundFor(p, if p.ver == 4 then g.rt4 else g.rt6, port)
    ensures Sendable(g, s.rulings, port, p)
  {
    var q, o :| OnQp(s.outb, q, o) && w.good(o) && GivenBackAs(o, false, p);
    var r :| r in s.rulings && Protected(g, r, Some(q), p);
    assert Cleared(g, r, port, p);
  }

  /** Where a packet's outer header counts, both points of view agree. */
  lemma {:induction false} RoutedInside(g: Config, ps: seq<Packet>, v: Watch)
    ensures Routed(ps, Inside(g, v)) <==> Routed(ps, v)
  {
    if ps != [] {
      RoutedInside(g, ps[1..], v);
    }
  }

  /** Where there is a table, it lets these packets pass and not those; where there is none, all pass. */
  predicate Sifted(sp: Option<(Packet, bool) -> bool>, kept: seq<Packet>, gone: seq<Packet>, clear: bool)
  {
    match sp
    case None => gone == []
    case Some(f) => (forall p :: p in kept ==> f(p, clear)) && (forall p :: p in gone ==> !f(p, clear))
  }

  /**
   * inbound_sp_sa as the pipeline sees it: some packets stay, in order, the others are freed; no table lets all
   * stay.
   */
  method InPolicy(sp: Option<(Packet, bool) -> bool>, ps: seq<Packet>, clear: bool, ghost v: Watch)
    returns (kept: seq<Packet>, gone: seq<Packet>)
    requires Clean(ps, v)
    ensures Dealt(ps, kept, [], gone, v) && Clean(kept, v) && Sifted(sp, kept, gone, clear) && Parted(ps, kept, gone)
  {
    kept, gone := ps, [];
    if sp.Some? {
      var f := (p: Packet) => if sp.value(p, clear) then Ip4 else Gone;
      var esp, ip6;
      esp, kept, ip6, gone := DealOut(ps, f);
      PickAll(ps, f, v.mbuf);
      LaneEmpty(ps, f, Esp);
      LaneEmpty(ps, f, Ip6);
      PickClean(ps, f, Ip4, v);
      PickClean(ps, f, Gone, v);
      PickIn(ps, f, Ip4);
      PickIn(ps, f, Gone);
    }
  }

  /** The packets of a list are those of two others. */
  predicate Parted(ps: seq<Packet>, a: seq<Packet>, b: seq<Packet>)
  {
    (forall p :: p in ps ==> p in a || p in b) && (forall p :: p in a ==> p in ps) && (forall p :: p in b ==> p in ps)
  }

  lemma {:induction false} LaneEmpty(ps: seq<Packet>, f: Packet -> Lane, l: Lane)
    requires forall p :: f(p) != l
    ensures Pick(ps, f, l) == []
  {
    if ps != [] {
      LaneEmpty(ps[1..], f, l);
    }
  }

  /** A lane of packets the watched SA has not numbered. */
  lemma {:induction false} PickClean(ps: seq<Packet>, f: Packet -> Lane, l: Lane, v: Watch)
    requires Sns(ps, v.sa) == [] && Routed(ps, v)
    ensures Sns(Pick(ps, f, l), v.sa) == [] && Routed(Pick(ps, f, l), v)
    ensures forall p :: p in Pick(ps, f, l) ==> f(p) == l
  {
    if ps != [] {
      PickClean(ps[1..], f, l, v);
      var rest := Pick(ps[1..], f, l);
      SnsConcat([ps[0]], rest, v.sa);
      RoutedConcat([ps[0]], rest, v);
    }
  }

  /** One family's packets in front of its inbound policy, all of them in the clear or all of them uncovered. */
  predicate InFamily(g: Config, ps: seq<Packet>, ip4: bool, clear: bool)
  {
    forall p :: p in ps ==> if clear then InTheClear(g, p, ip4)
                            else p.ver == (if ip4 then 4 else 6) && p.ver == p.inner && p.dst == p.innerDst
  }

  /** What an inbound policy decided about one family's packets, all of them in the clear or all of them uncovered. */
  ghost predicate Judged(g: Config, ps: seq<Packet>, ip4: bool, clear: bool, kept: seq<Packet>, gone: seq<Packet>,
                         rs: seq<Ruling>, v: Watch)
  {
    && AllTrue(g, rs) && Denials(rs, v.mbuf) == Cnt(gone, v.mbuf) && Grants(rs, v.mbuf) == Cnt(kept, v.mbuf)
    && (forall p :: p in kept ==> RuledIn(p, ip4, clear, true) in rs)
    && (forall p :: p in gone ==> RuledIn(p, ip4, clear, false) in rs)
    && (forall p :: p in ps ==> p in kept || p in gone) && (forall r :: r in rs ==> About(r, ps, clear))
  }

  predicate About(r: Ruling, ps: seq<Packet>, clear: bool)
  {
    r.RuledIn? && r.clear == clear && r.p in ps
  }

  /** A policy of the inbound side at work on one family's packets, with the decisions it made. */
  method JudgeIn(g: Config, ip4: bool, ps: seq<Packet>, clear: bool, ghost v: Watch)
    returns (kept: seq<Packet>, gone: seq<Packet>, rs: seq<Ruling>)
    requires Clean(ps, v) && InFamily(g, ps, ip4, clear)
    ensures Dealt(ps, kept, [], gone, v) && Clean(kept, v) && Judged(g, ps, ip4, clear, kept, gone, rs, v)
  {
    kept, gone := InPolicy(if ip4 then g.spIn4 else g.spIn6, ps, clear, v);
    rs := AllIn(kept, ip4, clear, true) + AllIn(gone, ip4, clear, false);
    JudgedSo(g, ps, ip4, clear, kept, gone, v);
  }

  lemma JudgedSo(g: Config, ps: seq<Packet>, ip4: bool, clear: bool, kept: seq<Packet>, gone: seq<Packet>, v: Watch)
    requires InFamily(g, ps, ip4, clear) && Parted(ps, kept, gone)
    requires Sifted(if ip4 then g.spIn4 else g.spIn6, kept, gone, clear)
    ensures Judged(g, ps, ip4, clear, kept, gone, AllIn(kept, ip4, clear, true) + AllIn(gone, ip4, clear, false), v)
  {
    var a, b := AllIn(kept, ip4, clear, true), AllIn(gone, ip4, clear, false);
    AllInCounts(kept, ip4, clear, true, v.mbuf);
    AllInCounts(gone, ip4, clear, false, v.mbuf);
    RulingsConcat(a, b, v.mbuf);
    forall p | p in kept ensures RuledIn(p, ip4, clear, true) in a + b {
      var i :| 0 <= i < |kept| && kept[i] == p;
      assert a[i] in a;
    }
    forall p | p in gone ensures RuledIn(p, ip4, clear, false) in a + b {
      var i :| 0 <= i < |gone| && gone[i] == p;
      assert b[i] in b;
    }
    forall r | r in a + b ensures Truly(g, r) && About(r, ps, clear) {
      if r in a {
        var i :| 0 <= i < |a| && a[i] == r;
        assert kept[i] in kept;
      } else {
        var i :| 0 <= i < |b| && b[i] == r;
        assert gone[i] in gone;
      }
    }
  }

  /** The same policy at work on more packets of the same family, or the other family's. */
  lemma JudgedBoth(g: Config, a: seq<Packet>, ip4a: bool, clearA: bool, ka: seq<Packet>, ga: seq<Packet>,
                   ra: seq<Ruling>, b: seq<Packet>, ip4b: bool, clearB: bool, kb: seq<Packet>, gb: seq<Packet>,
                   rb: seq<Ruling>, v: Watch)
    requires Judged(g, a, ip4a, clearA, ka, ga, ra, v) && Judged(g, b, ip4b, clearB, kb, gb, rb, v)
    ensures var rs := ra + rb;
            && AllTrue(g, rs) && Denials(rs, v.mbuf) == Cnt(ga + gb, v.mbuf)
            && Grants(rs, v.mbuf) == Cnt(ka + kb, v.mbuf)
  {
    RulingsConcat(ra, rb, v.mbuf);
    CntConcat(ga, gb, v.mbuf);
    CntConcat(ka, kb, v.mbuf);
  }

  /** The packets may go where their own routes lead: each was let pass in its list's family. */
  ghost predicate LetPass(ip4: seq<Packet>, ip6: seq<Packet>, rs: seq<Ruling>)
  {
    && (forall p :: p in ip4 ==> Passes(rs, p, true)) && (forall p :: p in ip6 ==> Passes(rs, p, false))
  }

  ghost predicate Passes(rs: seq<Ruling>, p: Packet, ip4: bool)
  {
    exists clear :: RuledIn(p, ip4, clear, true) in rs
  }

  lemma PassedIsSendable(g: Config, ip4: seq<Packet>, ip6: seq<Packet>, rs: seq<Ruling>)
    requires LetPass(ip4, ip6, rs)
    ensures forall w, p :: RoutedTo(g, ip4, ip6, w, p) ==> Sendable(g, rs, w, p)
  {
    forall w, p | RoutedTo(g, ip4, ip6, w, p) ensures Sendable(g, rs, w, p) {
      if p in ip4 && BoundFor(p, g.rt4, w) {
        var clear :| RuledIn(p, true, clear, true) in rs;
        assert Cleared(g, RuledIn(p, true, clear, true), w, p);
      } else {
        var clear :| RuledIn(p, false, clear, true) in rs;
        assert Cleared(g, RuledIn(p, false, clear, true), w, p);
      }
    }
  }

  /** Packets with their inner headers in front, as decapsulation leaves them. */
  predicate Uncovered(ps: seq<Packet>)
  {
    forall p :: p in ps ==> p.ver == p.inner && p.dst == p.innerDst
  }

  /** Collect from the inbound crypto devices, split by version and check policy; nothing here arrived in the clear. */
  method CollectInbound(g: Config, c: Ctx, w: World, ghost v: Watch)
    returns (d: Ctx, ip4: seq<Packet>, ip6: seq<Packet>, unread: seq<Packet>, denied: seq<Packet>, rs: seq<Ruling>)
    requires InCtx(g, v, c) && v.ver in {4, 6}
    ensures InCtx(g, v, d) && Passed(c, [], d, ip4 + ip6 + denied, unread, v)
    ensures Clean(ip4, v) && Clean(ip6, v) && |ip4 + ip6| <= 2 * MAX_PKT_BURST
    ensures AllTrue(g, rs) && LetPass(ip4, ip6, rs)
    ensures Denials(rs, v.mbuf) == Cnt(denied, v.mbuf) && Grants(rs, v.mbuf) == Cnt(ip4 + ip6, v.mbuf)
    ensures (forall p :: p in unread ==> !w.good(p) || NoVersion(p)) && FromDevices(c, w, rs)
  {
    var in4, in6, f3, f4, r4, r6;
    d, in4, in6, unread := CollectUncovered(g, c, w, v);
    ip4, f3, r4 := JudgeIn(g, true, in4, false, v);
    ip6, f4, r6 := JudgeIn(g, false, in6, false, v);
    denied, rs := f3 + f4, r4 + r6;
    JudgedBoth(g, in4, true, false, ip4, f3, r4, in6, false, false, ip6, f4, r6, v);
    CntConcat(ip4 + ip6, denied, v.mbuf);
    CntConcat(in4, in6, v.mbuf);
    CntConcat(ip4, ip6, v.mbuf);
    CntConcat(f3, f4, v.mbuf);
    PassesBoth(ip4, ip6, r4, r6, false);
  }

  /** The decisions are about packets that came off an inbound queue pair decapsulated and verified. */
  ghost predicate FromDevices(c: Ctx, w: World, rs: seq<Ruling>)
  {
    forall r :: r in rs ==> r.RuledIn? && !r.clear && CameFrom(c, true, w.good, r.p)
  }

  lemma PassesBoth(ip4: seq<Packet>, ip6: seq<Packet>, r4: seq<Ruling>, r6: seq<Ruling>, clear: bool)
    requires forall p :: p in ip4 ==> RuledIn(p, true, clear, true) in r4
    requires forall p :: p in ip6 ==> RuledIn(p, false, clear, true) in r6
    ensures LetPass(ip4, ip6, r4 + r6)
  {
    forall p | p in ip4 ensures Passes(r4 + r6, p, true) {
      assert RuledIn(p, true, clear, true) in r4 + r6;
    }
    forall p | p in ip6 ensures Passes(r4 + r6, p, false) {
      assert RuledIn(p, false, clear, true) in r4 + r6;
    }
  }

  /** Collect what the inbound crypto devices have finished and split it by the version of the header uncovered. */
  method CollectUncovered(g: Config, c: Ctx, w: World, ghost v: Watch)
    returns (d: Ctx, in4: seq<Packet>, in6: seq<Packet>, freed: seq<Packet>)
    requires InCtx(g, v, c) && v.ver in {4, 6}
    ensures InCtx(g, v, d) && Passed(c, [], d, in4 + in6, freed, v)
    ensures Clean(in4, v) && Clean(in6, v) && |in4 + in6| <= 2 * MAX_PKT_BURST
    ensures InFamily(g, in4, true, false) && InFamily(g, in6, false, false)
    ensures forall p :: p in in4 || p in in6 ==> CameFrom(c, true, w.good, p)
    ensures forall p :: p in freed ==> !w.good(p) || NoVersion(p)
  {
    var out, f1, visited, f2;
    d, out, f1, visited := Dequeue(c, 2 * MAX_PKT_BURST, true, w.ready, w.good, Inside(g, v));
    assert QPipe(c, Inside(g, v)) == [];
    assert Sns(out, v.sa) == [];
    RoutedInside(g, out, v);
    forall r | r in out ensures r.ver == r.inner && r.dst == r.innerDst {
      assert CameFrom(c, true, w.good, r);
    }
    in4, in6, f2 := SplitUncovered(g, out, v);
    freed := f1 + f2;
    CntConcat(f1, f2, v.mbuf);
  }

  /** split46_traffic for decapsulated packets. */
  method SplitUncovered(g: Config, out: seq<Packet>, ghost v: Watch)
    returns (in4: seq<Packet>, in6: seq<Packet>, freed: seq<Packet>)
    requires Clean(out, v) && Uncovered(out) && v.ver in {4, 6}
    ensures Dealt(out, in4 + in6, [], freed, v) && Clean(in4, v) && Clean(in6, v)
    ensures InFamily(g, in4, true, false) && InFamily(g, in6, false, false)
    ensures forall p :: p in in4 || p in in6 ==> p in out
    ensures forall p :: p in freed ==> NoVersion(p)
  {
    var esp;
    esp, in4, in6, freed := DealOut(out, SplitLane);
    SplitOrder(out, v);
    SplitBooks(out, v);
    PickIn(out, SplitLane, Ip4);
    PickIn(out, SplitLane, Ip6);
    PickIn(out, SplitLane, Gone);
  }

  lemma CntFour(a: seq<Packet>, b: seq<Packet>, c: seq<Packet>, d: seq<Packet>, x: nat)
    ensures Cnt(a + b + c + d, x) == Cnt(a, x) + Cnt(b, x) + Cnt(c, x) + Cnt(d, x)
  {
    CntConcat(a, b, x);
    CntConcat(a + b, c, x);
    CntConcat(a + b + c, d, x);
  }

  /** Packets the watched SA has not numbered. */
  predicate Clean(ps: seq<Packet>, v: Watch)
  {
    Sns(ps, v.sa) == [] && Routed(ps, v)
  }

  lemma NothingNew(x: seq<nat>, q: seq<nat>, x': seq<nat>, z: nat)
    requires Piped(x, q, z) && Sub(x', x + [])
    ensures Piped(x', q, z)
  {
    ghost var none: seq<nat> := [];
    assert none + q == q == q + none;
    SubRefl(q);
    HandOver(x, q, none, x', q, z);
  }

  /** drain_inbound_crypto_queues. */
  method InboundDrained(g: Config, s: State, w: World, ghost v: Watch) returns (t: State)
    requires Routable(g, v) && Good(g, v, s)
    ensures Good(g, v, t) && t.arrived == s.arrived && t.seqs == s.seqs && s.rulings <= t.rulings
    ensures s.unread <= t.unread && forall p :: p in New(s.unread, t.unread) ==> !w.good(p) || NoVersion(p)
    ensures UnsentFor(g, s, t, CtxLen(s.inb) - CtxLen(t.inb))
    ensures FromDevices(s.inb, w, t.rulings[|s.rulings|..]) && SentBy(g, s, t, t.rulings[|s.rulings|..])
  {
    var inb, ip4, ip6, unread, denied, rs := CollectInbound(g, s.inb, w, v);
    assert |ip4| + |ip6| <= CtxLen(s.inb) - CtxLen(inb);
    t := RouteIn(g, s, inb, [], ip4, ip6, unread, denied, rs, CtxLen(s.inb) - CtxLen(inb), v);
    AddedOnly(s, t, [], unread, rs);
  }

  /** What is new on the worker's lists is what was put there. */
  lemma AddedOnly(s: State, t: State, came: seq<Packet>, unread: seq<Packet>, rs: seq<Ruling>)
    requires t.arrived == s.arrived + came && t.unread == s.unread + unread && t.rulings == s.rulings + rs
    ensures (came == [] ==> t.arrived == s.arrived) && s.unread <= t.unread && s.rulings <= t.rulings
    ensures New(s.unread, t.unread) == unread && t.rulings[|s.rulings|..] == rs
  {
    assert came == [] ==> s.arrived + came == s.arrived;
  }

  /** What is new at the ports is there by one of these decisions. */
  ghost predicate SentBy(g: Config, s: State, t: State, rs: seq<Ruling>)
  {
    forall w, p :: On(t.ports, w, p) ==> On(s.ports, w, p) || Sendable(g, rs, w, p)
  }

  /** What is freed in routing n packets has a cause. */
  ghost predicate UnsentFor(g: Config, s: State, t: State, n: int)
  {
    s.unsent <= t.unsent && n >= 0 && forall p :: p in New(s.unsent, t.unsent) ==>
                                        UnsentCause(g, t.rulings, s.ports, n, p)
  }

  /** What the inbound policies let pass is routed. */
  method RouteIn(g: Config, s: State, inb: Ctx, came: seq<Packet>, ip4: seq<Packet>, ip6: seq<Packet>,
                 unread: seq<Packet>, denied: seq<Packet>, rs: seq<Ruling>, ghost n: nat, ghost v: Watch)
    returns (t: State)
    requires Routable(g, v) && Good(g, v, s) && InCtx(g, v, inb)
    requires Passed(s.inb, came, inb, ip4 + ip6 + denied, unread, v) && Clean(ip4, v) && Clean(ip6, v)
    requires |ip4| <= 2 * MAX_PKT_BURST && |ip6| <= 2 * MAX_PKT_BURST && AllTrue(g, rs) && LetPass(ip4, ip6, rs)
    requires Denials(rs, v.mbuf) == Cnt(denied, v.mbuf) && Grants(rs, v.mbuf) == Cnt(ip4 + ip6, v.mbuf)
    requires |ip4| + |ip6| <= n
    ensures Good(g, v, t) && t.arrived == s.arrived + came && t.seqs == s.seqs && t.rulings == s.rulings + rs
    ensures t.inb == inb && t.unread == s.unread + unread && UnsentFor(g, s, t, n) && SentBy(g, s, t, rs)
  {
    var ports, f := RouteBoth(g, s.ports, ip4, ip6, v);
    var m := Moves(came, unread, denied, f, rs);
    t := After(s, inb, s.outb, ports, s.seqs, m);
    CntConcat(ip4 + ip6, denied, v.mbuf);
    SnsConcat(ip4, ip6, v.sa);
    Balanced(v, s, t, m);
    OrderedIn(v, s, t);
    RuledMore(g, v, s, t, m);
    PassedIsSendable(g, ip4, ip6, rs);
    JustifiedMore(g, s, t, m);
    UnsentOfPassed(g, s, t, ip4, ip6, rs, f, n);
  }

  lemma UnsentOfPassed(g: Config, s: State, t: State, ip4: seq<Packet>, ip6: seq<Packet>, rs: seq<Ruling>,
                       f: seq<Packet>, n: nat)
    requires t.unsent == s.unsent + f && t.rulings == s.rulings + rs && LetPass(ip4, ip6, rs)
    requires SentUnless(g, s.ports, ip4, ip6, f) && |ip4| + |ip6| <= n
    ensures UnsentFor(g, s, t, n)
  {
    assert New(s.unsent, t.unsent) == f;
    FillsMore(s.ports, |ip4| + |ip6|, n);
    forall p | p in f ensures UnsentCause(g, t.rulings, s.ports, n, p) {
      assert SentUnlessStuck(g, s.ports, ip4, ip6, f, p);
      if p in ip4 && Unrouted(p, g.rt4) {
        var clear :| RuledIn(p, true, clear, true) in rs;
        assert LeadsNowhere(g, RuledIn(p, true, clear, true), p);
      } else if p in ip6 && Unrouted(p, g.rt6) {
        var clear :| RuledIn(p, false, clear, true) in rs;
        assert LeadsNowhere(g, RuledIn(p, false, clear, true), p);
      }
    }
  }

  /** The periodic part of the loop: drain_tx_buffers and then drain_crypto_buffers. */
  method BuffersDrained(g: Config, s: State, ghost v: Watch) returns (t: State)
    requires Watches(g, v) && Good(g, v, s)
    ensures Good(g, v, t) && t.arrived == s.arrived && t.seqs == s.seqs && t.rulings == s.rulings
    ensures Total(t.ports.tx) == 0 && Total(t.inb.stage) == 0 && Total(t.outb.stage) == 0
  {
    var ports, inb, outb, f1, f2, f3 := DrainAll(g, s, v);
    var m := Moves([], f2, [], f1 + f3, []);
    t := After(s, inb, outb, ports, s.seqs, m);
    SameRecords(s, t, m);
    DrainedBooks(g, v, s, t, f1, f2, f3);
    Ordered(v, s, t, []);
    JustifiedMore(g, s, t, m);
  }

  lemma {:induction false} DrainedBooks(g: Config, v: Watch, s: State, t: State, f1: seq<Packet>, f2: seq<Packet>,
                                        f3: seq<Packet>)
    requires Books(v, s) && Ruled(g, v, s) && Shaped(s.inb) && Shaped(s.outb) && Shaped(t.inb) && Shaped(t.outb)
    requires t == After(s, t.inb, t.outb, t.ports, t.seqs, Moves([], f2, [], f1 + f3, []))
    requires Carries(s.ports, [], t.ports, f1, v) && Keeps(s.outb, [], t.outb, [], f3, v)
    requires Keeps(s.inb, [], t.inb, [], f2, Inside(g, v))
    ensures Books(v, t) && Ruled(g, v, t)
  {
    var m := Moves([], f2, [], f1 + f3, []);
    CntConcat(f1, f3, v.mbuf);
    Balanced(v, s, t, m);
    RuledMore(g, v, s, t, m);
  }

  /** Nothing has come and nothing has been decided. */
  lemma SameRecords(s: State, t: State, m: Moves)
    requires t == After(s, t.inb, t.outb, t.ports, t.seqs, m) && m.came == [] && m.rulings == []
    ensures t.arrived == s.arrived && t.rulings == s.rulings && (m.unread == [] ==> t.unread == s.unread)
  {
    assert s.arrived + [] == s.arrived && s.rulings + [] == s.rulings && s.unread + [] == s.unread;
  }

  method DrainAll(g: Config, s: State, ghost v: Watch)
    returns (ports: Ports, inb: Ctx, outb: Ctx, f1: seq<Packet>, f2: seq<Packet>, f3: seq<Packet>)
    requires QueuesOk(g, v, s)
    ensures PortsOk(ports) && Carries(s.ports, [], ports, f1, v) && Total(ports.tx) == 0
    ensures forall w, p :: On(ports, w, p) ==> On(s.ports, w, p)
    ensures CtxOk(inb) && Keeps(s.inb, [], inb, [], f2, Inside(g, v)) && Total(inb.stage) == 0
    ensures CtxOk(outb) && Keeps(s.outb, [], outb, [], f3, v) && Total(outb.stage) == 0 && NoMore(s.outb, outb)
  {
    ports, f1 := DrainTx(s.ports, v);
    inb, f2 := Drain(s.inb, Inside(g, v));
    outb, f3 := Drain(s.outb, v);
    AllEmpty(ports.tx);
    AllEmpty(inb.stage);
    AllEmpty(outb.stage);
  }

  lemma {:induction false} AllEmpty(t: seq<seq<Packet>>)
    requires forall i :: 0 <= i < |t| ==> t[i] == []
    ensures Total(t) == 0
  {
    if t != [] {
      AllEmpty(t[1..]);
    }
  }

  /** ipsec_inbound: look up, enqueue, and give back what inline processing left. */
  method InboundEsp(g: Config, c: Ctx, esp: seq<Packet>, seqs: seq<nat>, w: World, ghost v: Watch)
    returns (d: Ctx, out: seq<Packet>, freed: seq<Packet>)
    requires TablesOk(g, v) && InCtx(g, v, c) && v.ports == g.ports
    requires Plain(esp) && |esp| <= MAX_PKT_BURST
    ensures InCtx(g, v, d) && Passed(c, esp, d, out, freed, v)
    ensures Clean(out, v) && |out| <= |esp| && Uncovered(out)
    ensures forall p :: p in freed ==>
      || (p in esp && Hopeless(p, g.sad(p), g.sasIn, |c.stage|, w)) || MayFill(c, |esp|) || !w.good(p)
    ensures forall r :: r in out ==> Decapsulated(g, esp, w, r)
  {
    var sas := seq(|esp|, i requires 0 <= i < |esp| => g.sad(esp[i]));
    var e, f2;
    ghost var sns;
    e, sns := Enqueue(c, esp, sas, g.sasIn, true, seqs, w, g.ports, Inside(g, v));
    out, f2 := InlineDequeue(e.inline, true, w.good, g.ports, Inside(g, v));
    d, freed := e.ctx, e.freed + f2;
    CntConcat(e.freed, f2, v.mbuf);
    MarkedUnnumbered(out, true, g.ports, Inside(g, v));
    RoutedInside(g, out, v);
    AllDecapsulated(g, esp, sas, w, e.inline, out);
  }

  /** Packet r is one of these as the inline session of its SA took it, verified and with the inner header in front. */
  ghost predicate Decapsulated(g: Config, esp: seq<Packet>, w: World, r: Packet)
  {
    exists p, o :: p in esp && w.good(o) && ComesOf(p, g.sad(p), g.sasIn, true, None, o) && ComesBackAs(o, true, r)
  }

  lemma AllDecapsulated(g: Config, esp: seq<Packet>, sas: seq<Option<nat>>, w: World, inline: seq<Packet>,
                        out: seq<Packet>)
    requires |sas| == |esp| && forall i :: 0 <= i < |esp| ==> sas[i] == g.sad(esp[i])
    requires forall o :: o in inline ==> Comes(esp, sas, g.sasIn, true, None, o)
    requires forall r :: r in out ==> FromInline(inline, true, w.good, r)
    ensures forall r :: r in out ==> Decapsulated(g, esp, w, r)
  {
    forall r | r in out ensures Decapsulated(g, esp, w, r) {
      var o :| o in inline && w.good(o) && ComesBackAs(o, true, r);
      var i :| 0 <= i < |esp| && i < |sas| && ComesOf(esp[i], sas[i], g.sasIn, true, None, o);
      assert esp[i] in esp;
    }
  }

  /**
   * process_pkts_inbound after the classification: what was in the clear and what was decapsulated, past the
   * policy.
   */
  method InboundChecked(g: Config, clear4: seq<Packet>, clear6: seq<Packet>, out: seq<Packet>, ghost v: Watch)
    returns (ip4: seq<Packet>, ip6: seq<Packet>, unread: seq<Packet>, denied: seq<Packet>, rs: seq<Ruling>)
    requires Clean(clear4, v) && Clean(clear6, v) && Clean(out, v) && v.ver in {4, 6}
    requires |clear4 + clear6 + out| <= 2 * MAX_PKT_BURST
    requires InFamily(g, clear4, true, true) && InFamily(g, clear6, false, true) && Uncovered(out)
    ensures Clean(ip4, v) && Clean(ip6, v) && LetPass(ip4, ip6, rs)
    ensures Dealt(clear4 + clear6 + out, ip4 + ip6, unread, denied, v)
    ensures AllTrue(g, rs) && Denials(rs, v.mbuf) == Cnt(denied, v.mbuf) && Grants(rs, v.mbuf) == Cnt(ip4 + ip6, v.mbuf)
    ensures forall p :: p in clear4 ==> RuledOn(rs, p, true, true)
    ensures forall p :: p in clear6 ==> RuledOn(rs, p, false, true)
    ensures forall p :: p in unread ==> NoVersion(p)
    ensures forall r :: r in rs ==> r.RuledIn? && if r.clear then r.p in clear4 || r.p in clear6 else r.p in out
  {
    var in4, in6, f1, f2, r1, r2;
    in4, in6, unread := SplitUncovered(g, out, v);
    CntConcat(in4, in6, v.mbuf);
    ip4, f1, r1 := Checked(g, true, clear4, in4, v);
    ip6, f2, r2 := Checked(g, false, clear6, in6, v);
    denied, rs := f1 + f2, r1 + r2;
    CntConcat(clear4, in4, v.mbuf);
    CntConcat(clear6, in6, v.mbuf);
    CntConcat(ip4, ip6, v.mbuf);
    CntConcat(f1, f2, v.mbuf);
    CntFour(clear4, clear6, out, [], v.mbuf);
    assert clear4 + clear6 + out + [] == clear4 + clear6 + out;
    RulingsConcat(r1, r2, v.mbuf);
    CheckedBoth(clear4, clear6, ip4, ip6, r1, r2);
  }

  lemma CheckedBoth(clear4: seq<Packet>, clear6: seq<Packet>, ip4: seq<Packet>, ip6: seq<Packet>, r1: seq<Ruling>,
                    r2: seq<Ruling>)
    requires (forall p :: p in ip4 ==> Passes(r1, p, true)) && (forall p :: p in ip6 ==> Passes(r2, p, false))
    requires forall p :: p in clear4 ==> RuledOn(r1, p, true, true)
    requires forall p :: p in clear6 ==> RuledOn(r2, p, false, true)
    ensures LetPass(ip4, ip6, r1 + r2)
    ensures forall p :: p in clear4 ==> RuledOn(r1 + r2, p, true, true)
    ensures forall p :: p in clear6 ==> RuledOn(r1 + r2, p, false, true)
  {
    forall p | p in ip4 ensures Passes(r1 + r2, p, true) {
      var clear :| RuledIn(p, true, clear, true) in r1;
      assert RuledIn(p, true, clear, true) in r1 + r2;
    }
    forall p | p in ip6 ensures Passes(r1 + r2, p, false) {
      var clear :| RuledIn(p, false, clear, true) in r2;
      assert RuledIn(p, false, clear, true) in r1 + r2;
    }
    forall p | p in clear4 ensures RuledOn(r1 + r2, p, true, true) {
      var r :| r in r1 && Decides(r, p, true, true);
      assert r in r1 + r2;
    }
    forall p | p in clear6 ensures RuledOn(r1 + r2, p, false, true) {
      var r :| r in r2 && Decides(r, p, false, true);
      assert r in r1 + r2;
    }
  }

  /** One inbound_sp_sa call: the first packets of the array arrived in the clear, the others were decapsulated. */
  method Checked(g: Config, ip4: bool, clear: seq<Packet>, plain: seq<Packet>, ghost v: Watch)
    returns (kept: seq<Packet>, denied: seq<Packet>, rs: seq<Ruling>)
    requires Clean(clear, v) && Clean(plain, v) && |clear + plain| <= 2 * MAX_PKT_BURST
    requires InFamily(g, clear, ip4, true) && InFamily(g, plain, ip4, false)
    ensures Clean(kept, v) && Dealt(clear + plain, kept, [], denied, v)
    ensures AllTrue(g, rs) && Denials(rs, v.mbuf) == Cnt(denied, v.mbuf) && Grants(rs, v.mbuf) == Cnt(kept, v.mbuf)
    ensures forall p :: p in kept ==> Passes(rs, p, ip4)
    ensures forall p :: p in clear ==> RuledOn(rs, p, ip4, true)
    ensures forall r :: r in rs ==> r.RuledIn? && if r.clear then r.p in clear else r.p in plain
  {
    var k1, f1, r1 := JudgeIn(g, ip4, clear, true, v);
    var k2, f2, r2 := JudgeIn(g, ip4, plain, false, v);
    kept, denied, rs := k1 + k2, f1 + f2, r1 + r2;
    JudgedBoth(g, clear, ip4, true, k1, f1, r1, plain, ip4, false, k2, f2, r2, v);
    CntConcat(clear, plain, v.mbuf);
    CntConcat(k1, k2, v.mbuf);
    CntConcat(f1, f2, v.mbuf);
    SnsConcat(k1, k2, v.sa);
    RoutedConcat(k1, k2, v);
    CheckedAll(ip4, clear, k1, f1, r1, k2, r2);
  }

  lemma CheckedAll(ip4: bool, clear: seq<Packet>, k1: seq<Packet>, f1: seq<Packet>, r1: seq<Ruling>, k2: seq<Packet>,
                   r2: seq<Ruling>)
    requires forall p :: p in clear ==> p in k1 || p in f1
    requires forall p :: p in k1 ==> RuledIn(p, ip4, true, true) in r1
    requires forall p :: p in f1 ==> RuledIn(p, ip4, true, false) in r1
    requires forall p :: p in k2 ==> RuledIn(p, ip4, false, true) in r2
    ensures forall p :: p in k1 + k2 ==> Passes(r1 + r2, p, ip4)
    ensures forall p :: p in clear ==> RuledOn(r1 + r2, p, ip4, true)
  {
    forall p | p in k1 + k2 ensures Passes(r1 + r2, p, ip4) {
      if p in k1 {
        assert RuledIn(p, ip4, true, true) in r1 + r2;
      } else {
        assert RuledIn(p, ip4, false, true) in r1 + r2;
      }
    }
    forall p | p in clear ensures RuledOn(r1 + r2, p, ip4, true) {
      var r := RuledIn(p, ip4, true, p in k1);
      assert r in r1 + r2 && Decides(r, p, ip4, true);
    }
  }

  /** prepare_traffic. */
  method Prepared(g: Config, pkts: seq<Packet>, ghost v: Watch)
    returns (esp: seq<Packet>, ip4: seq<Packet>, ip6: seq<Packet>, gone: seq<Packet>)
    requires Plain(pkts)
    ensures Plain(esp) && Plain(ip4) && Plain(ip6) && Clean(ip4, v) && Clean(ip6, v)
    ensures Dealt(pkts, esp, ip4 + ip6, gone, v)
    ensures InFamily(g, ip4, true, true) && InFamily(g, ip6, false, true)
    ensures Classified(g, pkts, esp, ip4, ip6, gone)
  {
    var f := (p: Packet) => PrepareLane(p, g.udpEncap);
    esp, ip4, ip6, gone := DealOut(pkts, f);
    PickAll(pkts, f, v.mbuf);
    PickPlain(pkts, f, Esp);
    PickPlain(pkts, f, Ip4);
    PickPlain(pkts, f, Ip6);
    PlainUnnumbered(ip4, v);
    PlainUnnumbered(ip6, v);
    CntConcat(ip4, ip6, v.mbuf);
    ClearLanes(g, pkts, f);
  }

  /** The packets of a burst that are ESP, those of either family in the clear, and the others. */
  ghost predicate Classified(g: Config, pkts: seq<Packet>, esp: seq<Packet>, ip4: seq<Packet>, ip6: seq<Packet>,
                             gone: seq<Packet>)
  {
    forall p :: ClassifiedOne(g, pkts, esp, ip4, ip6, gone, p)
  }

  predicate ClassifiedOne(g: Config, pkts: seq<Packet>, esp: seq<Packet>, ip4: seq<Packet>, ip6: seq<Packet>,
                          gone: seq<Packet>, p: Packet)
  {
    && (p in esp <==> p in pkts && IsEsp(g, p))
    && (p in ip4 <==> p in pkts && InTheClear(g, p, true)) && (p in ip6 <==> p in pkts && InTheClear(g, p, false))
    && (p in gone <==> p in pkts && !IsEsp(g, p) && !InTheClear(g, p, true) && !InTheClear(g, p, false))
  }

  lemma ClearLanes(g: Config, pkts: seq<Packet>, f: Packet -> Lane)
    requires forall p :: f(p) == PrepareLane(p, g.udpEncap)
    ensures Classified(g, pkts, Pick(pkts, f, Esp), Pick(pkts, f, Ip4), Pick(pkts, f, Ip6), Pick(pkts, f, Gone))
    ensures InFamily(g, Pick(pkts, f, Ip4), true, true) && InFamily(g, Pick(pkts, f, Ip6), false, true)
  {
    PickIn(pkts, f, Ip4);
    PickIn(pkts, f, Ip6);
    PickIn(pkts, f, Esp);
    PickIn(pkts, f, Gone);
  }

  /** process_pkts for a burst from an unprotected port. */
  method InboundBurst(g: Config, s: State, pkts: seq<Packet>, w: World, ghost v: Watch) returns (t: State)
    requires Deployed(g, v) && Good(g, v, s) && Plain(pkts) && |pkts| <= MAX_PKT_BURST
    ensures Good(g, v, t) && t.arrived == s.arrived + pkts && t.seqs == s.seqs
    ensures s.rulings <= t.rulings && AllRuled(g, t.rulings, pkts, true)
    ensures UnreadFor(g, s, t, pkts, true, w) && UnsentFor(g, s, t, |pkts|)
    ensures FromBurst(g, pkts, w, t.rulings[|s.rulings|..]) && SentBy(g, s, t, t.rulings[|s.rulings|..])
  {
    var inb, ip4, ip6, unread, denied, rs := InboundSorted(g, s.inb, pkts, s.seqs, w, v);
    t := RouteIn(g, s, inb, pkts, ip4, ip6, unread, denied, rs, |pkts|, v);
    AddedOnly(s, t, pkts, unread, rs);
    StillRuled(g, s.rulings, rs, pkts, true);
  }

  /** The decisions are about packets of the burst as they arrived, or as inline processing gave them back. */
  ghost predicate FromBurst(g: Config, pkts: seq<Packet>, w: World, rs: seq<Ruling>)
  {
    forall r :: r in rs ==> r.RuledIn? && if r.clear then r.p in pkts else Decapsulated(g, pkts, w, r.p)
  }

  /** What of a burst is freed before a policy sees it has a cause. */
  ghost predicate UnreadFor(g: Config, s: State, t: State, pkts: seq<Packet>, unprotected: bool, w: World)
  {
    && s.unread <= t.unread
    && forall p :: p in New(s.unread, t.unread) ==>
         UnreadCause(g, if unprotected then s.inb else s.outb, pkts, unprotected, w, p)
  }

  /** process_pkts_inbound: ESP goes to the crypto queues or inline processing, the rest and its results to policy. */
  method InboundSorted(g: Config, c: Ctx, pkts: seq<Packet>, seqs: seq<nat>, w: World, ghost v: Watch)
    returns (inb: Ctx, ip4: seq<Packet>, ip6: seq<Packet>, unread: seq<Packet>, denied: seq<Packet>, rs: seq<Ruling>)
    requires Deployed(g, v) && InCtx(g, v, c) && Plain(pkts) && |pkts| <= MAX_PKT_BURST
    ensures InCtx(g, v, inb) && Passed(c, pkts, inb, ip4 + ip6 + denied, unread, v)
    ensures Clean(ip4, v) && Clean(ip6, v) && |ip4| <= 2 * MAX_PKT_BURST && |ip6| <= 2 * MAX_PKT_BURST
    ensures AllTrue(g, rs) && LetPass(ip4, ip6, rs) && AllRuled(g, rs, pkts, true)
    ensures Denials(rs, v.mbuf) == Cnt(denied, v.mbuf) && Grants(rs, v.mbuf) == Cnt(ip4 + ip6, v.mbuf)
    ensures |ip4| + |ip6| <= |pkts| && forall p :: p in unread ==> UnreadCause(g, c, pkts, true, w, p)
    ensures FromBurst(g, pkts, w, rs)
  {
    var esp, clear4, clear6, f0 := Prepared(g, pkts, v);
    var out, f1, f2;
    inb, out, f1 := InboundEsp(g, c, esp, seqs, w, v);
    CntConcat(clear4, clear6, v.mbuf);
    CntConcat(clear4 + clear6, out, v.mbuf);
    ip4, ip6, f2, denied, rs := InboundChecked(g, clear4, clear6, out, v);
    unread := f0 + f1 + f2;
    CntFour(f0, f1, f2, [], v.mbuf);
    assert f0 + f1 + f2 + [] == f0 + f1 + f2;
    CntConcat(ip4 + ip6, denied, v.mbuf);
    UnreadCauses(g, c, pkts, w, esp, clear4, clear6, f0, f1, f2, rs);
    AllFromBurst(g, pkts, w, esp, clear4, clear6, f0, out, rs);
  }

  lemma AllFromBurst(g: Config, pkts: seq<Packet>, w: World, esp: seq<Packet>, clear4: seq<Packet>,
                     clear6: seq<Packet>, f0: seq<Packet>, out: seq<Packet>, rs: seq<Ruling>)
    requires Classified(g, pkts, esp, clear4, clear6, f0) && forall r :: r in out ==> Decapsulated(g, esp, w, r)
    requires forall r :: r in rs ==> r.RuledIn? && if r.clear then r.p in clear4 || r.p in clear6 else r.p in out
    ensures FromBurst(g, pkts, w, rs)
  {
    forall r | r in rs ensures r.RuledIn? && if r.clear then r.p in pkts else Decapsulated(g, pkts, w, r.p) {
      if r.clear {
        assert ClassifiedOne(g, pkts, esp, clear4, clear6, f0, r.p);
      } else {
        var p, o :| p in esp && w.good(o) && ComesOf(p, g.sad(p), g.sasIn, true, None, o) && ComesBackAs(o, true, r.p);
        assert ClassifiedOne(g, pkts, esp, clear4, clear6, f0, p);
      }
    }
  }

  lemma UnreadCauses(g: Config, c: Ctx, pkts: seq<Packet>, w: World, esp: seq<Packet>, clear4: seq<Packet>,
                     clear6: seq<Packet>, f0: seq<Packet>, f1: seq<Packet>, f2: seq<Packet>, rs: seq<Ruling>)
    requires |esp| <= |pkts| && Classified(g, pkts, esp, clear4, clear6, f0)
    requires forall p :: p in clear4 ==> RuledOn(rs, p, true, true)
    requires forall p :: p in clear6 ==> RuledOn(rs, p, false, true)
    requires forall p :: p in f1 ==>
      || (p in esp && Hopeless(p, g.sad(p), g.sasIn, |c.stage|, w)) || MayFill(c, |esp|) || !w.good(p)
    requires forall p :: p in f2 ==> NoVersion(p)
    ensures AllRuled(g, rs, pkts, true) && forall p :: p in f0 + f1 + f2 ==> UnreadCause(g, c, pkts, true, w, p)
  {
    if MayFill(c, |esp|) {
      Traffic.FillsStill(c, c, 0, |esp|, |pkts|);
    }
    forall p | p in f0 + f1 + f2 ensures UnreadCause(g, c, pkts, true, w, p) {
      assert ClassifiedOne(g, pkts, esp, clear4, clear6, f0, p);
    }
    forall p, ip4 | p in pkts && InTheClear(g, p, ip4) ensures RuledOn(rs, p, ip4, true) {
      assert ClassifiedOne(g, pkts, esp, clear4, clear6, f0, p);
    }
  }

  /** The policy results of protected packets name their SAs by index plus one. */
  method Indices(sp: Packet -> nat, esp: seq<Packet>) returns (idx: seq<Option<nat>>)
    requires forall p :: p in esp ==> sp(p) != DISCARD
    ensures |idx| == |esp| && forall i :: 0 <= i < |esp| ==> idx[i].Some? && sp(esp[i]) == idx[i].value + 1
  {
    idx := [];
    for k := 0 to |esp|
      invariant |idx| == k && forall i :: 0 <= i < k ==> idx[i].Some? && sp(esp[i]) == idx[i].value + 1
    {
      idx := idx + [Some(sp(esp[k]) - 1)];
    }
  }

  /**
   * Packets that stay are bypassed, those freed are discarded, and protected ones go to the SA that their
   * result names.
   */
  predicate AsRuled(sp: Packet -> nat, stay: seq<Packet>, esp: seq<Packet>, idx: seq<Option<nat>>, gone: seq<Packet>)
    requires |idx| == |esp|
  {
    && (forall p :: p in stay ==> sp(p) == BYPASS) && (forall p :: p in gone ==> sp(p) == DISCARD)
    && (forall i :: 0 <= i < |esp| ==> idx[i].Some? && sp(esp[i]) == idx[i].value + 1)
    && (forall p :: p in esp ==> sp(p) != BYPASS)
  }

  /** outbound_spd_lookup: `idx` are the SA indices of the packets to protect. */
  method OutPolicy(g: Config, sp: Option<Packet -> nat>, ps: seq<Packet>, ghost v: Watch)
    returns (stay: seq<Packet>, esp: seq<Packet>, idx: seq<Option<nat>>, gone: seq<Packet>)
    requires Plain(ps) && (sp.Some? ==> forall p :: VerdictOk(g, sp.value(p)))
    ensures Plain(stay) && Plain(esp) && Dealt(ps, stay, esp, gone, v) && Assigned(g, esp, idx)
    ensures if sp.None? then stay == ps && esp == [] && gone == [] else AsRuled(sp.value, stay, esp, idx, gone)
    ensures forall p :: p in ps <==> p in stay || p in esp || p in gone
  {
    stay, esp, idx, gone := ps, [], [], [];
    if sp.Some? {
      var f := (p: Packet) => PolicyLane(sp.value(p));
      var none;
      esp, stay, none, gone := DealOut(ps, f);
      PickAll(ps, f, v.mbuf);
      LaneEmpty(ps, f, Ip6);
      PickPlain(ps, f, Esp);
      PickPlain(ps, f, Ip4);
      PlainUnnumbered(ps, v);
      PickClean(ps, f, Esp, v);
      PickClean(ps, f, Ip4, v);
      PickClean(ps, f, Gone, v);
      idx := Indices(sp.value, esp);
      PickIn(ps, f, Esp);
      PickIn(ps, f, Ip4);
      PickIn(ps, f, Gone);
      forall i | 0 <= i < |esp| ensures idx[i].value < |g.sasOut| && PolicyLane(sp.value(esp[i])) == Esp {
        assert esp[i] in esp && VerdictOk(g, sp.value(esp[i]));
      }
      forall p | p in stay ensures sp.value(p) == BYPASS {
        assert f(p) == Ip4;
      }
      forall p | p in gone ensures sp.value(p) == DISCARD {
        assert f(p) == Gone;
      }
    }
  }

  /** What an outbound policy decided about one family's packets. */
  ghost predicate JudgedOut(ip4: bool, ps: seq<Packet>, stay: seq<Packet>, esp: seq<Packet>, idx: seq<Option<nat>>,
                            gone: seq<Packet>, rs: seq<Ruling>)
    requires |idx| == |esp|
  {
    && (forall p :: p in stay ==> RuledOut(p, ip4, Bypasses) in rs)
    && (forall p :: p in gone ==> RuledOut(p, ip4, Discards) in rs)
    && (forall i :: 0 <= i < |esp| ==> ToProtect(rs, esp[i], ip4, idx[i]))
    && (forall p :: p in ps ==> RuledOn(rs, p, ip4, false)) && AboutBurst(ps, rs)
  }

  /** The decision to protect a packet under the SA that goes along with it. */
  predicate ToProtect(rs: seq<Ruling>, p: Packet, ip4: bool, idx: Option<nat>)
  {
    idx.Some? && RuledOut(p, ip4, Protects(idx.value)) in rs
  }

  predicate NamedBy(rs: seq<Ruling>, p: Packet, idx: Option<nat>)
  {
    ToProtect(rs, p, true, idx) || ToProtect(rs, p, false, idx)
  }

  /** The acts that SA positions stand for. */
  function ActsOf(idx: seq<Option<nat>>): (acts: seq<Act>)
    ensures |acts| == |idx| && forall i :: 0 <= i < |idx| ==> acts[i] == Protects(idx[i].UnwrapOr(0))
  {
    if idx == [] then [] else [Protects(idx[0].UnwrapOr(0))] + ActsOf(idx[1..])
  }

  function Same(act: Act, n: nat): (acts: seq<Act>)
    ensures |acts| == n && forall i :: 0 <= i < n ==> acts[i] == act
  {
    if n == 0 then [] else [act] + Same(act, n - 1)
  }

  /** The decisions behind the lists that an outbound policy gives. */
  function RulingsOut(ip4: bool, stay: seq<Packet>, esp: seq<Packet>, idx: seq<Option<nat>>, gone: seq<Packet>)
    : seq<Ruling>
    requires |idx| == |esp|
  {
    AllOut(stay, ip4, Same(Bypasses, |stay|)) + AllOut(esp, ip4, ActsOf(idx))
    + AllOut(gone, ip4, Same(Discards, |gone|))
  }

  /** What an outbound policy makes of one family's packets. */
  ghost predicate FamilyOut(g: Config, ip4: bool, ps: seq<Packet>, stay: seq<Packet>, esp: seq<Packet>,
                            idx: seq<Option<nat>>, gone: seq<Packet>, rs: seq<Ruling>, v: Watch)
  {
    && Plain(stay) && Plain(esp) && Dealt(ps, stay, esp, gone, v) && Assigned(g, esp, idx)
    && AllTrue(g, rs) && JudgedOut(ip4, ps, stay, esp, idx, gone, rs) && CountedOut(stay, esp, gone, rs, v.mbuf)
  }

  /** Decisions against an mbuf are as many as its copies freed, and decisions for it as many as go on. */
  predicate CountedOut(stay: seq<Packet>, esp: seq<Packet>, gone: seq<Packet>, rs: seq<Ruling>, x: nat)
  {
    Denials(rs, x) == Cnt(gone, x) && Grants(rs, x) == Cnt(stay, x) + Cnt(esp, x)
  }

  /** A policy of the outbound side at work on one family's packets, with the decisions it made. */
  method JudgeOut(g: Config, ip4: bool, ps: seq<Packet>, ghost v: Watch)
    returns (stay: seq<Packet>, esp: seq<Packet>, idx: seq<Option<nat>>, gone: seq<Packet>, rs: seq<Ruling>)
    requires VerdictsOk(g) && Plain(ps) && InFamily(g, ps, ip4, true)
    ensures FamilyOut(g, ip4, ps, stay, esp, idx, gone, rs, v)
  {
    var sp := if ip4 then g.spOut4 else g.spOut6;
    stay, esp, idx, gone := OutPolicy(g, sp, ps, v);
    rs := RulingsOut(ip4, stay, esp, idx, gone);
    RulingsOutTrue(g, ip4, stay, esp, idx, gone);
    RulingsOutCount(ip4, stay, esp, idx, gone, v.mbuf);
    DecidedOut(ip4, ps, stay, esp, idx, gone);
  }

  lemma RulingsOutTrue(g: Config, ip4: bool, stay: seq<Packet>, esp: seq<Packet>, idx: seq<Option<nat>>,
                       gone: seq<Packet>)
    requires |idx| == |esp| && InFamily(g, stay, ip4, true) && InFamily(g, esp, ip4, true)
    requires InFamily(g, gone, ip4, true)
    requires var sp := if ip4 then g.spOut4 else g.spOut6;
             if sp.None? then esp == [] && gone == [] else AsRuled(sp.value, stay, esp, idx, gone)
    ensures AllTrue(g, RulingsOut(ip4, stay, esp, idx, gone))
  {
    StayTrue(g, ip4, stay);
    EspTrue(g, ip4, esp, idx);
    GoneTrue(g, ip4, gone);
  }

  lemma RulingsOutCount(ip4: bool, stay: seq<Packet>, esp: seq<Packet>, idx: seq<Option<nat>>, gone: seq<Packet>,
                        x: nat)
    requires |idx| == |esp|
    ensures var rs := RulingsOut(ip4, stay, esp, idx, gone);
            Denials(rs, x) == Cnt(gone, x) && Grants(rs, x) == Cnt(stay, x) + Cnt(esp, x)
  {
    var a, b, c := AllOut(stay, ip4, Same(Bypasses, |stay|)), AllOut(esp, ip4, ActsOf(idx)),
        AllOut(gone, ip4, Same(Discards, |gone|));
    AllOutCounts(stay, ip4, Same(Bypasses, |stay|), false, x);
    AllOutCounts(esp, ip4, ActsOf(idx), false, x);
    AllOutCounts(gone, ip4, Same(Discards, |gone|), true, x);
    RulingsConcat(a, b, x);
    RulingsConcat(a + b, c, x);
  }

  /** Decisions about one family's packets that all are for the same reason true are true. */
  lemma TrueOut(g: Config, ip4: bool, ps: seq<Packet>, acts: seq<Act>)
    requires |acts| == |ps| && forall i :: 0 <= i < |ps| ==> Truly(g, RuledOut(ps[i], ip4, acts[i]))
    ensures AllTrue(g, AllOut(ps, ip4, acts))
  {
    var rs := AllOut(ps, ip4, acts);
    forall r | r in rs ensures Truly(g, r) {
      var i :| 0 <= i < |rs| && rs[i] == r;
    }
  }

  lemma StayTrue(g: Config, ip4: bool, stay: seq<Packet>)
    requires InFamily(g, stay, ip4, true)
    requires var sp := if ip4 then g.spOut4 else g.spOut6;
             sp.Some? ==> forall p :: p in stay ==> sp.value(p) == BYPASS
    ensures AllTrue(g, AllOut(stay, ip4, Same(Bypasses, |stay|)))
  {
    forall i | 0 <= i < |stay| ensures Truly(g, RuledOut(stay[i], ip4, Bypasses)) {
      assert stay[i] in stay;
    }
    TrueOut(g, ip4, stay, Same(Bypasses, |stay|));
  }

  lemma GoneTrue(g: Config, ip4: bool, gone: seq<Packet>)
    requires InFamily(g, gone, ip4, true)
    requires var sp := if ip4 then g.spOut4 else g.spOut6;
             if sp.None? then gone == [] else forall p :: p in gone ==> sp.value(p) == DISCARD
    ensures AllTrue(g, AllOut(gone, ip4, Same(Discards, |gone|)))
  {
    forall i | 0 <= i < |gone| ensures Truly(g, RuledOut(gone[i], ip4, Discards)) {
      assert gone[i] in gone;
    }
    TrueOut(g, ip4, gone, Same(Discards, |gone|));
  }

  lemma EspTrue(g: Config, ip4: bool, esp: seq<Packet>, idx: seq<Option<nat>>)
    requires InFamily(g, esp, ip4, true) && |idx| == |esp|
    requires var sp := if ip4 then g.spOut4 else g.spOut6;
             if sp.None? then esp == []
             else
               && (forall i :: 0 <= i < |esp| ==> idx[i].Some? && sp.value(esp[i]) == idx[i].value + 1)
               && (forall p :: p in esp ==> sp.value(p) != BYPASS)
    ensures AllTrue(g, AllOut(esp, ip4, ActsOf(idx)))
  {
    forall i | 0 <= i < |esp| ensures Truly(g, RuledOut(esp[i], ip4, ActsOf(idx)[i])) {
      assert esp[i] in esp;
    }
    TrueOut(g, ip4, esp, ActsOf(idx));
  }

  lemma DecidedOut(ip4: bool, ps: seq<Packet>, stay: seq<Packet>, esp: seq<Packet>, idx: seq<Option<nat>>,
                   gone: seq<Packet>)
    requires |idx| == |esp| && forall i :: 0 <= i < |idx| ==> idx[i].Some?
    requires forall p :: p in ps <==> p in stay || p in esp || p in gone
    ensures JudgedOut(ip4, ps, stay, esp, idx, gone, RulingsOut(ip4, stay, esp, idx, gone))
  {
    var a, b, c := AllOut(stay, ip4, Same(Bypasses, |stay|)), AllOut(esp, ip4, ActsOf(idx)),
        AllOut(gone, ip4, Same(Discards, |gone|));
    var rs := a + b + c;
    forall p | p in stay ensures RuledOut(p, ip4, Bypasses) in rs {
      var i :| 0 <= i < |stay| && stay[i] == p;
      assert a[i] in a;
    }
    forall p | p in gone ensures RuledOut(p, ip4, Discards) in rs {
      var i :| 0 <= i < |gone| && gone[i] == p;
      assert c[i] in c;
    }
    forall i | 0 <= i < |esp| ensures ToProtect(rs, esp[i], ip4, idx[i]) {
      assert b[i] in b;
    }
    forall p | p in ps ensures RuledOn(rs, p, ip4, false) {
      if p in stay {
        assert Decides(RuledOut(p, ip4, Bypasses), p, ip4, false);
      } else if p in gone {
        assert Decides(RuledOut(p, ip4, Discards), p, ip4, false);
      } else {
        var i :| 0 <= i < |esp| && esp[i] == p;
        assert ToProtect(rs, esp[i], ip4, idx[i]);
        assert Decides(RuledOut(p, ip4, Protects(idx[i].value)), p, ip4, false);
      }
    }
  }

  /** ipsec_outbound: enqueue under the SAs named by the policy, and give back what inline processing left. */
  method OutboundEsp(g: Config, c: Ctx, esp: seq<Packet>, idx: seq<Option<nat>>, seqs: seq<nat>, w: World,
                     ghost v: Watch)
    returns (d: Ctx, out: seq<Packet>, freed: seq<Packet>, seqs': seq<nat>, ghost sns: seq<nat>)
    requires TablesOk(g, v) && OutCtx(g, v, c) && v.ports == g.ports
    requires |seqs| == |g.sasOut| && Plain(esp) && |esp| <= MAX_PKT_BURST && Assigned(g, esp, idx)
    ensures OutCtx(g, v, d) && Passed(c, esp, d, out, freed, v) && NumberedOn(c, seqs, d, seqs', sns, v)
    ensures Clean(out, v) && |out| <= |esp|
    ensures forall r :: r in out ==> r.offload && Offloaded(g, esp, idx, w, r)
    ensures forall q, r :: OnQp(d, q, r) ==> OnQp(c, q, r) || Comes(esp, idx, g.sasOut, false, Some(q), r)
    ensures forall p :: p in freed ==>
              HopelessIn(esp, idx, g.sasOut, |c.stage|, w, p) || MayFill(c, |esp|) || !w.good(p)
  {
    var e, f2;
    e, sns := Enqueue(c, esp, idx, g.sasOut, false, seqs, w, g.ports, v);
    out, f2 := InlineDequeue(e.inline, false, w.good, g.ports, v);
    d, freed, seqs' := e.ctx, e.freed + f2, e.seqs;
    CntConcat(e.freed, f2, v.mbuf);
    MarkedUnnumbered(out, false, g.ports, v);
    AllOffloaded(g, esp, idx, w, e.inline, out);
  }

  /** Packet r, but for the mark for Tx offload, was set aside by the SA named for it, and its status is good. */
  ghost predicate Offloaded(g: Config, esp: seq<Packet>, idx: seq<Option<nat>>, w: World, r: Packet)
  {
    exists o :: w.good(r.(offload := o)) && Comes(esp, idx, g.sasOut, false, None, r.(offload := o))
  }

  lemma AllOffloaded(g: Config, esp: seq<Packet>, idx: seq<Option<nat>>, w: World, inline: seq<Packet>,
                     out: seq<Packet>)
    requires forall o :: o in inline ==> Comes(esp, idx, g.sasOut, false, None, o)
    requires forall r :: r in out ==> FromInline(inline, false, w.good, r)
    ensures forall r :: r in out ==> r.offload && Offloaded(g, esp, idx, w, r)
  {
    forall r | r in out ensures r.offload && Offloaded(g, esp, idx, w, r) {
      var o :| o in inline && w.good(o) && ComesBackAs(o, false, r);
      assert r.(offload := o.offload) == o;
    }
  }

  /** Append what came out of inline processing to the packets that stayed, by version. */
  method Append(stay4: seq<Packet>, stay6: seq<Packet>, out: seq<Packet>, ghost v: Watch)
    returns (ip4: seq<Packet>, ip6: seq<Packet>)
    requires Clean(stay4, v) && Clean(stay6, v) && Clean(out, v)
    ensures Clean(ip4, v) && Clean(ip6, v) && Dealt(ip4 + ip6, stay4 + stay6, out, [], v)
    ensures forall p :: p in ip4 ==> p in stay4 || (p in out && p.ver == 4)
    ensures forall p :: p in ip6 ==> p in stay6 || (p in out && p.ver != 4)
  {
    var f := (p: Packet) => if p.ver == 4 then Ip4 else Ip6;
    var none, o4, o6, gone := DealOut(out, f);
    PickAll(out, f, v.mbuf);
    LaneEmpty(out, f, Esp);
    LaneEmpty(out, f, Gone);
    PickClean(out, f, Ip4, v);
    PickClean(out, f, Ip6, v);
    ip4, ip6 := stay4 + o4, stay6 + o6;
    PickIn(out, f, Ip4);
    PickIn(out, f, Ip6);
    CleanConcat(stay4, o4, v);
    CleanConcat(stay6, o6, v);
    CntConcat(stay4, o4, v.mbuf);
    CntConcat(stay6, o6, v.mbuf);
    CntConcat(ip4, ip6, v.mbuf);
    CntConcat(stay4, stay6, v.mbuf);
  }

  lemma CleanConcat(a: seq<Packet>, b: seq<Packet>, v: Watch)
    requires Clean(a, v) && Clean(b, v)
    ensures Clean(a + b, v)
  {
    SnsConcat(a, b, v.sa);
    RoutedConcat(a, b, v);
  }

  /** What is left of a burst from a protected port for the crypto queues and for routing. */
  datatype Sorted = Sorted(stay4: seq<Packet>, stay6: seq<Packet>, esp: seq<Packet>, idx: seq<Option<nat>>,
                           unread: seq<Packet>, denied: seq<Packet>, rulings: seq<Ruling>)

  /**
   * The packets that stay are those a rule lets bypass, those freed by order of the policy those it discards, and
   * those to protect have the SA beside them that their rule names; all of the burst but ESP has been decided about.
   */
  ghost predicate SortedOut(g: Config, pkts: seq<Packet>, t: Sorted, v: Watch)
  {
    && Clean(t.stay4, v) && Clean(t.stay6, v) && Plain(t.esp) && Assigned(g, t.esp, t.idx)
    && SortedBooks(pkts, t, v) && AllTrue(g, t.rulings) && AllRuled(g, t.rulings, pkts, false)
    && SetApart(t) && NoneClear(g, pkts, t.unread) && AboutBurst(pkts, t.rulings)
  }

  /** An outbound policy decides about packets of the burst as they arrived. */
  predicate AboutBurst(pkts: seq<Packet>, rs: seq<Ruling>)
  {
    forall r :: r in rs ==> r.RuledOut? && r.p in pkts
  }

  /** Nothing of the burst is lost, and the decisions account for what is freed by order of the policy and the rest. */
  predicate SortedBooks(pkts: seq<Packet>, t: Sorted, v: Watch)
  {
    && |t.stay4 + t.stay6| + |t.esp| + |t.unread| + |t.denied| == |pkts|
    && Cnt(t.stay4 + t.stay6, v.mbuf) + Cnt(t.esp, v.mbuf) + Cnt(t.unread, v.mbuf) + Cnt(t.denied, v.mbuf)
       == Cnt(pkts, v.mbuf)
    && CountedOut(t.stay4 + t.stay6, t.esp, t.denied, t.rulings, v.mbuf)
  }

  /** Packets of a burst that did not arrive in the clear. */
  predicate NoneClear(g: Config, pkts: seq<Packet>, ps: seq<Packet>)
  {
    forall p :: p in ps ==> p in pkts && !InTheClear(g, p, true) && !InTheClear(g, p, false)
  }

  ghost predicate SetApart(t: Sorted)
    requires |t.idx| == |t.esp|
  {
    && (forall p :: p in t.stay4 ==> RuledOut(p, true, Bypasses) in t.rulings)
    && (forall p :: p in t.stay6 ==> RuledOut(p, false, Bypasses) in t.rulings)
    && (forall i :: 0 <= i < |t.esp| ==> NamedBy(t.rulings, t.esp[i], t.idx[i]))
  }

  /** process_pkts_outbound up to the crypto queues: ESP from a protected port is freed, the rest meets the policy. */
  method OutboundSorted(g: Config, pkts: seq<Packet>, ghost v: Watch) returns (t: Sorted)
    requires VerdictsOk(g) && Plain(pkts)
    ensures SortedOut(g, pkts, t, v)
  {
    var drop, ip4, ip6, f0 := Prepared(g, pkts, v);
    var stay4, e4, i4, f4, r4 := JudgeOut(g, true, ip4, v);
    var stay6, e6, i6, f6, r6 := JudgeOut(g, false, ip6, v);
    t := Sorted(stay4, stay6, e4 + e6, i4 + i6, f0 + drop, f4 + f6, r4 + r6);
    BothOut(pkts, ip4, stay4, e4, f4, r4, ip6, stay6, e6, f6, r6, f0, drop, t, v);
    BothAssigned(g, stay4, e4, i4, r4, stay6, e6, i6, r6, v);
    AllApart(ip4, ip6, stay4, e4, i4, f4, r4, stay6, e6, i6, f6, r6, t);
    AllOfBurst(g, pkts, drop, ip4, ip6, f0, r4, r6);
  }

  /** Both families' packets and decisions together. */
  lemma {:induction false} BothOut(pkts: seq<Packet>, ip4: seq<Packet>, stay4: seq<Packet>, e4: seq<Packet>,
                                   f4: seq<Packet>, r4: seq<Ruling>, ip6: seq<Packet>, stay6: seq<Packet>,
                                   e6: seq<Packet>, f6: seq<Packet>, r6: seq<Ruling>, f0: seq<Packet>,
                                   drop: seq<Packet>, t: Sorted, v: Watch)
    requires Dealt(pkts, drop, ip4 + ip6, f0, v)
    requires Dealt(ip4, stay4, e4, f4, v) && CountedOut(stay4, e4, f4, r4, v.mbuf)
    requires Dealt(ip6, stay6, e6, f6, v) && CountedOut(stay6, e6, f6, r6, v.mbuf)
    requires t.stay4 == stay4 && t.stay6 == stay6 && t.esp == e4 + e6 && t.unread == f0 + drop
    requires t.denied == f4 + f6 && t.rulings == r4 + r6
    ensures SortedBooks(pkts, t, v)
  {
    CntConcat(ip4, ip6, v.mbuf);
    CntPairs(stay4, stay6, e4, e6, f0, drop, f4, f6, v.mbuf);
    RulingsConcat(r4, r6, v.mbuf);
  }

  lemma CntPairs(a: seq<Packet>, b: seq<Packet>, c: seq<Packet>, d: seq<Packet>, e: seq<Packet>, f: seq<Packet>,
                 h: seq<Packet>, k: seq<Packet>, x: nat)
    ensures Cnt(a + b, x) == Cnt(a, x) + Cnt(b, x) && Cnt(c + d, x) == Cnt(c, x) + Cnt(d, x)
    ensures Cnt(e + f, x) == Cnt(e, x) + Cnt(f, x) && Cnt(h + k, x) == Cnt(h, x) + Cnt(k, x)
  {
    CntConcat(a, b, x);
    CntConcat(c, d, x);
    CntConcat(e, f, x);
    CntConcat(h, k, x);
  }

  lemma BothAssigned(g: Config, stay4: seq<Packet>, e4: seq<Packet>, i4: seq<Option<nat>>, r4: seq<Ruling>,
                     stay6: seq<Packet>, e6: seq<Packet>, i6: seq<Option<nat>>, r6: seq<Ruling>, v: Watch)
    requires Plain(stay4) && Plain(e4) && Assigned(g, e4, i4) && AllTrue(g, r4)
    requires Plain(stay6) && Plain(e6) && Assigned(g, e6, i6) && AllTrue(g, r6)
    ensures Clean(stay4, v) && Clean(stay6, v) && Plain(e4 + e6) && Assigned(g, e4 + e6, i4 + i6)
    ensures AllTrue(g, r4 + r6)
  {
    PlainUnnumbered(stay4, v);
    PlainUnnumbered(stay6, v);
    PlainConcat(e4, e6);
  }

  lemma AllApart(ip4: seq<Packet>, ip6: seq<Packet>, stay4: seq<Packet>, e4: seq<Packet>, i4: seq<Option<nat>>,
                 f4: seq<Packet>, r4: seq<Ruling>, stay6: seq<Packet>, e6: seq<Packet>, i6: seq<Option<nat>>,
                 f6: seq<Packet>, r6: seq<Ruling>, t: Sorted)
    requires |i4| == |e4| && |i6| == |e6|
    requires JudgedOut(true, ip4, stay4, e4, i4, f4, r4) && JudgedOut(false, ip6, stay6, e6, i6, f6, r6)
    requires t.stay4 == stay4 && t.stay6 == stay6 && t.esp == e4 + e6 && t.idx == i4 + i6 && t.rulings == r4 + r6
    ensures SetApart(t)
  {
    forall i | 0 <= i < |t.esp| ensures NamedBy(t.rulings, t.esp[i], t.idx[i]) {
      if i < |e4| {
        assert ToProtect(r4, e4[i], true, i4[i]);
      } else {
        assert ToProtect(r6, e6[i - |e4|], false, i6[i - |e4|]);
      }
    }
  }

  /** What arrived in the clear has been decided about, and what is freed unread did not. */
  lemma AllOfBurst(g: Config, pkts: seq<Packet>, drop: seq<Packet>, ip4: seq<Packet>, ip6: seq<Packet>,
                   f0: seq<Packet>, r4: seq<Ruling>, r6: seq<Ruling>)
    requires Classified(g, pkts, drop, ip4, ip6, f0)
    requires forall p :: p in ip4 ==> RuledOn(r4, p, true, false)
    requires forall p :: p in ip6 ==> RuledOn(r6, p, false, false)
    requires AboutBurst(ip4, r4) && AboutBurst(ip6, r6)
    ensures AllRuled(g, r4 + r6, pkts, false) && NoneClear(g, pkts, f0 + drop) && AboutBurst(pkts, r4 + r6)
  {
    forall r | r in r4 + r6 ensures r.RuledOut? && r.p in pkts {
      assert ClassifiedOne(g, pkts, drop, ip4, ip6, f0, r.p);
    }
    forall p | p in f0 + drop ensures p in pkts && !InTheClear(g, p, true) && !InTheClear(g, p, false) {
      assert ClassifiedOne(g, pkts, drop, ip4, ip6, f0, p);
    }
    forall p, fam | p in pkts && InTheClear(g, p, fam) ensures RuledOn(r4 + r6, p, fam, false) {
      assert ClassifiedOne(g, pkts, drop, ip4, ip6, f0, p);
      if fam {
        var r :| r in r4 && Decides(r, p, true, false);
        assert r in r4 + r6;
      } else {
        var r :| r in r6 && Decides(r, p, false, false);
        assert r in r4 + r6;
      }
    }
  }

  /** Where a packet came from that an SA took: a decision to protect it under that SA. */
  lemma TakenByRuling(g: Config, t: Sorted, at: Option<nat>, p: Packet) returns (r: Ruling)
    requires |t.idx| == |t.esp| && SetApart(t) && Comes(t.esp, t.idx, g.sasOut, false, at, p)
    ensures r in t.rulings && Protected(g, r, at, p)
  {
    var i :| 0 <= i < |t.esp| && i < |t.idx| && ComesOf(t.esp[i], t.idx[i], g.sasOut, false, at, p);
    assert NamedBy(t.rulings, t.esp[i], t.idx[i]);
    if ToProtect(t.rulings, t.esp[i], true, t.idx[i]) {
      r := RuledOut(t.esp[i], true, Protects(t.idx[i].value));
    } else {
      r := RuledOut(t.esp[i], false, Protects(t.idx[i].value));
    }
  }

  /** What goes to routing from a burst may go where it is routed. */
  lemma BypassedOrOffloaded(g: Config, t: Sorted, w: World, out: seq<Packet>, ip4: seq<Packet>, ip6: seq<Packet>,
                            port: nat, p: Packet)
    requires |t.idx| == |t.esp| && SetApart(t) && RoutedTo(g, ip4, ip6, port, p)
    requires forall r :: r in out ==> r.offload && Offloaded(g, t.esp, t.idx, w, r)
    requires forall p :: p in ip4 ==> p in t.stay4 || (p in out && p.ver == 4)
    requires forall p :: p in ip6 ==> p in t.stay6 || (p in out && p.ver != 4)
    ensures Sendable(g, t.rulings, port, p)
    ensures WentWell(w, p) || RuledOut(p, true, Bypasses) in t.rulings || RuledOut(p, false, Bypasses) in t.rulings
  {
    if p in out {
      var o :| w.good(p.(offload := o)) && Comes(t.esp, t.idx, g.sasOut, false, None, p.(offload := o));
      var r := TakenByRuling(g, t, None, p.(offload := o));
      assert Cleared(g, r, port, p);
    } else if p in ip4 && BoundFor(p, g.rt4, port) {
      assert Cleared(g, RuledOut(p, true, Bypasses), port, p);
    } else {
      assert Cleared(g, RuledOut(p, false, Bypasses), port, p);
    }
  }

  /** process_pkts for a burst from a protected port. */
  method OutboundBurst(g: Config, s: State, pkts: seq<Packet>, w: World, ghost v: Watch) returns (t: State)
    requires Deployed(g, v) && Good(g, v, s) && Plain(pkts) && |pkts| <= MAX_PKT_BURST
    ensures Good(g, v, t) && t.arrived == s.arrived + pkts
    ensures s.rulings <= t.rulings && AllRuled(g, t.rulings, pkts, false)
    ensures UnreadFor(g, s, t, pkts, false, w) && UnsentOutFor(g, s, t, |pkts|, w)
    ensures SentOfBurst(s, t, pkts, w)
  {
    var sorted := OutboundSorted(g, pkts, v);
    var outb, out, f1, seqs;
    ghost var sns;
    outb, out, f1, seqs, sns := OutboundEsp(g, s.outb, sorted.esp, sorted.idx, s.seqs, w, v);
    var ip4, ip6 := Append(sorted.stay4, sorted.stay6, out, v);
    var ports, f2 := RouteBoth(g, s.ports, ip4, ip6, v);
    var m := Moves(pkts, sorted.unread, sorted.denied, f1 + f2, sorted.rulings);
    t := After(s, s.inb, outb, ports, seqs, m);
    CntConcat(f1, f2, v.mbuf);
    SnsConcat(ip4, ip6, v.sa);
    Balanced(v, s, t, m);
    OrderedOut(v, s, t, sns);
    RuledMore(g, v, s, t, m);
    OutboundJustified(g, s, t, pkts, w, sorted, out, ip4, ip6, m);
    StillRuled(g, s.rulings, sorted.rulings, pkts, false);
    OutboundCauses(g, s, t, pkts, w, sorted, out, ip4, ip6, f1, f2);
  }

  /** What is new at the ports is as it arrived in the burst, or was marked for Tx offload with a good status. */
  ghost predicate SentOfBurst(s: State, t: State, pkts: seq<Packet>, w: World)
  {
    forall port, p :: On(t.ports, port, p) ==> On(s.ports, port, p) || p in pkts || WentWell(w, p)
  }

  ghost predicate WentWell(w: World, p: Packet)
  {
    p.offload && exists o :: w.good(p.(offload := o))
  }

  /** What of a burst from a protected port is freed after the policy has a cause. */
  ghost predicate UnsentOutFor(g: Config, s: State, t: State, n: nat, w: World)
  {
    && s.unsent <= t.unsent
    && forall p :: p in New(s.unsent, t.unsent) ==>
         UnsentCause(g, t.rulings, s.ports, n, p) || RefusedCause(g, t.rulings, s.outb, n, w, p)
  }

  lemma OutboundCauses(g: Config, s: State, t: State, pkts: seq<Packet>, w: World, sorted: Sorted, out: seq<Packet>,
                       ip4: seq<Packet>, ip6: seq<Packet>, f1: seq<Packet>, f2: seq<Packet>)
    requires t.unread == s.unread + sorted.unread && t.unsent == s.unsent + (f1 + f2)
    requires t.rulings == s.rulings + sorted.rulings && |sorted.idx| == |sorted.esp| && SetApart(sorted)
    requires NoneClear(g, pkts, sorted.unread)
    requires |sorted.esp| <= |pkts| && |ip4| + |ip6| <= |pkts|
    requires forall r :: r in out ==> r.offload && Offloaded(g, sorted.esp, sorted.idx, w, r)
    requires forall p :: p in ip4 ==> p in sorted.stay4 || (p in out && p.ver == 4)
    requires forall p :: p in ip6 ==> p in sorted.stay6 || (p in out && p.ver != 4)
    requires SentUnless(g, s.ports, ip4, ip6, f2)
    requires forall p :: p in f1 ==>
               || HopelessIn(sorted.esp, sorted.idx, g.sasOut, |s.outb.stage|, w, p)
               || MayFill(s.outb, |sorted.esp|) || !w.good(p)
    ensures UnreadFor(g, s, t, pkts, false, w) && UnsentOutFor(g, s, t, |pkts|, w)
  {
    assert New(s.unread, t.unread) == sorted.unread && New(s.unsent, t.unsent) == f1 + f2;
    forall p | p in f1 ensures RefusedCause(g, t.rulings, s.outb, |pkts|, w, p) {
      RefusedOut(g, s, t, pkts, w, sorted, p);
    }
    forall p | p in f2 ensures UnsentCause(g, t.rulings, s.ports, |pkts|, p) {
      UnsentOut(g, s, t, pkts, w, sorted, out, ip4, ip6, f2, p);
    }
  }

  lemma RefusedOut(g: Config, s: State, t: State, pkts: seq<Packet>, w: World, sorted: Sorted, p: Packet)
    requires t.rulings == s.rulings + sorted.rulings && |sorted.idx| == |sorted.esp| && SetApart(sorted)
    requires |sorted.esp| <= |pkts|
    requires || HopelessIn(sorted.esp, sorted.idx, g.sasOut, |s.outb.stage|, w, p)
             || MayFill(s.outb, |sorted.esp|) || !w.good(p)
    ensures RefusedCause(g, t.rulings, s.outb, |pkts|, w, p)
  {
    if MayFill(s.outb, |sorted.esp|) {
      Traffic.FillsStill(s.outb, s.outb, 0, |sorted.esp|, |pkts|);
    } else if w.good(p) {
      var i :| 0 <= i < |sorted.esp| && i < |sorted.idx| && p == sorted.esp[i]
               && Hopeless(sorted.esp[i], sorted.idx[i], g.sasOut, |s.outb.stage|, w);
      assert NamedBy(sorted.rulings, sorted.esp[i], sorted.idx[i]);
      var ip4 := ToProtect(sorted.rulings, sorted.esp[i], true, sorted.idx[i]);
      var r := RuledOut(p, ip4, Protects(sorted.idx[i].value));
      assert r in t.rulings && RefusedBy(g, r, |s.outb.stage|, w, p);
    }
  }

  lemma UnsentOut(g: Config, s: State, t: State, pkts: seq<Packet>, w: World, sorted: Sorted, out: seq<Packet>,
                  ip4: seq<Packet>, ip6: seq<Packet>, f2: seq<Packet>, p: Packet)
    requires t.rulings == s.rulings + sorted.rulings && |sorted.idx| == |sorted.esp| && SetApart(sorted)
    requires |ip4| + |ip6| <= |pkts|
    requires forall r :: r in out ==> r.offload && Offloaded(g, sorted.esp, sorted.idx, w, r)
    requires forall p :: p in ip4 ==> p in sorted.stay4 || (p in out && p.ver == 4)
    requires forall p :: p in ip6 ==> p in sorted.stay6 || (p in out && p.ver != 4)
    requires SentUnless(g, s.ports, ip4, ip6, f2) && p in f2
    ensures UnsentCause(g, t.rulings, s.ports, |pkts|, p)
  {
    assert SentUnlessStuck(g, s.ports, ip4, ip6, f2, p);
    FillsMore(s.ports, |ip4| + |ip6|, |pkts|);
    if p in out {
      var o :| w.good(p.(offload := o)) && Comes(sorted.esp, sorted.idx, g.sasOut, false, None, p.(offload := o));
      var r := TakenByRuling(g, sorted, None, p.(offload := o));
      assert LeadsNowhere(g, r, p) || p.len > g.mtu || TxMayFill(s.ports, |pkts|);
    } else if p in ip4 && (p.len > g.mtu || Unrouted(p, g.rt4)) {
      assert RuledOut(p, true, Bypasses) in t.rulings;
      assert p.len > g.mtu || LeadsNowhere(g, RuledOut(p, true, Bypasses), p);
    } else if p in ip6 && (p.len > g.mtu || Unrouted(p, g.rt6)) {
      assert RuledOut(p, false, Bypasses) in t.rulings;
      assert p.len > g.mtu || LeadsNowhere(g, RuledOut(p, false, Bypasses), p);
    }
  }

  lemma OutboundJustified(g: Config, s: State, t: State, pkts: seq<Packet>, w: World, sorted: Sorted,
                          out: seq<Packet>, ip4: seq<Packet>, ip6: seq<Packet>, m: Moves)
    requires Justified(g, s) && t == After(s, t.inb, t.outb, t.ports, t.seqs, m) && m.rulings == sorted.rulings
    requires |sorted.idx| == |sorted.esp| && SetApart(sorted)
    requires forall r :: r in out ==> r.offload && Offloaded(g, sorted.esp, sorted.idx, w, r)
    requires forall p :: p in ip4 ==> p in sorted.stay4 || (p in out && p.ver == 4)
    requires forall p :: p in ip6 ==> p in sorted.stay6 || (p in out && p.ver != 4)
    requires forall w, p :: On(t.ports, w, p) ==> On(s.ports, w, p) || RoutedTo(g, ip4, ip6, w, p)
    requires forall q, r :: OnQp(t.outb, q, r) ==>
               OnQp(s.outb, q, r) || Comes(sorted.esp, sorted.idx, g.sasOut, false, Some(q), r)
    requires AboutBurst(pkts, sorted.rulings)
    ensures Justified(g, t) && SentOfBurst(s, t, pkts, w)
  {
    forall port, p | RoutedTo(g, ip4, ip6, port, p)
      ensures Sendable(g, m.rulings, port, p) && (p in pkts || WentWell(w, p))
    {
      BypassedOrOffloaded(g, sorted, w, out, ip4, ip6, port, p);
    }
    forall q, p | Comes(sorted.esp, sorted.idx, g.sasOut, false, Some(q), p) ensures Queued(g, m.rulings, q, p) {
      var r := TakenByRuling(g, sorted, Some(q), p);
    }
    JustifiedMore(g, s, t, m);
  }

  /** Packets staged now carry numbers above all that are under way. */
  lemma OrderedOut(v: Watch, s: State, t: State, sns: seq<nat>)
    requires Order(v, s) && NumberedOn(s.outb, s.seqs, t.outb, t.seqs, sns, v)
    requires Sub(TxPipe(t.ports, v), TxPipe(s.ports, v) + [])
    ensures Order(v, t)
  {
    if v.sa < |s.seqs| {
      PipeEnqueue(TxPipe(s.ports, v), QPipe(s.outb, v), TxPipe(t.ports, v), QPipe(t.outb, v), s.seqs[v.sa], sns,
          t.seqs[v.sa]);
    }
  }

  lemma PipeEnqueue(x: seq<nat>, q: seq<nat>, x': seq<nat>, q': seq<nat>, lo: nat, sns: seq<nat>, hi: nat)
    requires Piped(x, q, lo + 1) && Sub(x', x + []) && Sub(q', q + sns) && Between(lo, sns, hi)
    ensures Piped(x', q', hi + 1)
  {
    NothingNew(x, q, x', lo + 1);
    EnqueueKeepsOrder(x', q, q', lo, sns, hi);
  }

  /**
   * One turn of the main loop: the drain timer has expired, or a receive queue is served, with what the devices do in
   * that turn.
   */
  datatype Event = Timer | Burst(unprotected: bool, pkts: seq<Packet>, world: World)

  predicate EventOk(e: Event)
  {
    e.Burst? ==> |e.pkts| <= MAX_PKT_BURST && Plain(e.pkts)
  }

  /** Everything received during a run, in order. */
  function Received(es: seq<Event>): seq<Packet>
  {
    if es == [] then []
    else Received(es[..|es| - 1]) + (if es[|es| - 1].Burst? then es[|es| - 1].pkts else [])
  }

  /** One worker; the devices behind it act as they like. */
  class Lcore {
    const g: Config
    var s: State

    constructor (g: Config)
      ensures this.g == g && s == Idle(g)
    {
      this.g := g;
      s := Idle(g);
    }

    /** ipsec_poll_mode_worker: whatever arrives and however the devices behave, the books and the order are kept. */
    method Run(es: seq<Event>, ghost v: Watch)
      requires Deployed(g, v) && EventsOk(es)
      requires s == Idle(g)
      modifies this
      ensures Good(g, v, s) && s.arrived == Received(es) && EventsRuled(g, s.rulings, es, |es|)
    {
      StartsGood(g, v, es);
      s := Turns(g, s, es, v);
      EndsGood(g, v, s, es);
    }
  }

  /** The loop of ipsec_poll_mode_worker. */
  method Turns(g: Config, idle: State, es: seq<Event>, ghost v: Watch) returns (s: State)
    requires Deployed(g, v) && EventsOk(es) && SoFar(g, v, idle, es, 0)
    ensures SoFar(g, v, s, es, |es|)
  {
    s := idle;
    for i := 0 to |es|
      invariant SoFar(g, v, s, es, i)
    {
      s := TurnAt(g, s, es, i, v);
    }
  }

  /** After i turns. */
  ghost predicate SoFar(g: Config, v: Watch, s: State, es: seq<Event>, i: nat)
    requires i <= |es|
  {
    Good(g, v, s) && s.arrived == Received(es[..i]) && EventsRuled(g, s.rulings, es, i)
  }

  /** Whatever the first i bursts brought in the clear has been decided about. */
  ghost predicate EventsRuled(g: Config, rs: seq<Ruling>, es: seq<Event>, i: nat)
    requires i <= |es|
  {
    forall k :: 0 <= k < i && es[k].Burst? ==> AllRuled(g, rs, es[k].pkts, es[k].unprotected)
  }

  lemma RuledStill(g: Config, rs: seq<Ruling>, all: seq<Ruling>, pkts: seq<Packet>, unprotected: bool)
    requires rs <= all && AllRuled(g, rs, pkts, unprotected)
    ensures AllRuled(g, all, pkts, unprotected)
  {
    assert all == rs + all[|rs|..];
    StillRuled(g, rs, all[|rs|..], pkts, unprotected);
  }

  lemma EventsRuledMore(g: Config, rs: seq<Ruling>, all: seq<Ruling>, es: seq<Event>, i: nat)
    requires i < |es| && rs <= all && EventsRuled(g, rs, es, i)
    requires es[i].Burst? ==> AllRuled(g, all, es[i].pkts, es[i].unprotected)
    ensures EventsRuled(g, all, es, i + 1)
  {
    forall k | 0 <= k < i && es[k].Burst? ensures AllRuled(g, all, es[k].pkts, es[k].unprotected) {
      RuledStill(g, rs, all, es[k].pkts, es[k].unprotected);
    }
  }

  lemma StartsGood(g: Config, v: Watch, es: seq<Event>)
    requires Watches(g, v)
    ensures SoFar(g, v, Idle(g), es, 0)
  {
    IdleIsGood(g, v);
  }

  lemma EndsGood(g: Config, v: Watch, s: State, es: seq<Event>)
    requires SoFar(g, v, s, es, |es|)
    ensures Good(g, v, s) && s.arrived == Received(es) && EventsRuled(g, s.rulings, es, |es|)
  {
    assert es[..|es|] == es;
  }

  method TurnAt(g: Config, s: State, es: seq<Event>, i: nat, ghost v: Watch) returns (t: State)
    requires Deployed(g, v) && EventsOk(es) && i < |es| && SoFar(g, v, s, es, i)
    ensures SoFar(g, v, t, es, i + 1)
  {
    EventAt(es, i);
    ReceivedSnoc(es, i);
    t := Turn(g, s, es[i], v);
    EventsRuledMore(g, s.rulings, t.rulings, es, i);
  }

  predicate EventsOk(es: seq<Event>)
  {
    es == [] || (EventOk(es[0]) && EventsOk(es[1..]))
  }

  lemma {:induction false} EventAt(es: seq<Event>, i: nat)
    requires EventsOk(es) && i < |es|
    ensures EventOk(es[i])
  {
    if i > 0 {
      EventAt(es[1..], i - 1);
    }
  }

  lemma ReceivedSnoc(es: seq<Event>, i: nat)
    requires i < |es|
    ensures Received(es[..i + 1]) == Received(es[..i]) + (if es[i].Burst? then es[i].pkts else [])
  {
    assert es[..i + 1][..i] == es[..i] && es[..i + 1][i] == es[i];
  }

  /** A turn: buffers are drained, or a burst is processed and the queues of its direction are collected. */
  method Turn(g: Config, s: State, e: Event, ghost v: Watch) returns (t: State)
    requires Deployed(g, v) && Good(g, v, s) && EventOk(e)
    ensures Good(g, v, t) && t.arrived == s.arrived + (if e.Burst? then e.pkts else [])
    ensures s.rulings <= t.rulings && (e.Burst? ==> AllRuled(g, t.rulings, e.pkts, e.unprotected))
  {
    if e.Timer? {
      t := BuffersDrained(g, s, v);
      assert s.arrived + [] == s.arrived;
    } else if e.unprotected {
      t := InboundBurst(g, s, e.pkts, e.world, v);
      ghost var mid := t.rulings;
      t := InboundDrained(g, t, e.world, v);
      RuledStill(g, mid, t.rulings, e.pkts, true);
    } else {
      t := OutboundBurst(g, s, e.pkts, e.world, v);
      t := OutboundDrained(g, t, e.world, v);
    }
  }

  /** n empty lists. */
  function Empty(n: nat): (t: seq<seq<Packet>>)
    ensures |t| == n && forall i :: 0 <= i < n ==> t[i] == []
  {
    if n == 0 then [] else Empty(n - 1) + [[]]
  }

  function IdleCtx(n: nat): Ctx
  {
    Ctx(Empty(n), Empty(n), seq(n, i => 0), 0)
  }

  /** A worker that has not yet received anything. */
  function Idle(g: Config): State
  {
    State(IdleCtx(g.qpsIn), IdleCtx(g.qpsOut), Ports(Empty(g.ports), Empty(g.ports), 0), seq(|g.sasOut|, i => 0), 0,
        0, [], [], [], [], [])
  }

  lemma EmptyCnt(n: nat, x: nat)
    ensures Total(Empty(n)) == 0 && CntAll(Empty(n), x) == 0
  {
    NoneCounted(Empty(n), x);
  }

  lemma {:induction false} NoneCounted(t: seq<seq<Packet>>, x: nat)
    requires forall i :: 0 <= i < |t| ==> t[i] == []
    ensures Total(t) == 0 && CntAll(t, x) == 0
  {
    if t != [] {
      NoneCounted(t[1..], x);
    }
  }

  lemma IdleIsGood(g: Config, v: Watch)
    requires Watches(g, v)
    ensures Good(g, v, Idle(g))
  {
    IdleQueues(g, v);
    IdleCounts(g, v);
    IdleBooks(v, Idle(g));
    IdleOrder(v, Idle(g));
    IdleRuled(g, v, Idle(g));
    IdleJustified(g, Idle(g));
  }

  lemma IdleQueues(g: Config, v: Watch)
    ensures QueuesOk(g, v, Idle(g))
  {
    IdleCtxIsGood(g.qpsIn, Inside(g, v));
    IdleCtxIsGood(g.qpsOut, v);
    IdlePortsAreGood(g.ports, v);
  }

  lemma IdleCounts(g: Config, v: Watch)
    ensures var s := Idle(g);
            && PortsLen(s.ports) == CtxLen(s.inb) == CtxLen(s.outb) == 0
            && PortsCnt(s.ports, v) == CtxCnt(s.inb, v) == CtxCnt(s.outb, v) == 0
            && TxPipe(s.ports, v) == [] && QPipe(s.outb, v) == []
  {
    IdleCtxIsGood(g.qpsIn, v);
    IdleCtxIsGood(g.qpsOut, v);
    IdlePortsAreGood(g.ports, v);
  }

  lemma IdleRuled(g: Config, v: Watch, s: State)
    requires s.rulings == [] && s.denied == s.unsent == [] && OutCnt(s, v) == 0
    ensures Ruled(g, v, s)
  {
  }

  lemma IdleJustified(g: Config, s: State)
    requires forall i :: 0 <= i < |s.ports.tx| ==> s.ports.tx[i] == []
    requires forall i :: 0 <= i < |s.ports.sent| ==> s.ports.sent[i] == []
    requires forall i :: 0 <= i < |s.outb.stage| ==> s.outb.stage[i] == []
    requires forall i :: 0 <= i < |s.outb.dev| ==> s.outb.dev[i] == []
    ensures Justified(g, s)
  {
  }

  lemma IdleBooks(v: Watch, s: State)
    requires s.rx == s.dropped == 0 && s.arrived == s.unread == s.denied == s.unsent == []
    requires PortsLen(s.ports) == CtxLen(s.inb) == CtxLen(s.outb) == 0
    requires PortsCnt(s.ports, v) == CtxCnt(s.inb, v) == CtxCnt(s.outb, v) == 0
    ensures Books(v, s)
  {
  }

  lemma IdleOrder(v: Watch, s: State)
    requires TxPipe(s.ports, v) == [] && QPipe(s.outb, v) == []
    ensures Order(v, s)
  {
    if v.sa < |s.seqs| {
      OnlyOne(TxPipe(s.ports, v), QPipe(s.outb, v), s.seqs[v.sa] + 1);
    }
  }

  lemma OnlyOne(x: seq<nat>, q: seq<nat>, z: nat)
    requires x == [] && q == []
    ensures Piped(x, q, z)
  {
    assert x + q + [z] == [z];
  }

  lemma IdleCtxIsGood(n: nat, v: Watch)
    ensures var c := IdleCtx(n);
            CtxOk(c) && OnlyOn(c, v) && CtxLen(c) == 0 && CtxCnt(c, v) == 0 && QPipe(c, v) == []
  {
    EmptyCnt(n, v.mbuf);
  }

  lemma IdlePortsAreGood(n: nat, v: Watch)
    ensures var a := Ports(Empty(n), Empty(n), 0);
            PortsOk(a) && Homed(a, v) && PortsLen(a) == 0 && PortsCnt(a, v) == 0 && TxPipe(a, v) == []
  {
    EmptyCnt(n, v.mbuf);
  }

  /**
   * Copies of the watched mbuf freed before a policy saw it, by order of one and after one, sent, buffered, and staged
   * or in a device on either side.
   */
  function Places(v: Watch, s: State): (r: seq<nat>)
  {
    [Cnt(s.unread, v.mbuf), Cnt(s.denied, v.mbuf), Cnt(s.unsent, v.mbuf), CntAll(s.ports.sent, v.mbuf),
     CntAll(s.ports.tx, v.mbuf), CntAll(s.inb.stage, v.mbuf),
     CntAll(s.inb.dev, v.mbuf), CntAll(s.outb.stage, v.mbuf), CntAll(s.outb.dev, v.mbuf)]
  }

  /** The policy of its direction and family refuses a packet that arrived in the clear. */
  predicate Refused(g: Config, p: Packet, ip4: bool, unprotected: bool)
  {
    if unprotected then
      var sp := if ip4 then g.spIn4 else g.spIn6;
      sp.Some? && !sp.value(p, true)
    else
      var sp := if ip4 then g.spOut4 else g.spOut6;
      sp.Some? && sp.value(p) == 0
  }

  /**
   * An mbuf received once, in the clear, has been freed by order of a policy exactly if its family's table refuses it,
   * and then is nowhere else; if not, it has gone on: it is at a port or on the outbound side, or was freed there.
   */
  lemma ClearVerdict(g: Config, v: Watch, s: State, pkts: seq<Packet>, p: Packet, ip4: bool, unprotected: bool)
    requires Good(g, v, s) && AllRuled(g, s.rulings, pkts, unprotected)
    requires p in pkts && InTheClear(g, p, ip4) && v.mbuf == p.id && Cnt(s.arrived, p.id) == 1
    ensures Cnt(s.unread, p.id) == 0 && CtxCnt(s.inb, v) == 0
    ensures Cnt(s.denied, p.id) == if Refused(g, p, ip4, unprotected) then 1 else 0
    ensures Cnt(s.unsent, p.id) + OutCnt(s, v) == if Refused(g, p, ip4, unprotected) then 0 else 1
  {
    assert RuledOn(s.rulings, p, ip4, unprotected);
    VerdictCounts(g, v, s, p, ip4, unprotected);
  }

  lemma VerdictCounts(g: Config, v: Watch, s: State, p: Packet, ip4: bool, unprotected: bool)
    requires Books(v, s) && Ruled(g, v, s) && RuledOn(s.rulings, p, ip4, unprotected)
    requires InTheClear(g, p, ip4) && v.mbuf == p.id && Cnt(s.arrived, p.id) == 1
    ensures Cnt(s.unread, p.id) == 0 && CtxCnt(s.inb, v) == 0
    ensures Cnt(s.denied, p.id) == if Refused(g, p, ip4, unprotected) then 1 else 0
    ensures Cnt(s.unsent, p.id) + OutCnt(s, v) == if Refused(g, p, ip4, unprotected) then 0 else 1
  {
    var r :| r in s.rulings && Decides(r, p, ip4, unprotected);
    assert Truly(g, r);
    RulingCounts(s.rulings, r);
  }

  /** What an SA has done to a packet at port w. */
  predicate SentUnder(sa: SaInfo, idx: nat, w: nat, q: Packet)
  {
    && sa.kind != CpuCrypto && q.saPort == Some(sa.port)
    && (sa.kind == InlineCrypto || sa.kind == InlineProtocol ==> q.offload && w == sa.port)
    && (sa.kind == InlineCrypto || sa.kind == LookasideNone ==> q.tag.Some? && q.tag.value.sa == idx)
    && (sa.kind != InlineProtocol && sa.tunnel ==> q.ver == sa.ver && q.dst == sa.dst)
  }

  lemma ProtectionShows(g: Config, r: Ruling, w: nat, q: Packet)
    requires r.RuledOut? && r.act.Protects? && Cleared(g, r, w, q)
    ensures r.act.sa < |g.sasOut| && SentUnder(g.sasOut[r.act.sa], r.act.sa, w, q)
  {
  }

  /** What lets a packet go to a port is a decision about its mbuf. */
  lemma ClearedAbout(g: Config, r: Ruling, w: nat, q: Packet)
    requires Cleared(g, r, w, q)
    ensures r.p.id == q.id
  {
  }

  /**
   * A packet received once, from a protected port, whose rule names an SA, is at a port only as that SA sends it: with
   * the SA's number and header where the gateway encapsulates, and marked for Tx offload at the SA's own port where the
   * port does.
   */
  lemma ProtectedNeverBare(g: Config, v: Watch, s: State, pkts: seq<Packet>, p: Packet, ip4: bool, rule: Packet -> nat,
                           w: nat, q: Packet)
    requires Good(g, v, s) && AllRuled(g, s.rulings, pkts, false)
    requires p in pkts && InTheClear(g, p, ip4) && v.mbuf == p.id && Cnt(s.arrived, p.id) == 1
    requires (if ip4 then g.spOut4 else g.spOut6) == Some(rule) && rule(p) != DISCARD && rule(p) != BYPASS
    requires On(s.ports, w, q) && q.id == p.id
    ensures rule(p) <= |g.sasOut| && SentUnder(g.sasOut[rule(p) - 1], rule(p) - 1, w, q)
  {
    assert RuledOn(s.rulings, p, ip4, false) && Sendable(g, s.rulings, w, q);
    OneDecision(g, v, s, p, ip4, rule, w, q);
  }

  lemma OneDecision(g: Config, v: Watch, s: State, p: Packet, ip4: bool, rule: Packet -> nat, w: nat, q: Packet)
    requires Books(v, s) && Ruled(g, v, s) && RuledOn(s.rulings, p, ip4, false) && Sendable(g, s.rulings, w, q)
    requires v.mbuf == p.id == q.id && Cnt(s.arrived, p.id) == 1
    requires (if ip4 then g.spOut4 else g.spOut6) == Some(rule) && rule(p) != DISCARD && rule(p) != BYPASS
    ensures rule(p) <= |g.sasOut| && SentUnder(g.sasOut[rule(p) - 1], rule(p) - 1, w, q)
  {
    var r :| r in s.rulings && Decides(r, p, ip4, false);
    assert Truly(g, r);
    var c :| c in s.rulings && Cleared(g, c, w, q);
    ClearedAbout(g, c, w, q);
    OnlyRuling(s.rulings, r, c);
    ProtectionShows(g, r, w, q);
  }

  /** Exactly one number is 1 and the others are 0. */
  predicate OneOf(ns: seq<nat>)
  {
    ns != [] && ((ns[0] == 1 && Sum(ns[1..]) == 0) || (ns[0] == 0 && OneOf(ns[1..])))
  }

  lemma {:induction false} SumOne(ns: seq<nat>)
    requires Sum(ns) == 1
    ensures OneOf(ns)
  {
    if ns[0] == 0 {
      SumOne(ns[1..]);
    }
  }

  /** What the books mean for an mbuf received once: it is in exactly one place, and only once there. */
  lemma OnePlace(v: Watch, s: State)
    requires Books(v, s) && Cnt(s.arrived, v.mbuf) == 1
    ensures OneOf(Places(v, s))
  {
    SumNine(Places(v, s));
    SumOne(Places(v, s));
  }

  lemma SumNine(ns: seq<nat>)
    requires |ns| == 9
    ensures Sum(ns) == ns[0] + ns[1] + ns[2] + ns[3] + ns[4] + ns[5] + ns[6] + ns[7] + ns[8]
  {
    SumTail(ns, 0);
    SumTail(ns, 1);
    SumTail(ns, 2);
    SumTail(ns, 3);
    SumTail(ns, 4);
    SumTail(ns, 5);
    SumTail(ns, 6);
    SumTail(ns, 7);
    SumTail(ns, 8);
    assert ns[0..] == ns && Sum(ns[9..]) == 0;
  }

  lemma SumTail(ns: seq<nat>, i: nat)
    requires i < |ns|
    ensures Sum(ns[i..]) == ns[i] + Sum(ns[i + 1..])
  {
    assert ns[i..][1..] == ns[i + 1..];
  }

  /** The counters: received is sent plus dropped plus buffered plus staged plus in flight. */
  function Sum(ns: seq<nat>): nat
  {
    if ns == [] then 0 else ns[0] + Sum(ns[1..])
  }

  lemma SumOfDevices(c: Ctx)
    requires Shaped(c)
    ensures Sum(c.inFlight) == Total(c.dev)
  {
    SumIsTotal(c.inFlight, c.dev);
  }

  lemma {:induction false} SumIsTotal(ns: seq<nat>, t: seq<seq<Packet>>)
    requires |ns| == |t| && forall i :: 0 <= i < |t| ==> ns[i] == |t[i]|
    ensures Sum(ns) == Total(t)
  {
    if t != [] {
      SumIsTotal(ns[1..], t[1..]);
    }
  }

  lemma CountersAddUp(g: Config, v: Watch, s: State)
    requires Good(g, v, s)
    ensures s.rx == s.ports.txCount + s.dropped + Total(s.ports.tx)
                    + Total(s.inb.stage) + Sum(s.inb.inFlight) + Total(s.outb.stage) + Sum(s.outb.inFlight)
  {
    SumOfDevices(s.inb);
    SumOfDevices(s.outb);
  }

  const SEQ_LIMIT := 0x1_0000_0000

  /** The 32-bit sequence numbers in the ESP headers of the watched SA's packets on a list. */
  function EspNumbers(sns: seq<nat>): (r: seq<nat>)
    ensures |r| == |sns| && forall i :: 0 <= i < |r| ==> r[i] == sns[i] % SEQ_LIMIT
  {
    if sns == [] then [] else [sns[0] % SEQ_LIMIT] + EspNumbers(sns[1..])
  }

  /**
   * While the SA has numbered fewer than 2^32 packets, those of them that left did so through one port, and the
   * sequence numbers in their headers went up.
   */
  lemma InOrderOnTheWire(g: Config, v: Watch, s: State)
    requires Good(g, v, s) && v.sa < |s.seqs| && s.seqs[v.sa] < SEQ_LIMIT
    ensures forall i :: 0 <= i < |s.ports.sent| && i != v.home ==> Sns(s.ports.sent[i], v.sa) == []
    ensures var left := EspNumbers(Sns(At(s.ports.sent, v.home), v.sa));
            forall i, j :: 0 <= i < j < |left| ==> left[i] < left[j]
  {
    FirstOfThree(Sns(At(s.ports.sent, v.home), v.sa), Sns(At(s.ports.tx, v.home), v.sa), QPipe(s.outb, v),
        s.seqs[v.sa]);
  }

  lemma {:induction false} FirstOfThree(sns: seq<nat>, a: seq<nat>, b: seq<nat>, last: nat)
    requires Piped(sns + a, b, last + 1) && last < SEQ_LIMIT
    ensures forall i, j :: 0 <= i < j < |sns| ==> EspNumbers(sns)[i] < EspNumbers(sns)[j]
  {
    assert sns + a + b + [last + 1] == sns + (a + b) + [last + 1];
    BelowLimit(sns, a + b, last);
  }

  lemma Uncut(n: nat)
    requires n < SEQ_LIMIT
    ensures n % SEQ_LIMIT == n
  {
  }

  lemma {:induction false} BelowLimit(sns: seq<nat>, rest: seq<nat>, last: nat)
    requires Increasing(sns + rest + [last + 1]) && last < SEQ_LIMIT
    ensures forall i, j :: 0 <= i < j < |sns| ==> EspNumbers(sns)[i] < EspNumbers(sns)[j]
  {
    var all := sns + rest + [last + 1];
    forall i, j | 0 <= i < j < |sns| ensures EspNumbers(sns)[i] < EspNumbers(sns)[j] {
      assert all[i] == sns[i] && all[j] == sns[j] && all[|all| - 1] == last + 1;
      IncreasingAt(all, i, j);
      IncreasingAt(all, j, |all| - 1);
      Uncut(sns[i]);
      Uncut(sns[j]);
    }
  }
}
