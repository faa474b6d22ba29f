/** Sorting packets by type and policy, and handing them to the crypto queues (ipsec-secgw.c, ipsec.c). */
module Traffic {
  import opened Common
  import opened Packets
  import opened CryptoContext

  /** Where a packet of a burst goes next. */
  datatype Lane = Esp | Ip4 | Ip6 | Gone

  /** prepare_one_packet: by ether type, protocol and, with UDP encapsulation on, the NAT-T port. */
  function PrepareLane(p: Packet, udpEncap: bool): Lane
  {
    var encapsulated := p.proto == ProtoEsp || (p.proto == ProtoUdp && udpEncap && p.natPort);
    match p.ether
    case EtherIp4 => if encapsulated then Esp else Ip4
    case EtherIp6 => if p.longHeader then Gone else if encapsulated then Esp else Ip6
    case EtherOther => Gone
  }

  /** split46_traffic: by the version nibble of the header in front. */
  function SplitLane(p: Packet): Lane
  {
    if p.ver == 4 then Ip4 else if p.ver == 6 then Ip6 else Gone
  }

  /** outbound_spd_lookup: bypassed packets stay where they are (here: lane Ip4), protected ones go to ESP. */
  function PolicyLane(res: nat): Lane
  {
    if res == DISCARD then Gone else if res == BYPASS then Ip4 else Esp
  }

  /** The packets a lane gets, in arrival order. */
  function Pick(ps: seq<Packet>, f: Packet -> Lane, l: Lane): seq<Packet>
  {
    if ps == [] then []
    else if f(ps[0]) == l then [ps[0]] + Pick(ps[1..], f, l)
    else Pick(ps[1..], f, l)
  }

  lemma {:induction false} PickSnoc(ps: seq<Packet>, p: Packet, f: Packet -> Lane, l: Lane)
    ensures Pick(ps + [p], f, l) == Pick(ps, f, l) + (if f(p) == l then [p] else [])
  {
    if ps == [] {
      assert ps + [p] == [p];
      assert Pick([p], f, l) == if f(p) == l then [p] else [];
    } else {
      assert (ps + [p])[1..] == ps[1..] + [p];
      PickSnoc(ps[1..], p, f, l);
    }
  }

  /** Every packet is dealt to exactly one lane. */
  lemma {:induction false} PickAll(ps: seq<Packet>, f: Packet -> Lane, x: nat)
    ensures |Pick(ps, f, Esp)| + |Pick(ps, f, Ip4)| + |Pick(ps, f, Ip6)| + |Pick(ps, f, Gone)| == |ps|
    ensures Cnt(Pick(ps, f, Esp), x) + Cnt(Pick(ps, f, Ip4), x) + Cnt(Pick(ps, f, Ip6), x)
            + Cnt(Pick(ps, f, Gone), x) == Cnt(ps, x)
  {
    if ps != [] {
      PickAll(ps[1..], f, x);
      PickHead(ps, f, Esp, x);
      PickHead(ps, f, Ip4, x);
      PickHead(ps, f, Ip6, x);
      PickHead(ps, f, Gone, x);
    }
  }

  lemma PickHead(ps: seq<Packet>, f: Packet -> Lane, l: Lane, x: nat)
    requires ps != []
    ensures |Pick(ps, f, l)| == |Pick(ps[1..], f, l)| + (if f(ps[0]) == l then 1 else 0)
    ensures Cnt(Pick(ps, f, l), x) == Cnt(Pick(ps[1..], f, l), x) + (if f(ps[0]) == l then Cnt([ps[0]], x) else 0)
  {
    if f(ps[0]) == l {
      CntConcat([ps[0]], Pick(ps[1..], f, l), x);
    }
  }

  /** A packet no outbound SA has numbered and nothing has been marked on. */
  predicate PlainOne(p: Packet)
  {
    p.tag.None? && !p.offload
  }

  predicate Plain(ps: seq<Packet>)
  {
    ps == [] || (PlainOne(ps[0]) && Plain(ps[1..]))
  }

  lemma {:induction false} PlainConcat(a: seq<Packet>, b: seq<Packet>)
    ensures Plain(a + b) <==> Plain(a) && Plain(b)
  {
    if a == [] {
      assert a + b == b;
    } else {
      assert (a + b)[1..] == a[1..] + b;
      PlainConcat(a[1..], b);
    }
  }

  lemma {:induction false} PlainAt(a: seq<Packet>, i: nat)
    requires Plain(a) && i < |a|
    ensures PlainOne(a[i])
  {
    if i > 0 {
      PlainAt(a[1..], i - 1);
    }
  }

  lemma {:induction false} PlainUnnumbered(a: seq<Packet>, v: Watch)
    requires Plain(a)
    ensures Sns(a, v.sa) == [] && Routed(a, v)
  {
    if a != [] {
      PlainUnnumbered(a[1..], v);
    }
  }

  lemma {:induction false} PickPlain(ps: seq<Packet>, f: Packet -> Lane, l: Lane)
    requires Plain(ps)
    ensures Plain(Pick(ps, f, l))
  {
    if ps != [] {
      PickPlain(ps[1..], f, l);
      PlainConcat([ps[0]], Pick(ps[1..], f, l));
      assert Plain([ps[0]]);
    }
  }

  /** prepare_traffic, split46_traffic and outbound_spd_lookup: one pass that deals the packets out in order. */
  method DealOut(ps: seq<Packet>, f: Packet -> Lane)
    returns (esp: seq<Packet>, ip4: seq<Packet>, ip6: seq<Packet>, gone: seq<Packet>)
    ensures esp == Pick(ps, f, Esp) && ip4 == Pick(ps, f, Ip4) && ip6 == Pick(ps, f, Ip6) && gone == Pick(ps, f, Gone)
  {
    esp, ip4, ip6, gone := [], [], [], [];
    for i := 0 to |ps|
      invariant esp == Pick(ps[..i], f, Esp) && ip4 == Pick(ps[..i], f, Ip4)
      invariant ip6 == Pick(ps[..i], f, Ip6) && gone == Pick(ps[..i], f, Gone)
    {
      var p := ps[i];
      assert ps[..i + 1] == ps[..i] + [p];
      PickSnoc(ps[..i], p, f, Esp);
      PickSnoc(ps[..i], p, f, Ip4);
      PickSnoc(ps[..i], p, f, Ip6);
      PickSnoc(ps[..i], p, f, Gone);
      match f(p)
      case Esp => esp := esp + [p];
      case Ip4 => ip4 := ip4 + [p];
      case Ip6 => ip6 := ip6 + [p];
      case Gone => gone := gone + [p];
    }
    assert ps[..|ps|] == ps;
  }

  /** A lane that gets all of the watched SA's packets gets them in order; one that gets none has none. */
  lemma {:induction false} PickOrder(ps: seq<Packet>, f: Packet -> Lane, l: Lane, mine: bool, v: Watch)
    requires Routed(ps, v)
    requires forall p :: p in ps && p.tag.Some? && p.tag.value.sa == v.sa ==> (f(p) == l <==> mine)
    ensures Sns(Pick(ps, f, l), v.sa) == (if mine then Sns(ps, v.sa) else []) && Routed(Pick(ps, f, l), v)
  {
    if ps != [] {
      var p, rest := ps[0], Pick(ps[1..], f, l);
      assert forall q :: q in ps[1..] ==> q in ps;
      PickOrder(ps[1..], f, l, mine, v);
      if f(p) == l {
        SnsConcat([p], rest, v.sa);
        RoutedConcat([p], rest, v);
        assert Sns([p], v.sa) == if p.tag.Some? && p.tag.value.sa == v.sa then [p.tag.value.sn] else [];
      }
    }
  }

  lemma {:induction false} RoutedIn(ps: seq<Packet>, p: Packet, v: Watch)
    requires Routed(ps, v) && p in ps
    ensures RoutedOne(p, v)
  {
    if p != ps[0] {
      RoutedIn(ps[1..], p, v);
    }
  }

  /** split46_traffic keeps the watched SA's packets together and in order: they all carry its outer version. */
  lemma SplitOrder(ps: seq<Packet>, v: Watch)
    requires Routed(ps, v) && v.ver in {4, 6}
    ensures var ip4, ip6 := Pick(ps, SplitLane, Ip4), Pick(ps, SplitLane, Ip6);
            && Sns(ip4, v.sa) == (if v.ver == 4 then Sns(ps, v.sa) else [])
            && Sns(ip6, v.sa) == (if v.ver == 6 then Sns(ps, v.sa) else [])
            && Routed(ip4, v) && Routed(ip6, v)
  {
    forall p | p in ps && p.tag.Some? && p.tag.value.sa == v.sa ensures p.ver == v.ver {
      RoutedIn(ps, p, v);
    }
    PickOrder(ps, SplitLane, Ip4, v.ver == 4, v);
    PickOrder(ps, SplitLane, Ip6, v.ver == 6, v);
  }

  datatype SessionType = LookasideProtocol | CpuCrypto | LookasideNone | InlineProtocol | InlineCrypto

  /**
   * What the data path reads of an SA. `qp` is the queue pair that the lcore's device map has for its algorithms; a
   * number that the context has no queue pair for stands for no entry, and then no session can be created. `ver`
   * and `dst` are the outer header of a tunnel.
   */
  datatype SaInfo = SaInfo(kind: SessionType, qp: nat, tunnel: bool, ver: nat, dst: nat, udpEncap: bool, port: nat)

  predicate Inline(sa: SaInfo)
  {
    sa.kind == InlineProtocol || sa.kind == InlineCrypto
  }

  /**
   * An SA of a table, and what the data path may rely on: an inline SA has a port. Others may have none, and no SA need
   * have a queue pair here.
   */
  predicate SaOk(sa: SaInfo, idx: nat, inbound: bool, ports: nat, v: Watch)
  {
    && (Inline(sa) ==> sa.port < ports)
    && (!inbound && idx == v.sa ==>
          sa.kind == LookasideNone && sa.tunnel && sa.qp == v.qp && sa.ver == v.ver && sa.dst == v.dst)
  }

  /** The header that is in front once a tunnel SA has been applied. */
  function Outer(p: Packet, sa: SaInfo): Packet
  {
    p.(ver := if sa.tunnel then sa.ver else p.ver, dst := if sa.tunnel then sa.dst else p.dst)
  }

  /** esp_outbound as the pipeline sees it: outer header of a tunnel, a fresh sequence number, a new length. */
  function Encapsulated(p: Packet, sa: SaInfo, idx: nat, sn: nat, len: nat): Packet
  {
    Outer(p, sa).(tag := Some(Tag(idx, sn)), saPort := Some(sa.port), len := len)
  }

  /** A packet waiting for inline processing: not numbered by the watched SA, and with its SA's port at hand. */
  predicate MarkedOne(p: Packet, inbound: bool, ports: nat, v: Watch)
  {
    && p.saPort.Some? && p.saPort.value < ports
    && (p.tag.Some? ==> p.tag.value.sa != v.sa)
    && (inbound ==> PlainOne(p))
  }

  predicate Marked(ps: seq<Packet>, inbound: bool, ports: nat, v: Watch)
  {
    ps == [] || (MarkedOne(ps[0], inbound, ports, v) && Marked(ps[1..], inbound, ports, v))
  }

  lemma {:induction false} MarkedConcat(a: seq<Packet>, b: seq<Packet>, inbound: bool, ports: nat, v: Watch)
    ensures Marked(a + b, inbound, ports, v) <==> Marked(a, inbound, ports, v) && Marked(b, inbound, ports, v)
  {
    if a == [] {
      assert a + b == b;
    } else {
      assert (a + b)[1..] == a[1..] + b;
      MarkedConcat(a[1..], b, inbound, ports, v);
    }
  }

  lemma {:induction false} MarkedUnnumbered(a: seq<Packet>, inbound: bool, ports: nat, v: Watch)
    requires Marked(a, inbound, ports, v) && ports <= v.ports
    ensures Sns(a, v.sa) == [] && Routed(a, v) && (inbound ==> Plain(a))
  {
    if a != [] {
      MarkedUnnumbered(a[1..], inbound, ports, v);
    }
  }

  /** Numbers strictly between two counter values, in increasing order. */
  predicate Between(lo: nat, sns: seq<nat>, hi: nat)
  {
    Increasing([lo] + sns + [hi + 1])
  }

  lemma BetweenNone(lo: nat, hi: nat)
    requires lo <= hi
    ensures Between(lo, [], hi)
  {
    assert [lo] + [] + [hi + 1] == [lo, hi + 1];
  }

  lemma BetweenOne(lo: nat)
    ensures Between(lo, [lo + 1], lo + 1)
  {
    var a, b := [lo, lo + 1, lo + 2], [lo + 1, lo + 2];
    assert [lo] + [lo + 1] + [lo + 1 + 1] == a;
    assert a[1..] == b && Increasing(b);
  }

  /** What becomes of the packet before it reaches a queue: freed, set aside for inline processing, or to be staged. */
  datatype Fate = ToFree | ToInline(p: Packet) | ToStage(p: Packet)

  /** The header in front of q: an outbound tunnel SA's own, except where the device has yet to write it; else p's. */
  predicate Fronted(p: Packet, sa: SaInfo, inbound: bool, q: Packet)
  {
    if !inbound && sa.tunnel && sa.kind != InlineProtocol then q.ver == sa.ver && q.dst == sa.dst
    else q.ver == p.ver && q.dst == p.dst
  }

  /**
   * Packet q is p as SA `idx` sends it on: with the SA's port at hand, behind the SA's header, numbered where the
   * gateway itself does the encapsulation, and otherwise as it was. `at` is the queue pair it waits for, the SA's own,
   * or None for a packet set aside for inline processing.
   */
  predicate TakenAs(p: Packet, sa: SaInfo, idx: nat, inbound: bool, at: Option<nat>, q: Packet)
  {
    && q == p.(tag := q.tag, saPort := Some(sa.port), ver := q.ver, dst := q.dst, len := q.len)
    && Fronted(p, sa, inbound, q)
    && (if !inbound && (sa.kind == LookasideNone || sa.kind == InlineCrypto) then q.tag.Some? && q.tag.value.sa == idx
        else q.tag == p.tag && q.len == p.len)
    && match at
       case None => sa.kind == InlineProtocol || sa.kind == InlineCrypto
       case Some(qp) => qp == sa.qp && (sa.kind == LookasideNone || sa.kind == LookasideProtocol)
  }

  /** The counter moves by one with a packet that the gateway numbers, and the packet gets it; else not, or in vain. */
  predicate CountedOn(sa: SaInfo, idx: nat, inbound: bool, fate: Fate, seqs: seq<nat>, seqs': seq<nat>)
  {
    if inbound || (sa.kind != LookasideNone && sa.kind != InlineCrypto) then seqs' == seqs
    else
      && idx < |seqs|
      && (seqs' == seqs || seqs' == seqs[idx := seqs[idx] + 1])
      && (!fate.ToFree? ==> seqs' == seqs[idx := seqs[idx] + 1] && fate.p.tag == Some(Tag(idx, seqs[idx] + 1)))
  }

  /**
   * What the driver calls for a packet come to: whether a session can be created, whether the transform succeeds,
   * whether a failing one has used up a number, and the new length.
   */
  datatype Outcome = Outcome(session: bool, xform: bool, numbered: bool, len: nat)

  /**
   * What the devices do during a turn: how much each crypto device has finished, how the driver calls for a packet come
   * out, and which packets come back good.
   */
  datatype World = World(ready: seq<nat>, outcome: Packet -> Outcome, good: Packet -> bool)

  /** Why an SA does not take a packet. */
  predicate Refuses(p: Packet, sa: SaInfo, qps: nat, o: Outcome)
  {
    match sa.kind
    case CpuCrypto => true
    case LookasideProtocol => !o.session || sa.qp >= qps || (p.natPort && !sa.udpEncap)
    case LookasideNone => !o.session || sa.qp >= qps || !o.xform
    case InlineCrypto => !o.xform
    case InlineProtocol => false
  }

  /**
   * The switch of ipsec_enqueue. A look-aside protocol device writes the outer header itself; it is written here
   * when the packet is staged, since nothing looks at the header before the device is done. Session creation and
   * the transform may fail at any time; a failing transform may or may not have used up a sequence number.
   */
  method Decide(p: Packet, sa: SaInfo, idx: nat, inbound: bool, seqs: seq<nat>, qps: nat, o: Outcome,
                ghost ports: nat, ghost v: Watch)
    returns (fate: Fate, seqs': seq<nat>)
    requires PlainOne(p) && SaOk(sa, idx, inbound, ports, v) && (!inbound ==> idx < |seqs|)
    ensures |seqs'| == |seqs| && (inbound ==> seqs' == seqs)
    ensures fate.ToInline? ==> fate.p.id == p.id && MarkedOne(fate.p, inbound, ports, v)
    ensures fate.ToStage? ==> fate.p.id == p.id && RoutedOne(fate.p, v) && (inbound ==> PlainOne(fate.p))
    ensures fate.ToFree? <==> Refuses(p, sa, qps, o)
    ensures fate.ToInline? ==> TakenAs(p, sa, idx, inbound, None, fate.p)
    ensures fate.ToStage? ==> TakenAs(p, sa, idx, inbound, Some(sa.qp), fate.p)
    ensures CountedOn(sa, idx, inbound, fate, seqs, seqs')
    ensures fate.ToStage? && sa.qp != v.qp ==> Sns([fate.p], v.sa) == []
    ensures v.sa < |seqs| ==> Between(seqs[v.sa], if fate.ToStage? then Sns([fate.p], v.sa) else [], seqs'[v.sa])
  {
    if v.sa < |seqs| {
      BetweenNone(seqs[v.sa], seqs[v.sa]);
      BetweenNone(seqs[v.sa], seqs[v.sa] + 1);
      BetweenOne(seqs[v.sa]);
    }
    var sessionFails, xformFails, numbered, len := !o.session || sa.qp >= qps, !o.xform, o.numbered, o.len;
    seqs', fate := seqs, ToFree;
    var kept := p.(saPort := Some(sa.port));
    match sa.kind
    case CpuCrypto =>
    case LookasideProtocol =>
      if !sessionFails && !(p.natPort && !sa.udpEncap) {
        fate := ToStage(if inbound then kept else Outer(kept, sa));
      }
    case InlineProtocol => fate := ToInline(kept);
    case LookasideNone =>
      if sessionFails {
      } else if inbound {
        fate := if xformFails then ToFree else ToStage(kept);
      } else if !xformFails {
        seqs' := seqs[idx := seqs[idx] + 1];
        fate := ToStage(Encapsulated(p, sa, idx, seqs'[idx], len));
        assert Sns([fate.p], v.sa) == if idx == v.sa then [seqs[idx] + 1] else [];
      } else if numbered {
        seqs' := seqs[idx := seqs[idx] + 1];
      }
    case InlineCrypto =>
      if inbound {
        fate := if xformFails then ToFree else ToInline(kept);
      } else if !xformFails {
        seqs' := seqs[idx := seqs[idx] + 1];
        fate := ToInline(Encapsulated(p, sa, idx, seqs'[idx], len));
      } else if numbered {
        seqs' := seqs[idx := seqs[idx] + 1];
      }
  }

  lemma BetweenThen(lo: nat, s1: seq<nat>, mid: nat, s2: seq<nat>, hi: nat)
    requires Between(lo, s1, mid) && Between(mid, s2, hi)
    ensures Between(lo, s1 + s2, hi)
  {
    var a, b, c := [lo] + s1 + [mid + 1], [mid] + s2 + [hi + 1], [lo] + (s1 + s2) + [hi + 1];
    forall i | 0 <= i < |c| - 1 ensures c[i] < c[i + 1] {
      if i < |s1| {
        assert c[i] == a[i] && c[i + 1] == a[i + 1];
        IncreasingAt(a, i, i + 1);
      } else if i > |s1| {
        assert c[i] == b[i - |s1|] && c[i + 1] == b[i - |s1| + 1];
        IncreasingAt(b, i - |s1|, i - |s1| + 1);
      } else {
        assert c[i] == a[i] && c[i + 1] == b[1] && a[i + 1] == mid + 1 && b[0] == mid;
        IncreasingAt(a, i, i + 1);
        IncreasingAt(b, 0, 1);
      }
    }
    IncreasingByNeighbours(c);
  }

  /** The lists a burst ends up on after ipsec_enqueue: queues, inline, freed; and the sequence counters. */
  datatype Enqueued = Enqueued(ctx: Ctx, inline: seq<Packet>, freed: seq<Packet>, seqs: seq<nat>)

  /**
   * Everything of `pkts` is in the queues, set aside, or freed; and the watched SA's numbers that went in, `sns`, come
   * after all the counter had given before.
   */
  ghost predicate TakesIn(c: Ctx, seqs: seq<nat>, pkts: seq<Packet>, e: Enqueued, sns: seq<nat>, inbound: bool,
                          ports: nat, v: Watch)
  {
    && CtxOk(c) && CtxOk(e.ctx) && |e.ctx.stage| == |c.stage| && OnlyOn(e.ctx, v) && e.ctx.last == c.last
    && CtxLen(e.ctx) + |e.inline| + |e.freed| == CtxLen(c) + |pkts|
    && CtxCnt(e.ctx, v) + Cnt(e.inline, v.mbuf) + Cnt(e.freed, v.mbuf) == CtxCnt(c, v) + Cnt(pkts, v.mbuf)
    && Marked(e.inline, inbound, ports, v) && |e.inline| <= |pkts|
    && |e.seqs| == |seqs| && (inbound ==> e.seqs == seqs)
    && Sub(QPipe(e.ctx, v), QPipe(c, v) + sns)
    && (v.sa < |seqs| ==> Between(seqs[v.sa], sns, e.seqs[v.sa]))
  }

  lemma TakesInNothing(c: Ctx, seqs: seq<nat>, inbound: bool, ports: nat, v: Watch)
    requires CtxOk(c) && OnlyOn(c, v)
    ensures TakesIn(c, seqs, [], Enqueued(c, [], [], seqs), [], inbound, ports, v)
  {
    assert QPipe(c, v) + [] == QPipe(c, v);
    SubRefl(QPipe(c, v));
    if v.sa < |seqs| {
      BetweenNone(seqs[v.sa], seqs[v.sa]);
    }
  }

  /** Packet r was one of those given, taken by the SA that was found for it. */
  ghost predicate Comes(pkts: seq<Packet>, sas: seq<Option<nat>>, table: seq<SaInfo>, inbound: bool, at: Option<nat>,
                        r: Packet)
  {
    exists i :: 0 <= i < |pkts| && i < |sas| && ComesOf(pkts[i], sas[i], table, inbound, at, r)
  }

  predicate ComesOf(p: Packet, idx: Option<nat>, table: seq<SaInfo>, inbound: bool, at: Option<nat>, r: Packet)
  {
    idx.Some? && idx.value < |table| && TakenAs(p, table[idx.value], idx.value, inbound, at, r)
  }

  /** A packet without an SA, or whose SA does not take it. */
  predicate Hopeless(p: Packet, idx: Option<nat>, table: seq<SaInfo>, qps: nat, w: World)
  {
    idx.None? || (idx.value < |table| && Refuses(p, table[idx.value], qps, w.outcome(p)))
  }

  ghost predicate HopelessIn(pkts: seq<Packet>, sas: seq<Option<nat>>, table: seq<SaInfo>, qps: nat, w: World,
                             p: Packet)
  {
    exists i :: 0 <= i < |pkts| && i < |sas| && p == pkts[i] && Hopeless(pkts[i], sas[i], table, qps, w)
  }

  /** With n more operations, a staging buffer may come to be full. */
  ghost predicate MayFill(c: Ctx, n: nat)
  {
    exists q :: 0 <= q < |c.stage| && |c.stage[q]| + n >= MAX_PKT_BURST
  }

  ghost predicate GrowsBy(c: Ctx, d: Ctx, n: nat)
  {
    |d.stage| == |c.stage| && forall q :: 0 <= q < |c.stage| ==> |d.stage[q]| <= |c.stage[q]| + n
  }

  /**
   * Nothing is set aside or new on a queue pair but what was given; and as long as no staging buffer fills up, only
   * packets are freed that no SA takes.
   */
  ghost predicate Sourced(c: Ctx, pkts: seq<Packet>, sas: seq<Option<nat>>, table: seq<SaInfo>, inbound: bool,
                          w: World, e: Enqueued)
  {
    && (forall r :: r in e.inline ==> Comes(pkts, sas, table, inbound, None, r))
    && (forall q, r :: OnQp(e.ctx, q, r) ==> OnQp(c, q, r) || Comes(pkts, sas, table, inbound, Some(q), r))
    && (forall p :: p in e.freed ==> HopelessIn(pkts, sas, table, |c.stage|, w, p) || MayFill(c, |pkts|))
    && GrowsBy(c, e.ctx, |pkts|)
  }

  /** The same for one packet. */
  ghost predicate SourcedOne(c: Ctx, p: Packet, sa: Option<SaInfo>, idx: nat, inbound: bool, o: Outcome, e: Enqueued)
  {
    && (forall r :: r in e.inline ==> sa.Some? && TakenAs(p, sa.value, idx, inbound, None, r))
    && (forall q, r :: OnQp(e.ctx, q, r) ==>
          OnQp(c, q, r) || (sa.Some? && TakenAs(p, sa.value, idx, inbound, Some(q), r)))
    && (forall r :: r in e.freed ==>
          (r == p && (sa.None? || Refuses(p, sa.value, |c.stage|, o))) || MayFill(c, 1))
    && GrowsBy(c, e.ctx, 1)
  }

  /**
   * What becomes of one packet: freed if no SA takes it, set aside for inline processing, or staged on the SA's queue
   * pair.
   */
  ghost predicate Handled(c: Ctx, p: Packet, sa: Option<SaInfo>, idx: nat, inbound: bool, o: Outcome, e: Enqueued)
  {
    if sa.None? || Refuses(p, sa.value, |c.stage|, o) then e.ctx == c && e.inline == [] && e.freed == [p]
    else if Inline(sa.value) then
      && e.ctx == c && e.freed == [] && |e.inline| == 1
      && TakenAs(p, sa.value, idx, inbound, None, e.inline[0])
    else
      && e.inline == [] && sa.value.qp < |c.stage|
      && exists q :: TakenAs(p, sa.value, idx, inbound, Some(sa.value.qp), q)
                     && StagedOn(c, sa.value.qp, q, e.ctx, e.freed)
  }

  lemma HandledSourced(c: Ctx, p: Packet, sa: Option<SaInfo>, idx: nat, inbound: bool, o: Outcome, e: Enqueued)
    requires CtxOk(c) && Handled(c, p, sa, idx, inbound, o, e)
    ensures SourcedOne(c, p, sa, idx, inbound, o, e)
  {
    if sa.Some? && !Refuses(p, sa.value, |c.stage|, o) && !Inline(sa.value) {
      var q :| TakenAs(p, sa.value, idx, inbound, Some(sa.value.qp), q) && StagedOn(c, sa.value.qp, q, e.ctx, e.freed);
      StagedAdds(c, sa.value.qp, q, e.ctx, e.freed);
      StagedCauses(c, sa.value.qp, q, e.ctx, e.freed);
    }
  }

  lemma StagedCauses(c: Ctx, q: nat, p: Packet, d: Ctx, freed: seq<Packet>)
    requires CtxOk(c) && q < |c.stage| && StagedOn(c, q, p, d, freed)
    ensures (freed != [] ==> MayFill(c, 1)) && GrowsBy(c, d, 1)
  {
    if |c.stage[q]| + 1 < MAX_PKT_BURST {
      assert forall k :: 0 <= k < |c.stage| && k != q ==> d.stage[k] == c.stage[k];
    } else {
      assert MayFill(c, 1);
      assert forall k :: 0 <= k < |c.stage| && k != q ==> d.stage[k] == c.stage[k];
    }
  }

  lemma ComesStill(pkts: seq<Packet>, sas: seq<Option<nat>>, i: nat, table: seq<SaInfo>, inbound: bool,
                   at: Option<nat>, r: Packet)
    requires i < |pkts| == |sas|
    ensures Comes(pkts[..i], sas[..i], table, inbound, at, r) ==>
              Comes(pkts[..i + 1], sas[..i + 1], table, inbound, at, r)
    ensures ComesOf(pkts[i], sas[i], table, inbound, at, r) ==>
              Comes(pkts[..i + 1], sas[..i + 1], table, inbound, at, r)
  {
    var ps, ss := pkts[..i + 1], sas[..i + 1];
    if j :| 0 <= j < i && ComesOf(pkts[..i][j], sas[..i][j], table, inbound, at, r) {
      assert ComesOf(ps[j], ss[j], table, inbound, at, r);
    }
    assert ps[i] == pkts[i] && ss[i] == sas[i];
  }

  lemma SourcedMore(c: Ctx, pkts: seq<Packet>, sas: seq<Option<nat>>, i: nat, table: seq<SaInfo>, inbound: bool,
                    w: World, e1: Enqueued, e2: Enqueued, e: Enqueued)
    requires i < |pkts| == |sas| && (sas[i].Some? ==> sas[i].value < |table|)
    requires Sourced(c, pkts[..i], sas[..i], table, inbound, w, e1)
    requires SourcedOne(e1.ctx, pkts[i], if sas[i].Some? then Some(table[sas[i].value]) else None, sas[i].UnwrapOr(0),
             inbound, w.outcome(pkts[i]), e2)
    requires e.ctx == e2.ctx && e.inline == e1.inline + e2.inline && e.freed == e1.freed + e2.freed
    ensures Sourced(c, pkts[..i + 1], sas[..i + 1], table, inbound, w, e)
  {
    forall r | r in e.inline ensures Comes(pkts[..i + 1], sas[..i + 1], table, inbound, None, r) {
      ComesStill(pkts, sas, i, table, inbound, None, r);
    }
    forall q, r | OnQp(e.ctx, q, r) && !OnQp(c, q, r)
      ensures Comes(pkts[..i + 1], sas[..i + 1], table, inbound, Some(q), r)
    {
      ComesStill(pkts, sas, i, table, inbound, Some(q), r);
      assert OnQp(e2.ctx, q, r);
    }
    FreedCauses(c, pkts, sas, i, table, inbound, w, e1, e2);
  }

  /** Why the packets were freed that one more packet leaves freed. */
  lemma FreedCauses(c: Ctx, pkts: seq<Packet>, sas: seq<Option<nat>>, i: nat, table: seq<SaInfo>, inbound: bool,
                    w: World, e1: Enqueued, e2: Enqueued)
    requires i < |pkts| == |sas| && (sas[i].Some? ==> sas[i].value < |table|)
    requires Sourced(c, pkts[..i], sas[..i], table, inbound, w, e1)
    requires SourcedOne(e1.ctx, pkts[i], if sas[i].Some? then Some(table[sas[i].value]) else None, sas[i].UnwrapOr(0),
             inbound, w.outcome(pkts[i]), e2)
    ensures GrowsBy(c, e2.ctx, i + 1)
    ensures forall p :: p in e1.freed + e2.freed ==>
              HopelessIn(pkts[..i + 1], sas[..i + 1], table, |c.stage|, w, p) || MayFill(c, i + 1)
  {
    var ps, ss := pkts[..i + 1], sas[..i + 1];
    forall p | p in e1.freed + e2.freed ensures HopelessIn(ps, ss, table, |c.stage|, w, p) || MayFill(c, i + 1) {
      if p in e1.freed {
        if MayFill(c, |pkts[..i]|) {
          FillsStill(c, c, 0, i, i + 1);
        } else {
          var j :| 0 <= j < i && p == pkts[..i][j] && Hopeless(pkts[..i][j], sas[..i][j], table, |c.stage|, w);
          assert p == ps[j] && Hopeless(ps[j], ss[j], table, |c.stage|, w);
        }
      } else if MayFill(e1.ctx, 1) {
        FillsStill(c, e1.ctx, i, 1, i + 1);
      } else {
        assert p == ps[i] && Hopeless(ps[i], ss[i], table, |c.stage|, w);
      }
    }
  }

  lemma FillsStill(c: Ctx, d: Ctx, n: nat, m: nat, all: nat)
    requires GrowsBy(c, d, n) && MayFill(d, m) && n + m <= all
    ensures MayFill(c, all)
  {
    var q :| 0 <= q < |d.stage| && |d.stage[q]| + m >= MAX_PKT_BURST;
    assert |c.stage[q]| + all >= MAX_PKT_BURST;
  }

  /** One packet of ipsec_enqueue; no SA frees it. */
  method EnqueueOne(c: Ctx, p: Packet, sa: Option<SaInfo>, idx: nat, inbound: bool, seqs: seq<nat>, o: Outcome,
                    ghost ports: nat, ghost v: Watch)
    returns (e: Enqueued, ghost sns: seq<nat>)
    requires CtxOk(c) && OnlyOn(c, v) && PlainOne(p) && (!inbound && sa.Some? ==> idx < |seqs|)
    requires sa.Some? ==> SaOk(sa.value, idx, inbound, ports, v)
    ensures TakesIn(c, seqs, [p], e, sns, inbound, ports, v) && Handled(c, p, sa, idx, inbound, o, e)
  {
    e, sns := Enqueued(c, [], [p], seqs), [];
    TakesInNothing(c, seqs, inbound, ports, v);
    if sa.Some? {
      var fate, seqs' := Decide(p, sa.value, idx, inbound, seqs, |c.stage|, o, ports, v);
      match fate
      case ToFree => e := Enqueued(c, [], [p], seqs');
      case ToInline(q) => e := Enqueued(c, [q], [], seqs');
      case ToStage(q) =>
        var d, freed := Cop(c, sa.value.qp, q, v);
        e, sns := Enqueued(d, [], freed, seqs'), Sns([q], v.sa);
        assert Cnt([q], v.mbuf) == Cnt([p], v.mbuf);
        assert [] + QPipe(d, v) == QPipe(d, v);
    }
  }

  lemma TakesInThen(c: Ctx, seqs: seq<nat>, p1: seq<Packet>, e1: Enqueued, s1: seq<nat>,
                    p2: seq<Packet>, e2: Enqueued, s2: seq<nat>, inbound: bool, ports: nat, v: Watch)
    requires TakesIn(c, seqs, p1, e1, s1, inbound, ports, v)
    requires TakesIn(e1.ctx, e1.seqs, p2, e2, s2, inbound, ports, v)
    ensures TakesIn(c, seqs, p1 + p2, e2.(inline := e1.inline + e2.inline, freed := e1.freed + e2.freed), s1 + s2,
            inbound, ports, v)
  {
    CntConcat(p1, p2, v.mbuf);
    CntConcat(e1.inline, e2.inline, v.mbuf);
    CntConcat(e1.freed, e2.freed, v.mbuf);
    MarkedConcat(e1.inline, e2.inline, inbound, ports, v);
    PipeThen(QPipe(c, v), s1, QPipe(e1.ctx, v), s2, QPipe(e2.ctx, v));
    if v.sa < |seqs| {
      BetweenThen(seqs[v.sa], s1, e1.seqs[v.sa], s2, e2.seqs[v.sa]);
    }
  }

  /** ipsec_enqueue: `sas[i]` is the table index the lookup found for packet i, if any. */
  method Enqueue(c: Ctx, pkts: seq<Packet>, sas: seq<Option<nat>>, table: seq<SaInfo>, inbound: bool, seqs: seq<nat>,
                 w: World, ghost ports: nat, ghost v: Watch) returns (e: Enqueued, ghost sns: seq<nat>)
    requires CtxOk(c) && OnlyOn(c, v) && Plain(pkts) && |sas| == |pkts| && (!inbound ==> |seqs| == |table|)
    requires forall i :: 0 <= i < |sas| && sas[i].Some? ==> sas[i].value < |table|
    requires forall i :: 0 <= i < |table| ==> SaOk(table[i], i, inbound, ports, v)
    ensures TakesIn(c, seqs, pkts, e, sns, inbound, ports, v) && Sourced(c, pkts, sas, table, inbound, w, e)
    ensures CtxLen(e.ctx) + |e.inline| + |e.freed| == CtxLen(c) + |pkts| && |e.seqs| == |seqs|
  {
    e, sns := Enqueued(c, [], [], seqs), [];
    TakesInNothing(c, seqs, inbound, ports, v);
    assert pkts[..0] == [] && sas[..0] == [];
    for i := 0 to |pkts|
      invariant TakesIn(c, seqs, pkts[..i], e, sns, inbound, ports, v)
      invariant Sourced(c, pkts[..i], sas[..i], table, inbound, w, e)
    {
      PlainAt(pkts, i);
      assert pkts[..i + 1] == pkts[..i] + [pkts[i]];
      var sa := if sas[i].Some? then Some(table[sas[i].value]) else None;
      ghost var e1, e2 := e, e;
      e, sns, e2 := EnqueueNext(c, seqs, pkts[..i], e, sns, pkts[i], sa, sas[i].UnwrapOr(0), inbound,
          w.outcome(pkts[i]), ports, v);
      SourcedMore(c, pkts, sas, i, table, inbound, w, e1, e2, e);
    }
    assert pkts[..|pkts|] == pkts && sas[..|sas|] == sas;
  }

  method EnqueueNext(ghost c: Ctx, ghost seqs: seq<nat>, ghost done: seq<Packet>, e1: Enqueued, ghost s1: seq<nat>,
                     p: Packet, sa: Option<SaInfo>, idx: nat, inbound: bool, o: Outcome, ghost ports: nat,
                     ghost v: Watch)
    returns (e: Enqueued, ghost sns: seq<nat>, ghost e2: Enqueued)
    requires TakesIn(c, seqs, done, e1, s1, inbound, ports, v) && PlainOne(p)
    requires sa.Some? ==> SaOk(sa.value, idx, inbound, ports, v) && (!inbound ==> idx < |e1.seqs|)
    ensures TakesIn(c, seqs, done + [p], e, sns, inbound, ports, v)
    ensures SourcedOne(e1.ctx, p, sa, idx, inbound, o, e2) && Handled(e1.ctx, p, sa, idx, inbound, o, e2)
    ensures e.ctx == e2.ctx && e.inline == e1.inline + e2.inline && e.freed == e1.freed + e2.freed
  {
    var one;
    ghost var s2;
    one, s2 := EnqueueOne(e1.ctx, p, sa, idx, inbound, e1.seqs, o, ports, v);
    HandledSourced(e1.ctx, p, sa, idx, inbound, o, one);
    TakesInThen(c, seqs, done, e1, s1, [p], one, s2, inbound, ports, v);
    e, sns, e2 := one.(inline := e1.inline + one.inline, freed := e1.freed + one.freed), s1 + s2, one;
  }

  /** The mbufs of a list, last one first. */
  function Backwards(ps: seq<Packet>): seq<nat>
  {
    if ps == [] then [] else Backwards(ps[1..]) + [ps[0].id]
  }

  function Ids(ps: seq<Packet>): seq<nat>
  {
    if ps == [] then [] else Ids(ps[..|ps| - 1]) + [ps[|ps| - 1].id]
  }

  lemma OneMoreBack(ps: seq<Packet>, i: nat, out: seq<nat>, keep: bool)
    requires i < |ps| && Sub(out, Backwards(ps[i + 1..]))
    ensures Sub(if keep then out + [ps[i].id] else out, Backwards(ps[i..]))
  {
    assert ps[i..][1..] == ps[i + 1..];
    if keep {
      SubRight(out, Backwards(ps[i + 1..]), [ps[i].id]);
    } else {
      SubExtend(out, Backwards(ps[i + 1..]), [ps[i].id]);
    }
  }

  /**
   * ipsec_inline_dequeue: the packets set aside, last one first. They are decapsulated or marked for Tx offload; one
   * whose status is bad is freed.
   */
  method InlineDequeue(inline: seq<Packet>, inbound: bool, good: Packet -> bool, ghost ports: nat, ghost v: Watch)
    returns (out: seq<Packet>, freed: seq<Packet>)
    requires |inline| <= MAX_PKT_BURST && Marked(inline, inbound, ports, v)
    ensures |out| + |freed| == |inline| && Cnt(out, v.mbuf) + Cnt(freed, v.mbuf) == Cnt(inline, v.mbuf)
    ensures Marked(out, inbound, ports, v) && Sub(Ids(out), Backwards(inline))
    ensures forall r :: r in out ==> FromInline(inline, inbound, good, r)
    ensures forall p :: p in freed ==> p in inline && !good(p)
  {
    out, freed := [], [];
    var left := |inline|;
    assert inline[..left] == inline;
    while left > 0 && |out| < MAX_PKT_BURST
      invariant left <= |inline| && Returned(inline, left, out, freed, inbound, good, ports, v)
      invariant forall p :: p in freed ==> p in inline && !good(p)
    {
      left := left - 1;
      out, freed := ReturnOne(inline, left, out, freed, inbound, good, ports, v);
    }
    assert inline[0..] == inline;
  }

  /** Where the loop stands when `left` packets are still set aside. */
  predicate Returned(inline: seq<Packet>, left: nat, out: seq<Packet>, freed: seq<Packet>, inbound: bool,
                     good: Packet -> bool, ports: nat, v: Watch)
    requires left <= |inline|
  {
    && |out| + |freed| == |inline| - left
    && Cnt(out, v.mbuf) + Cnt(freed, v.mbuf) + Cnt(inline[..left], v.mbuf) == Cnt(inline, v.mbuf)
    && Marked(out, inbound, ports, v) && Marked(inline[..left], inbound, ports, v)
    && Sub(Ids(out), Backwards(inline[left..]))
    && (forall r :: r in out ==> FromInline(inline, inbound, good, r))
  }

  /** A packet set aside whose status is good comes back decapsulated, or marked for Tx offload. */
  predicate FromInline(inline: seq<Packet>, inbound: bool, good: Packet -> bool, r: Packet)
  {
    exists p :: p in inline && good(p) && ComesBackAs(p, inbound, r)
  }

  predicate ComesBackAs(p: Packet, inbound: bool, r: Packet)
  {
    r == if inbound then p.(ver := p.inner, dst := p.innerDst) else p.(offload := true)
  }

  method ReturnOne(inline: seq<Packet>, at: nat, had: seq<Packet>, was: seq<Packet>, inbound: bool,
                   good: Packet -> bool, ghost ports: nat, ghost v: Watch)
    returns (out: seq<Packet>, freed: seq<Packet>)
    requires at < |inline| && Returned(inline, at + 1, had, was, inbound, good, ports, v)
    ensures Returned(inline, at, out, freed, inbound, good, ports, v)
    ensures freed == if good(inline[at]) then was else was + [inline[at]]
  {
    var p, failed := inline[at], !good(inline[at]);
    assert inline[..at + 1] == inline[..at] + [p];
    CntConcat(inline[..at], [p], v.mbuf);
    MarkedConcat(inline[..at], [p], inbound, ports, v);
    OneMoreBack(inline, at, Ids(had), !failed);
    if failed {
      out, freed := had, was + [p];
      CntConcat(was, [p], v.mbuf);
    } else {
      var q := if inbound then Post(p, true) else p.(offload := true);
      out, freed := had + [q], was;
      CntConcat(had, [q], v.mbuf);
      MarkedConcat(had, [q], inbound, ports, v);
      assert out[..|had|] == had && ComesBackAs(p, inbound, q);
    }
  }
}
