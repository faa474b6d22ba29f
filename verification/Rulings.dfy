/**
 * The gateway's settings, and the decisions its policies make about packets: what each decision has to be, and what
 * it lets happen (ipsec-secgw.c).
 */
module Rulings {
  import opened Common
  import opened Packets
  import opened CryptoContext
  import opened TxPorts
  import opened Traffic

  /**
   * Tables and settings. An outbound policy table maps a packet to a verdict; an inbound one says whether a packet
   * passes, given whether it arrived in the clear; None is a missing table.
   */
  datatype Config = Config(
    udpEncap: bool, mtu: nat, ports: nat, qpsIn: nat, qpsOut: nat,
    sasIn: seq<SaInfo>, sasOut: seq<SaInfo>, sad: Packet -> Option<nat>,
    spIn4: Option<(Packet, bool) -> bool>, spIn6: Option<(Packet, bool) -> bool>,
    spOut4: Option<Packet -> nat>, spOut6: Option<Packet -> nat>,
    rt4: map<nat, nat>, rt6: map<nat, nat>)

  /** What an outbound policy does with a packet. */
  datatype Act = Discards | Bypasses | Protects(sa: nat)

  /**
   * One decision: of the inbound policy of a family, about a packet that arrived in the clear or out of ESP; or of the
   * outbound policy of a family.
   */
  datatype Ruling =
    | RuledIn(p: Packet, ip4: bool, clear: bool, passed: bool)
    | RuledOut(p: Packet, ip4: bool, act: Act)
  {
    predicate Granted()
    {
      match this
      case RuledIn(_, _, _, passed) => passed
      case RuledOut(_, _, act) => act != Discards
    }
  }

  /** A packet of that family that is not ESP, nor ESP in UDP when that is looked for. */
  predicate InTheClear(g: Config, p: Packet, ip4: bool)
  {
    && (if ip4 then p.ether == EtherIp4 else p.ether == EtherIp6 && !p.longHeader)
    && p.proto != ProtoEsp && !(p.proto == ProtoUdp && g.udpEncap && p.natPort)
  }

  /**
   * A decision is the one that its family's table gives, whether a packet arrived in the clear or has its inner header
   * in front; without a table, all pass and all bypass.
   */
  predicate Truly(g: Config, r: Ruling)
  {
    match r
    case RuledIn(p, ip4, clear, passed) =>
      && (if clear then InTheClear(g, p, ip4)
          else p.ver == (if ip4 then 4 else 6) && p.ver == p.inner && p.dst == p.innerDst)
      && (match (if ip4 then g.spIn4 else g.spIn6)
          case None => passed
          case Some(lets) => passed == lets(p, clear))
    case RuledOut(p, ip4, act) =>
      && InTheClear(g, p, ip4)
      && (match (if ip4 then g.spOut4 else g.spOut6)
          case None => act == Bypasses
          case Some(rule) =>
            if rule(p) == 0 then act == Discards
            else if rule(p) == 0xffff_ffff then act == Bypasses
            else act == Protects(rule(p) - 1))
  }

  /** Decisions against mbuf x. */
  function Denials(rs: seq<Ruling>, x: nat): nat
  {
    if rs == [] then 0 else (if rs[0].p.id == x && !rs[0].Granted() then 1 else 0) + Denials(rs[1..], x)
  }

  /** Decisions for it. */
  function Grants(rs: seq<Ruling>, x: nat): nat
  {
    if rs == [] then 0 else (if rs[0].p.id == x && rs[0].Granted() then 1 else 0) + Grants(rs[1..], x)
  }

  lemma {:induction false} RulingsConcat(a: seq<Ruling>, b: seq<Ruling>, x: nat)
    ensures Denials(a + b, x) == Denials(a, x) + Denials(b, x)
    ensures Grants(a + b, x) == Grants(a, x) + Grants(b, x)
  {
    if a == [] {
      assert a + b == b;
    } else {
      assert (a + b)[1..] == a[1..] + b;
      RulingsConcat(a[1..], b, x);
    }
  }

  lemma {:induction false} RulingCounts(rs: seq<Ruling>, r: Ruling)
    requires r in rs
    ensures if r.Granted() then Grants(rs, r.p.id) >= 1 else Denials(rs, r.p.id) >= 1
  {
    if r != rs[0] {
      RulingCounts(rs[1..], r);
    }
  }

  /** At most one decision about an mbuf is one and the same. */
  lemma {:induction false} OnlyRuling(rs: seq<Ruling>, a: Ruling, b: Ruling)
    requires a in rs && b in rs && a.p.id == b.p.id && Denials(rs, a.p.id) + Grants(rs, a.p.id) <= 1
    ensures a == b
  {
    if a == rs[0] && b != rs[0] {
      RulingCounts(rs[1..], b);
    } else if b == rs[0] && a != rs[0] {
      RulingCounts(rs[1..], a);
    } else if a != rs[0] {
      OnlyRuling(rs[1..], a, b);
    }
  }

  /** The same inbound decision about each packet of a list. */
  function AllIn(ps: seq<Packet>, ip4: bool, clear: bool, passed: bool): (rs: seq<Ruling>)
    ensures |rs| == |ps| && forall i :: 0 <= i < |ps| ==> rs[i] == RuledIn(ps[i], ip4, clear, passed)
  {
    if ps == [] then [] else [RuledIn(ps[0], ip4, clear, passed)] + AllIn(ps[1..], ip4, clear, passed)
  }

  lemma {:induction false} AllInCounts(ps: seq<Packet>, ip4: bool, clear: bool, passed: bool, x: nat)
    ensures var rs := AllIn(ps, ip4, clear, passed);
            && Grants(rs, x) == (if passed then Cnt(ps, x) else 0)
            && Denials(rs, x) == (if passed then 0 else Cnt(ps, x))
  {
    if ps != [] {
      AllInCounts(ps[1..], ip4, clear, passed, x);
      assert AllIn(ps, ip4, clear, passed)[1..] == AllIn(ps[1..], ip4, clear, passed);
    }
  }

  /** The outbound decisions about a list: `acts` are the SAs of packets to protect. */
  function AllOut(ps: seq<Packet>, ip4: bool, acts: seq<Act>): (rs: seq<Ruling>)
    requires |acts| == |ps|
    ensures |rs| == |ps| && forall i :: 0 <= i < |ps| ==> rs[i] == RuledOut(ps[i], ip4, acts[i])
  {
    if ps == [] then [] else [RuledOut(ps[0], ip4, acts[0])] + AllOut(ps[1..], ip4, acts[1..])
  }

  lemma {:induction false} AllOutCounts(ps: seq<Packet>, ip4: bool, acts: seq<Act>, discards: bool, x: nat)
    requires |acts| == |ps| && forall i :: 0 <= i < |acts| ==> (acts[i] == Discards <==> discards)
    ensures var rs := AllOut(ps, ip4, acts);
            && Grants(rs, x) == (if discards then 0 else Cnt(ps, x))
            && Denials(rs, x) == (if discards then Cnt(ps, x) else 0)
  {
    if ps != [] {
      AllOutCounts(ps[1..], ip4, acts[1..], discards, x);
      assert AllOut(ps, ip4, acts)[1..] == AllOut(ps[1..], ip4, acts[1..]);
    }
  }

  predicate AllTrue(g: Config, rs: seq<Ruling>)
  {
    forall r :: r in rs ==> Truly(g, r)
  }

  /** A packet has been decided about, by the policy of its direction, in its family. */
  predicate RuledOn(rs: seq<Ruling>, p: Packet, ip4: bool, unprotected: bool)
  {
    exists r :: r in rs && Decides(r, p, ip4, unprotected)
  }

  predicate Decides(r: Ruling, p: Packet, ip4: bool, unprotected: bool)
  {
    r.p == p && r.ip4 == ip4 && if unprotected then r.RuledIn? && r.clear else r.RuledOut?
  }

  /** Every packet of a burst that arrived in the clear has been decided about. */
  predicate AllRuled(g: Config, rs: seq<Ruling>, pkts: seq<Packet>, unprotected: bool)
  {
    forall p, ip4 :: p in pkts && InTheClear(g, p, ip4) ==> RuledOn(rs, p, ip4, unprotected)
  }

  lemma StillRuled(g: Config, rs: seq<Ruling>, more: seq<Ruling>, pkts: seq<Packet>, unprotected: bool)
    requires AllRuled(g, rs, pkts, unprotected) || AllRuled(g, more, pkts, unprotected)
    ensures AllRuled(g, rs + more, pkts, unprotected)
  {
    forall p, ip4 | p in pkts && InTheClear(g, p, ip4) ensures RuledOn(rs + more, p, ip4, unprotected) {
      if RuledOn(rs, p, ip4, unprotected) {
        var r :| r in rs && Decides(r, p, ip4, unprotected);
        assert r in rs + more;
      } else {
        var r :| r in more && Decides(r, p, ip4, unprotected);
        assert r in rs + more;
      }
    }
  }

  function RoutesOf(g: Config, ip4: bool): map<nat, nat>
  {
    if ip4 then g.rt4 else g.rt6
  }

  /** Decision r, about packet q, is to protect it under an SA; that SA took it, and packet p on queue pair at is it. */
  predicate Protected(g: Config, r: Ruling, at: Option<nat>, p: Packet)
  {
    && r.RuledOut? && r.act.Protects? && r.act.sa < |g.sasOut|
    && TakenAs(r.p, g.sasOut[r.act.sa], r.act.sa, false, at, p)
  }

  /**
   * Decision r lets packet p go to port w. It let p pass or bypass, and p's route in its family leads there. Or it was
   * to protect what p was, and p went under the SA named: marked for Tx offload and bound for that SA's port, or out
   * of that SA's queue pair and bound where the header now in front is routed.
   */
  predicate Cleared(g: Config, r: Ruling, w: nat, p: Packet)
  {
    match r
    case RuledIn(q, ip4, _, passed) => passed && p == q && BoundFor(p, if ip4 then g.rt4 else g.rt6, w)
    case RuledOut(q, ip4, Discards) => false
    case RuledOut(q, ip4, Bypasses) => p == q && BoundFor(p, if ip4 then g.rt4 else g.rt6, w)
    case RuledOut(q, _, Protects(sa)) =>
      && BoundFor(p, if p.ver == 4 then g.rt4 else g.rt6, w)
      && (|| (p.offload && Protected(g, r, None, p.(offload := q.offload)))
          || (sa < |g.sasOut| && Protected(g, r, Some(g.sasOut[sa].qp), p)))
  }

  predicate Sendable(g: Config, rs: seq<Ruling>, w: nat, p: Packet)
  {
    p.len <= g.mtu && exists r :: r in rs && Cleared(g, r, w, p)
  }

  predicate Queued(g: Config, rs: seq<Ruling>, q: nat, p: Packet)
  {
    exists r :: r in rs && Protected(g, r, Some(q), p)
  }

  lemma SendableStill(g: Config, rs: seq<Ruling>, more: seq<Ruling>, w: nat, p: Packet)
    requires Sendable(g, rs, w, p) || Sendable(g, more, w, p)
    ensures Sendable(g, rs + more, w, p)
  {
    if Sendable(g, rs, w, p) {
      var r :| r in rs && Cleared(g, r, w, p);
      assert r in rs + more;
    } else {
      var r :| r in more && Cleared(g, r, w, p);
      assert r in rs + more;
    }
  }

  lemma QueuedStill(g: Config, rs: seq<Ruling>, more: seq<Ruling>, q: nat, p: Packet)
    requires Queued(g, rs, q, p) || Queued(g, more, q, p)
    ensures Queued(g, rs + more, q, p)
  {
    if Queued(g, rs, q, p) {
      var r :| r in rs && Protected(g, r, Some(q), p);
      assert r in rs + more;
    } else {
      var r :| r in more && Protected(g, r, Some(q), p);
      assert r in rs + more;
    }
  }

  /** A packet that goes to ESP processing. */
  predicate IsEsp(g: Config, p: Packet)
  {
    && (p.ether == EtherIp4 || (p.ether == EtherIp6 && !p.longHeader))
    && (p.proto == ProtoEsp || (p.proto == ProtoUdp && g.udpEncap && p.natPort))
  }

  /** The header in front is neither IPv4 nor IPv6. */
  predicate NoVersion(p: Packet)
  {
    p.ver != 4 && p.ver != 6
  }

  /**
   * Why a packet of a burst may be freed before a policy sees it, c being its side's queues before the burst: it has no
   * type; it is ESP, and comes from a protected port, or has no SA, or its SA does not take it; a staging buffer may
   * fill, and the device then refuse; or inline processing failed or left no IP packet.
   */
  ghost predicate UnreadCause(g: Config, c: Ctx, pkts: seq<Packet>, unprotected: bool, w: World, p: Packet)
  {
    || (p in pkts && !InTheClear(g, p, true) && !InTheClear(g, p, false) && !IsEsp(g, p))
    || (p in pkts && IsEsp(g, p) && (unprotected ==> Hopeless(p, g.sad(p), g.sasIn, |c.stage|, w)))
    || (unprotected && (MayFill(c, |pkts|) || !w.good(p) || NoVersion(p)))
  }

  /** The family a packet is routed in once a decision lets it go. */
  predicate GoesAsIp4(r: Ruling, p: Packet)
  {
    if r.RuledOut? && r.act.Protects? then p.ver == 4 else r.ip4
  }

  /** Why a packet may be freed on its way to a port: too long, without a route, or for a tx buffer that may fill. */
  ghost predicate UnsentCause(g: Config, rs: seq<Ruling>, a: Ports, n: nat, p: Packet)
  {
    || p.len > g.mtu || TxMayFill(a, n)
    || exists r :: r in rs && LeadsNowhere(g, r, p)
  }

  predicate LeadsNowhere(g: Config, r: Ruling, p: Packet)
  {
    r.Granted() && r.p.id == p.id && Unrouted(p, if GoesAsIp4(r, p) then g.rt4 else g.rt6)
  }

  /** Why a packet to protect may be freed: its SA does not take it, a staging buffer may fill, or it failed inline. */
  ghost predicate RefusedCause(g: Config, rs: seq<Ruling>, c: Ctx, n: nat, w: World, p: Packet)
  {
    MayFill(c, n) || !w.good(p) || exists r :: r in rs && RefusedBy(g, r, |c.stage|, w, p)
  }

  predicate RefusedBy(g: Config, r: Ruling, qps: nat, w: World, p: Packet)
  {
    && r.RuledOut? && r.act.Protects? && r.p == p && r.act.sa < |g.sasOut|
    && Refuses(p, g.sasOut[r.act.sa], qps, w.outcome(p))
  }
}
