/** The event-mode worker (ipsec_worker.c): one packet at a time, and vectors of packets. */
module EventWorker {
  import opened Common

  const MAX_ETHPORTS: nat := 32
  const NO_PORT: nat := 0xffff

  datatype Kind = Plain4 | Plain6 | Esp4 | Esp6 | Invalid

  /**
   * An mbuf: its packet type, the flags of inline receive processing, the SPI of the SA in its security field, its
   * destination, the port and the Tx offload flag it carries on.
   */
  datatype EvPkt = EvPkt(id: nat, kind: Kind, offload: bool, failed: bool, dyn: Option<nat>, dst: nat, port: nat,
      tx: bool)

  datatype EvSa = EvSa(spi: nat, inlineProtocol: bool, port: nat)

  /**
   * Policy tables (None: no table), SAs and routes of one direction. `beyond` is what a read past the SAs finds in the
   * place of an SPI.
   */
  datatype EvCtx = EvCtx(sp4: Option<EvPkt -> nat>, sp6: Option<EvPkt -> nat>, sas: seq<EvSa>, beyond: nat -> nat,
                         rt4: map<nat, nat>, rt6: map<nat, nat>)

  /** The SPI read at a position of the SA table. */
  function SpiAt(c: EvCtx, i: nat): nat
  {
    if i < |c.sas| then c.sas[i].spi else c.beyond(i)
  }

  /** The policy table for a packet, if there is one. */
  function TableFor(c: EvCtx, p: EvPkt): Option<EvPkt -> nat>
  {
    if p.kind == Plain4 then c.sp4 else c.sp6
  }

  predicate IsPlain(p: EvPkt)
  {
    p.kind == Plain4 || p.kind == Plain6
  }

  /** get_route: RTE_MAX_ETHPORTS stands for no route. */
  function Hop(rt: map<nat, nat>, p: EvPkt): nat
  {
    if p.dst in rt then rt[p.dst] else MAX_ETHPORTS
  }

  /** The packet as it is sent on after a route lookup, or None when there is no route. */
  function Routed(rt: map<nat, nat>, p: EvPkt): Option<EvPkt>
  {
    if Hop(rt, p) == MAX_ETHPORTS then None else Some(p.(port := Hop(rt, p)))
  }

  function RoutedBy(c: EvCtx, p: EvPkt): Option<EvPkt>
  {
    Routed(if p.kind == Plain4 then c.rt4 else c.rt6, p)
  }

  /** What check_sp says: drop, bypass (index -1), or a table position. */
  datatype Verdict = Drop | Bypass | Index(at: nat)

  function CheckSp(sp: Option<EvPkt -> nat>, p: EvPkt): Verdict
  {
    if sp.None? || sp.value(p) == DISCARD then Drop
    else if sp.value(p) == BYPASS then Bypass
    else Index(sp.value(p) - 1)
  }

  /** process_ipsec_ev_inbound: the packet to send on, or None when it is dropped. */
  function Inbound(c: EvCtx, p: EvPkt): Option<EvPkt>
  {
    if !IsPlain(p) || (p.offload && p.failed) then None
    else
      var sa := if p.offload then p.dyn else None;
      match CheckSp(TableFor(c, p), p)
      case Drop => None
      case Bypass => RoutedBy(c, p)
      case Index(at) =>
        if at >= |c.sas| || sa.None? || sa.value != c.sas[at].spi then None else RoutedBy(c, p)
  }

  /** The packet handed to inline processing under SA `at`, when there is such an SA and it allows that. */
  function Offloaded(c: EvCtx, p: EvPkt, at: nat): Option<EvPkt>
  {
    if at >= |c.sas| || !c.sas[at].inlineProtocol then None else Some(p.(port := c.sas[at].port, tx := true))
  }

  /** process_ipsec_ev_outbound. */
  function Outbound(c: EvCtx, p: EvPkt): Option<EvPkt>
  {
    if !IsPlain(p) then None
    else
      match CheckSp(TableFor(c, p), p)
      case Drop => None
      case Bypass => RoutedBy(c, p)
      case Index(at) => Offloaded(c, p, at)
  }

  /** The packets that f sends on, in order. */
  function Sent(ps: seq<EvPkt>, f: EvPkt -> Option<EvPkt>): seq<EvPkt>
  {
    if ps == [] then [] else (if f(ps[0]).Some? then [f(ps[0]).value] else []) + Sent(ps[1..], f)
  }

  lemma SentCons(p: EvPkt, rest: seq<EvPkt>, f: EvPkt -> Option<EvPkt>)
    ensures Sent([p] + rest, f) == if f(p).Some? then [f(p).value] + Sent(rest, f) else Sent(rest, f)
  {
    assert ([p] + rest)[1..] == rest;
    assert [] + Sent(rest, f) == Sent(rest, f);
  }

  lemma {:induction false} SentConcat(a: seq<EvPkt>, b: seq<EvPkt>, f: EvPkt -> Option<EvPkt>)
    ensures Sent(a + b, f) == Sent(a, f) + Sent(b, f)
  {
    if a == [] {
      assert a + b == b;
    } else {
      var p, rest := a[0], a[1..];
      assert a == [p] + rest && a + b == [p] + (rest + b);
      SentConcat(rest, b, f);
      SentCons(p, rest, f);
      SentCons(p, rest + b, f);
    }
  }

  lemma SentSnoc(ps: seq<EvPkt>, i: nat, f: EvPkt -> Option<EvPkt>)
    requires i < |ps|
    ensures Sent(ps[..i + 1], f) == Sent(ps[..i], f) + (if f(ps[i]).Some? then [f(ps[i]).value] else [])
  {
    assert ps[..i + 1] == ps[..i] + [ps[i]];
    SentConcat(ps[..i], [ps[i]], f);
    assert Sent([ps[i]], f) == (if f(ps[i]).Some? then [f(ps[i]).value] else []) + Sent([], f);
  }

  lemma {:induction false} SentAtMost(ps: seq<EvPkt>, f: EvPkt -> Option<EvPkt>)
    ensures |Sent(ps, f)| <= |ps|
  {
    if ps != [] {
      SentAtMost(ps[1..], f);
    }
  }

  /** Two stages in a row. */
  lemma {:induction false} SentThen(ps: seq<EvPkt>, f: EvPkt -> Option<EvPkt>, g: EvPkt -> Option<EvPkt>,
                                    h: EvPkt -> Option<EvPkt>)
    requires forall p :: p in ps ==> h(p) == if f(p).Some? then g(f(p).value) else None
    ensures Sent(Sent(ps, f), g) == Sent(ps, h)
  {
    if ps != [] {
      var p, rest := ps[0], ps[1..];
      SentThen(rest, f, g, h);
      assert ps == [p] + rest;
      SentCons(p, rest, f);
      SentCons(p, rest, h);
      if f(p).Some? {
        SentCons(f(p).value, Sent(rest, f), g);
      }
    }
  }

  /** How often a packet is on a list. */
  function Num(ps: seq<EvPkt>, x: EvPkt): nat
  {
    if ps == [] then 0 else (if ps[0] == x then 1 else 0) + Num(ps[1..], x)
  }

  lemma {:induction false} NumConcat(a: seq<EvPkt>, b: seq<EvPkt>, x: EvPkt)
    ensures Num(a + b, x) == Num(a, x) + Num(b, x)
  {
    if a == [] {
      assert a + b == b;
    } else {
      assert (a + b)[1..] == a[1..] + b;
      NumConcat(a[1..], b, x);
    }
  }

  /** The same packets, each as often. */
  ghost predicate SameContents(a: seq<EvPkt>, b: seq<EvPkt>)
  {
    |a| == |b| && forall x :: Num(a, x) == Num(b, x)
  }

  lemma {:induction false} NumIn(ps: seq<EvPkt>, x: EvPkt)
    ensures Num(ps, x) > 0 <==> x in ps
  {
    if ps != [] {
      NumIn(ps[1..], x);
      assert x in ps <==> x == ps[0] || x in ps[1..];
    }
  }

  lemma {:induction false} SentIn(ps: seq<EvPkt>, f: EvPkt -> Option<EvPkt>, q: EvPkt)
    ensures q in Sent(ps, f) <==> exists j :: 0 <= j < |ps| && f(ps[j]) == Some(q)
  {
    if ps == [] {
    } else {
      SentIn(ps[1..], f, q);
      assert ps == [ps[0]] + ps[1..];
      SentCons(ps[0], ps[1..], f);
      assert forall j :: 0 <= j < |ps| - 1 ==> ps[1..][j] == ps[j + 1];
      if j :| 0 < j < |ps| && f(ps[j]) == Some(q) {
        assert f(ps[1..][j - 1]) == Some(q);
      }
    }
  }

  /** Four lanes that each packet takes at most one of, the way s takes, send on the same packets as s. */
  predicate Lanes(s: Option<EvPkt>, a: Option<EvPkt>, b: Option<EvPkt>, c: Option<EvPkt>, d: Option<EvPkt>)
  {
    || (a == s && b.None? && c.None? && d.None?) || (b == s && a.None? && c.None? && d.None?)
    || (c == s && a.None? && b.None? && d.None?) || (d == s && a.None? && b.None? && c.None?)
  }

  lemma {:induction false} LanesSum(ps: seq<EvPkt>, s: EvPkt -> Option<EvPkt>, a: EvPkt -> Option<EvPkt>,
                                    b: EvPkt -> Option<EvPkt>,
                                    c: EvPkt -> Option<EvPkt>, d: EvPkt -> Option<EvPkt>, x: EvPkt)
    requires forall p :: p in ps ==> Lanes(s(p), a(p), b(p), c(p), d(p))
    ensures Num(Sent(ps, s), x) == Num(Sent(ps, a), x) + Num(Sent(ps, b), x) + Num(Sent(ps, c), x) + Num(Sent(ps, d), x)
    ensures |Sent(ps, s)| == |Sent(ps, a)| + |Sent(ps, b)| + |Sent(ps, c)| + |Sent(ps, d)|
  {
    if ps != [] {
      LanesSum(ps[1..], s, a, b, c, d, x);
      SentHead(ps, s, x);
      SentHead(ps, a, x);
      SentHead(ps, b, x);
      SentHead(ps, c, x);
      SentHead(ps, d, x);
      assert Lanes(s(ps[0]), a(ps[0]), b(ps[0]), c(ps[0]), d(ps[0]));
    }
  }

  lemma SentHead(ps: seq<EvPkt>, f: EvPkt -> Option<EvPkt>, x: EvPkt)
    requires ps != []
    ensures Num(Sent(ps, f), x) == (if f(ps[0]) == Some(x) then 1 else 0) + Num(Sent(ps[1..], f), x)
    ensures |Sent(ps, f)| == (if f(ps[0]).Some? then 1 else 0) + |Sent(ps[1..], f)|
  {
    assert ps == [ps[0]] + ps[1..];
    SentCons(ps[0], ps[1..], f);
    if f(ps[0]).Some? {
      NumConcat([f(ps[0]).value], Sent(ps[1..], f), x);
    }
  }

  /** f sends to real ports. */
  ghost predicate Real(f: EvPkt -> Option<EvPkt>)
  {
    forall p :: f(p).Some? ==> f(p).value.port != NO_PORT
  }

  lemma RoutesAreReal(c: EvCtx)
    requires PortsOk(c)
    ensures Real(RoutedTo(c.rt4)) && Real(RoutedTo(c.rt6))
  {
  }

  /** An event vector: mbufs, and the attributes that say whether one Tx port serves them all. */
  class Vector {
    const mbufs: array<EvPkt>
    var attrValid: bool
    var port: nat

    constructor (ps: seq<EvPkt>)
      ensures fresh(mbufs) && mbufs[..] == ps
    {
      mbufs := new EvPkt[|ps|](i requires 0 <= i < |ps| => ps[i]);
      attrValid, port := true, NO_PORT;
    }

    /** The attributes after the first j packets have been written: valid exactly when their ports are all the same. */
    ghost predicate Attributed(j: nat)
      requires j <= mbufs.Length
      reads this, mbufs
    {
      && (j == 0 ==> port == NO_PORT && attrValid)
      && (j > 0 ==>
            && port == mbufs[0].port != NO_PORT
            && (attrValid <==> forall i :: 0 <= i < j ==> mbufs[i].port == mbufs[0].port))
    }

    /** ev_vector_attr_init. */
    method AttrInit()
      modifies this
      ensures Attributed(0)
    {
      attrValid, port := true, NO_PORT;
    }

    /** ev_vector_attr_update and the store of one packet. */
    method Put(j: nat, pkt: EvPkt)
      requires j < mbufs.Length && Attributed(j) && pkt.port != NO_PORT
      modifies this, mbufs
      ensures Attributed(j + 1) && mbufs[..j + 1] == old(mbufs[..j]) + [pkt]
      ensures forall i :: j < i < mbufs.Length ==> mbufs[i] == old(mbufs[i])
    {
      if port == NO_PORT {
        port := pkt.port;
      } else if attrValid && port != pkt.port {
        attrValid := false;
      }
      mbufs[j] := pkt;
      assert mbufs[..j + 1] == old(mbufs[..j]) + [pkt];
      assert forall i :: 0 <= i < j ==> mbufs[i] == old(mbufs[i]);
    }

    /** One loop of ipsec_ev_route_pkts: write back the packets that f sends on, free the others. */
    method Emit(j: nat, ps: seq<EvPkt>, f: EvPkt -> Option<EvPkt>) returns (j': nat)
      requires j + |ps| <= mbufs.Length && Attributed(j)
      requires Real(f)
      modifies this, mbufs
      ensures j' <= j + |ps| && Attributed(j') && mbufs[..j'] == old(mbufs[..j]) + Sent(ps, f)
    {
      j' := j;
      for i := 0 to |ps|
        invariant j <= j' <= j + i && Attributed(j') && mbufs[..j'] == old(mbufs[..j]) + Sent(ps[..i], f)
      {
        SentSnoc(ps, i, f);
        j' := Keep(j', f(ps[i]));
      }
      assert ps[..|ps|] == ps;
    }

    /** Write a packet back if there is one. */
    method Keep(j: nat, out: Option<EvPkt>) returns (j': nat)
      requires j < mbufs.Length && Attributed(j) && (out.Some? ==> out.value.port != NO_PORT)
      modifies this, mbufs
      ensures j' == (if out.Some? then j + 1 else j) && Attributed(j')
      ensures mbufs[..j'] == old(mbufs[..j]) + (if out.Some? then [out.value] else [])
    {
      j' := j;
      if out.Some? {
        Put(j, out.value);
        j' := j + 1;
      }
    }
  }

  /** Ports of the configuration are real ones. */
  predicate PortsOk(c: EvCtx)
  {
    && (forall i :: 0 <= i < |c.sas| ==> c.sas[i].port != NO_PORT)
    && (forall d :: d in c.rt4 ==> c.rt4[d] != NO_PORT) && (forall d :: d in c.rt6 ==> c.rt6[d] != NO_PORT)
  }

  /** One pass over a list. */
  method Choose(ps: seq<EvPkt>, f: EvPkt -> Option<EvPkt>) returns (out: seq<EvPkt>)
    ensures out == Sent(ps, f) && |out| <= |ps|
  {
    out := [];
    for i := 0 to |ps|
      invariant out == Sent(ps[..i], f)
    {
      SentSnoc(ps, i, f);
      var o := f(ps[i]);
      if o.Some? {
        out := out + [o.value];
      }
    }
    assert ps[..|ps|] == ps;
    SentAtMost(ps, f);
  }

  /** classify_pkt for one type; inbound, packets that failed inline processing have been freed before. */
  function Classified(k: Kind, inbound: bool): EvPkt -> Option<EvPkt>
  {
    (p: EvPkt) => if p.kind == k && !(inbound && p.offload && p.failed) then Some(p) else None
  }

  predicate InRange(sp: Option<EvPkt -> nat>, sas: seq<EvSa>, p: EvPkt)
  {
    sp.Some? && sp.value(p) != DISCARD && sp.value(p) != BYPASS && p.dyn.Some? ==> sp.value(p) - 1 < |sas|
  }

  /** The test of check_sp_sa_bulk. It does not catch a position past the SAs. */
  predicate SpSaPasses(sp: Option<EvPkt -> nat>, c: EvCtx, p: EvPkt)
  {
    match sp
    case None => true
    case Some(t) =>
      t(p) == BYPASS || (t(p) != DISCARD && p.dyn.Some? && p.dyn.value == SpiAt(c, t(p) - 1))
  }

  function SpSaChecked(sp: Option<EvPkt -> nat>, c: EvCtx): EvPkt -> Option<EvPkt>
  {
    (p: EvPkt) => if SpSaPasses(sp, c, p) then Some(p) else None
  }

  /** check_sp_bulk for the packets that stay: without a table, all do. */
  function SpStays(sp: Option<EvPkt -> nat>): EvPkt -> Option<EvPkt>
  {
    (p: EvPkt) => if sp.None? || sp.value(p) == BYPASS then Some(p) else None
  }

  /** check_sp_bulk for the packets that are to be protected. */
  function SpProtects(sp: Option<EvPkt -> nat>): EvPkt -> Option<EvPkt>
  {
    (p: EvPkt) => if sp.Some? && sp.value(p) != DISCARD && sp.value(p) != BYPASS then Some(p) else None
  }

  function RoutedTo(rt: map<nat, nat>): EvPkt -> Option<EvPkt>
  {
    (p: EvPkt) => Routed(rt, p)
  }

  /** Positions of protected packets in the SA table, kept beside them. */
  function OffloadedBy(c: EvCtx, sp: Option<EvPkt -> nat>): EvPkt -> Option<EvPkt>
  {
    (p: EvPkt) => if sp.Some? && sp.value(p) > 0 then Offloaded(c, p, sp.value(p) - 1) else None
  }

  /** What one packet of type k comes to. */
  function InOne(c: EvCtx, k: Kind, p: EvPkt): Option<EvPkt>
  {
    if p.kind == k && !(p.offload && p.failed)
        && SpSaPasses(TableOf(c, k), c, p) then Routed(RoutesOf(c, k), p) else None
  }

  function StayOne(c: EvCtx, k: Kind, p: EvPkt): Option<EvPkt>
  {
    if p.kind == k && SpStays(TableOf(c, k))(p).Some? then Routed(RoutesOf(c, k), p) else None
  }

  function EspOne(c: EvCtx, k: Kind, p: EvPkt): Option<EvPkt>
  {
    if p.kind == k && SpProtects(TableOf(c, k))(p).Some? then OffloadedBy(c, TableOf(c, k))(p) else None
  }

  function LaneIn(c: EvCtx, k: Kind): EvPkt -> Option<EvPkt>
  {
    (p: EvPkt) => InOne(c, k, p)
  }

  function LaneStay(c: EvCtx, k: Kind): EvPkt -> Option<EvPkt>
  {
    (p: EvPkt) => StayOne(c, k, p)
  }

  function LaneEsp(c: EvCtx, k: Kind): EvPkt -> Option<EvPkt>
  {
    (p: EvPkt) => EspOne(c, k, p)
  }

  function TableOf(c: EvCtx, k: Kind): Option<EvPkt -> nat>
  {
    if k == Plain4 then c.sp4 else c.sp6
  }

  function RoutesOf(c: EvCtx, k: Kind): map<nat, nat>
  {
    if k == Plain4 then c.rt4 else c.rt6
  }

  /** Three stages in a row. */
  lemma ThreeStages(ps: seq<EvPkt>, f: EvPkt -> Option<EvPkt>, g: EvPkt -> Option<EvPkt>, r: EvPkt -> Option<EvPkt>,
                    h: EvPkt -> Option<EvPkt>)
    requires forall p :: f(p).Some? ==> f(p).value == p
    requires forall p :: g(p).Some? ==> g(p).value == p
    requires forall p :: h(p) == if f(p).Some? && g(p).Some? then r(p) else None
    ensures Sent(Sent(Sent(ps, f), g), r) == Sent(ps, h)
  {
    var fg := (p: EvPkt) => if f(p).Some? then g(p) else None;
    SentThen(ps, f, g, fg);
    SentThen(ps, fg, r, h);
  }

  lemma LaneInStages(c: EvCtx, k: Kind, ps: seq<EvPkt>)
    requires k == Plain4 || k == Plain6
    ensures Sent(Sent(Sent(ps, Classified(k, true)), SpSaChecked(TableOf(c, k), c)), RoutedTo(RoutesOf(c, k)))
            == Sent(ps, LaneIn(c, k))
  {
    ThreeStages(ps, Classified(k, true), SpSaChecked(TableOf(c, k), c), RoutedTo(RoutesOf(c, k)), LaneIn(c, k));
  }

  lemma LaneStayStages(c: EvCtx, k: Kind, ps: seq<EvPkt>)
    requires k == Plain4 || k == Plain6
    ensures Sent(Sent(Sent(ps, Classified(k, false)), SpStays(TableOf(c, k))), RoutedTo(RoutesOf(c, k)))
            == Sent(ps, LaneStay(c, k))
  {
    ThreeStages(ps, Classified(k, false), SpStays(TableOf(c, k)), RoutedTo(RoutesOf(c, k)), LaneStay(c, k));
  }

  lemma LaneEspStages(c: EvCtx, k: Kind, ps: seq<EvPkt>)
    requires k == Plain4 || k == Plain6
    ensures Sent(Sent(Sent(ps, Classified(k, false)), SpProtects(TableOf(c, k))), OffloadedBy(c, TableOf(c, k)))
            == Sent(ps, LaneEsp(c, k))
  {
    ThreeStages(ps, Classified(k, false), SpProtects(TableOf(c, k)), OffloadedBy(c, TableOf(c, k)), LaneEsp(c, k));
  }

  /** What the inbound vector worker does with one packet. */
  function InboundInVector(c: EvCtx, p: EvPkt): Option<EvPkt>
  {
    if IsPlain(p) then InOne(c, p.kind, p) else None
  }

  /** What the outbound vector worker does with one packet. */
  function OutboundInVector(c: EvCtx, p: EvPkt): Option<EvPkt>
  {
    if !IsPlain(p) then None
    else if StayOne(c, p.kind, p).Some? then StayOne(c, p.kind, p)
    else EspOne(c, p.kind, p)
  }

  function InboundOfVector(c: EvCtx): EvPkt -> Option<EvPkt>
  {
    (p: EvPkt) => InboundInVector(c, p)
  }

  function OutboundOfVector(c: EvCtx): EvPkt -> Option<EvPkt>
  {
    (p: EvPkt) => OutboundInVector(c, p)
  }

  /**
   * Packet q is what a worker, of vectors or not, sends on for packet p. Inbound, to the port of its route: on a rule
   * that says bypass, or one that names the SA whose SPI is in the security field. Outbound, to the port of its route
   * on a rule that says bypass; else to the port of the SA the rule names, with the Tx offload flag, if that SA has an
   * inline protocol session. Only a vector lets packets without a table pass.
   */
  predicate LeavesAs(c: EvCtx, inbound: bool, vector: bool, p: EvPkt, q: EvPkt)
  {
    && (p.kind == Plain4 || p.kind == Plain6)
    && q == p.(port := q.port, tx := q.tx)
    && match (if p.kind == Plain4 then c.sp4 else c.sp6)
       case None => vector && !(inbound && p.offload && p.failed) && ByRoute(c, p, q)
       case Some(rule) =>
         if inbound then !(p.offload && p.failed) && ByRoute(c, p, q) && LetIn(c, vector, p, rule(p))
         else if rule(p) == BYPASS then ByRoute(c, p, q)
         else
           && rule(p) != DISCARD && 1 <= rule(p) <= |c.sas|
           && c.sas[rule(p) - 1].inlineProtocol && q.port == c.sas[rule(p) - 1].port && q.tx
  }

  predicate ByRoute(c: EvCtx, p: EvPkt, q: EvPkt)
  {
    var routes := if p.kind == Plain4 then c.rt4 else c.rt6;
    q.tx == p.tx && p.dst in routes && routes[p.dst] != MAX_ETHPORTS && q.port == routes[p.dst]
  }

  predicate LetIn(c: EvCtx, vector: bool, p: EvPkt, rule: nat)
  {
    || rule == BYPASS
    || (&& rule != DISCARD && rule >= 1 && p.dyn.Some? && (vector || (p.offload && rule <= |c.sas|))
        && p.dyn.value == if rule <= |c.sas| then c.sas[rule - 1].spi else c.beyond(rule - 1))
  }

  /** What either kind of worker does with one packet, either way. */
  function Worker(c: EvCtx, inbound: bool, vector: bool): EvPkt -> Option<EvPkt>
  {
    if vector then (if inbound then InboundOfVector(c) else OutboundOfVector(c))
    else if inbound then InboundOf(c) else OutboundOf(c)
  }

  lemma WorkerMeans(c: EvCtx, inbound: bool, vector: bool, p: EvPkt, q: EvPkt)
    ensures Worker(c, inbound, vector)(p) == Some(q) <==> LeavesAs(c, inbound, vector, p, q)
  {
    if inbound {
      InboundMeans(c, vector, p, q);
    } else {
      OutboundMeans(c, vector, p, q);
    }
  }

  lemma InboundMeans(c: EvCtx, vector: bool, p: EvPkt, q: EvPkt)
    ensures (if vector then InboundInVector(c, p) else Inbound(c, p)) == Some(q) <==> LeavesAs(c, true, vector, p, q)
  {
  }

  lemma OutboundMeans(c: EvCtx, vector: bool, p: EvPkt, q: EvPkt)
    ensures (if vector then OutboundInVector(c, p) else Outbound(c, p)) == Some(q) <==> LeavesAs(c, false, vector, p, q)
  {
  }

  /** A vector that holds what its packets leave as, and nothing else. */
  ghost predicate LeftBehind(c: EvCtx, inbound: bool, vector: bool, ps: seq<EvPkt>, out: seq<EvPkt>)
  {
    && (forall q :: q in out ==> LeftBy(c, inbound, vector, ps, q))
    && (forall p, q :: p in ps && LeavesAs(c, inbound, vector, p, q) ==> q in out)
  }

  ghost predicate LeftBy(c: EvCtx, inbound: bool, vector: bool, ps: seq<EvPkt>, q: EvPkt)
  {
    exists p :: p in ps && LeavesAs(c, inbound, vector, p, q)
  }

  lemma LeftBySent(c: EvCtx, inbound: bool, vector: bool, ps: seq<EvPkt>, q: EvPkt)
    ensures q in Sent(ps, Worker(c, inbound, vector)) <==> LeftBy(c, inbound, vector, ps, q)
  {
    SentIn(ps, Worker(c, inbound, vector), q);
    forall p | p in ps ensures Worker(c, inbound, vector)(p) == Some(q) <==> LeavesAs(c, inbound, vector, p, q) {
      WorkerMeans(c, inbound, vector, p, q);
    }
  }

  lemma WhatIsLeft(c: EvCtx, inbound: bool, vector: bool, ps: seq<EvPkt>, out: seq<EvPkt>)
    requires SameContents(out, Sent(ps, Worker(c, inbound, vector)))
    ensures LeftBehind(c, inbound, vector, ps, out)
  {
    forall q ensures q in out <==> LeftBy(c, inbound, vector, ps, q) {
      NumIn(out, q);
      NumIn(Sent(ps, Worker(c, inbound, vector)), q);
      LeftBySent(c, inbound, vector, ps, q);
    }
  }

  /** The first two loops of ipsec_ev_route_pkts, on an empty vector. */
  method EmitBoth(c: EvCtx, vec: Vector, t4: seq<EvPkt>, t6: seq<EvPkt>) returns (n: nat)
    requires PortsOk(c) && |t4| + |t6| <= vec.mbufs.Length
    modifies vec, vec.mbufs
    ensures n <= |t4| + |t6| && vec.Attributed(n)
    ensures vec.mbufs[..n] == Sent(t4, RoutedTo(c.rt4)) + Sent(t6, RoutedTo(c.rt6))
  {
    vec.AttrInit();
    RoutesAreReal(c);
    n := vec.Emit(0, t4, RoutedTo(c.rt4));
    assert vec.mbufs[..n] == Sent(t4, RoutedTo(c.rt4));
    n := vec.Emit(n, t6, RoutedTo(c.rt6));
  }

  /** The first half of process_ipsec_ev_inbound_vector: sort by type and check policy. */
  method InboundSorted(c: EvCtx, ps: seq<EvPkt>) returns (t4: seq<EvPkt>, t6: seq<EvPkt>)
    ensures Sent(t4, RoutedTo(c.rt4)) == Sent(ps, LaneIn(c, Plain4))
            && Sent(t6, RoutedTo(c.rt6)) == Sent(ps, LaneIn(c, Plain6))
    ensures |t4| + |t6| <= |ps|
  {
    var all4 := Choose(ps, Classified(Plain4, true));
    var all6 := Choose(ps, Classified(Plain6, true));
    t4 := Choose(all4, SpSaChecked(c.sp4, c));
    t6 := Choose(all6, SpSaChecked(c.sp6, c));
    LaneInStages(c, Plain4, ps);
    LaneInStages(c, Plain6, ps);
    ClassifiedFit(ps, true);
  }

  /** process_ipsec_ev_inbound_vector: n packets stay in the vector, the others are freed. */
  method InboundVector(c: EvCtx, vec: Vector) returns (n: nat)
    requires PortsOk(c)
    modifies vec, vec.mbufs
    ensures n <= vec.mbufs.Length && vec.Attributed(n)
    ensures SameContents(vec.mbufs[..n], Sent(old(vec.mbufs[..]), InboundOfVector(c)))
    ensures LeftBehind(c, true, true, old(vec.mbufs[..]), vec.mbufs[..n])
  {
    var ps := vec.mbufs[..];
    var t4, t6 := InboundSorted(c, ps);
    n := EmitBoth(c, vec, t4, t6);
    assert vec.mbufs[..n] == Sent(ps, LaneIn(c, Plain4)) + Sent(ps, LaneIn(c, Plain6));
    InboundSum(c, ps);
    WhatIsLeft(c, true, true, ps, vec.mbufs[..n]);
  }

  function NoLane(): EvPkt -> Option<EvPkt>
  {
    (p: EvPkt) => None
  }

  function AnyPlain(inbound: bool): EvPkt -> Option<EvPkt>
  {
    (p: EvPkt) => if IsPlain(p) && !(inbound && p.offload && p.failed) then Some(p) else None
  }

  /** The traffic arrays together are no longer than the vector. */
  lemma ClassifiedFit(ps: seq<EvPkt>, inbound: bool)
    ensures |Sent(ps, Classified(Plain4, inbound))| + |Sent(ps, Classified(Plain6, inbound))| <= |ps|
  {
    LanesSum(ps, AnyPlain(inbound), Classified(Plain4, inbound), Classified(Plain6, inbound), NoLane(), NoLane(),
        EvPkt(0, Invalid, false, false, None, 0, 0, false));
    SentAtMost(ps, AnyPlain(inbound));
  }

  lemma InboundSum(c: EvCtx, ps: seq<EvPkt>)
    ensures SameContents(Sent(ps, LaneIn(c, Plain4)) + Sent(ps, LaneIn(c, Plain6)), Sent(ps, InboundOfVector(c)))
  {
    forall x {
      InboundSumOf(c, ps, x);
    }
  }

  lemma InboundSumOf(c: EvCtx, ps: seq<EvPkt>, x: EvPkt)
    ensures var a, b, s := Sent(ps, LaneIn(c, Plain4)), Sent(ps, LaneIn(c, Plain6)), Sent(ps, InboundOfVector(c));
            |s| == |a| + |b| && Num(s, x) == Num(a + b, x)
  {
    LanesSum(ps, InboundOfVector(c), LaneIn(c, Plain4), LaneIn(c, Plain6), NoLane(), NoLane(), x);
    NumConcat(Sent(ps, LaneIn(c, Plain4)), Sent(ps, LaneIn(c, Plain6)), x);
    NothingSent(ps);
  }

  lemma {:induction false} NothingSent(ps: seq<EvPkt>)
    ensures Sent(ps, NoLane()) == []
  {
    if ps != [] {
      NothingSent(ps[1..]);
    }
  }

  /** Packets to protect, with the table positions that the policy gave them. */
  method Positions(sp: Option<EvPkt -> nat>, ps: seq<EvPkt>) returns (res: seq<nat>)
    requires forall p :: p in ps ==> sp.Some? && sp.value(p) > 0
    ensures Positioned(sp, ps, res)
  {
    res := [];
    for i := 0 to |ps|
      invariant Positioned(sp, ps[..i], res)
    {
      assert ps[i] in ps;
      OneMorePosition(sp, ps, i, res);
      res := res + [sp.value(ps[i]) - 1];
    }
    assert ps[..|ps|] == ps;
  }

  lemma OneMorePosition(sp: Option<EvPkt -> nat>, ps: seq<EvPkt>, i: nat, res: seq<nat>)
    requires i < |ps| && Positioned(sp, ps[..i], res) && sp.Some? && sp.value(ps[i]) > 0
    ensures Positioned(sp, ps[..i + 1], res + [sp.value(ps[i]) - 1])
  {
    assert ps[..i + 1] == ps[..i] + [ps[i]];
  }

  lemma {:induction false} SentHolds(ps: seq<EvPkt>, sp: Option<EvPkt -> nat>)
    ensures forall p :: p in Sent(ps, SpProtects(sp)) ==> sp.Some? && sp.value(p) > 0
  {
    if ps != [] {
      SentHolds(ps[1..], sp);
    }
  }

  /** check_sp_bulk: packets that stay, and packets to protect with their positions. */
  method CheckSpBulk(sp: Option<EvPkt -> nat>, ps: seq<EvPkt>)
    returns (stay: seq<EvPkt>, esp: seq<EvPkt>, res: seq<nat>)
    ensures stay == Sent(ps, SpStays(sp)) && esp == Sent(ps, SpProtects(sp)) && |stay| + |esp| <= |ps|
    ensures Positioned(sp, esp, res)
  {
    stay := Choose(ps, SpStays(sp));
    esp := Choose(ps, SpProtects(sp));
    SentHolds(ps, sp);
    res := Positions(sp, esp);
    StayOrProtect(ps, sp);
  }

  lemma {:induction false} StayOrProtect(ps: seq<EvPkt>, sp: Option<EvPkt -> nat>)
    ensures |Sent(ps, SpStays(sp))| + |Sent(ps, SpProtects(sp))| <= |ps|
  {
    if ps != [] {
      StayOrProtect(ps[1..], sp);
      SentHead(ps, SpStays(sp), ps[0]);
      SentHead(ps, SpProtects(sp), ps[0]);
    }
  }

  /** The ESP loop of ipsec_ev_route_pkts, by position. */
  method EmitEsp(vec: Vector, c: EvCtx, j: nat, esp: seq<EvPkt>, res: seq<nat>, ghost sp: Option<EvPkt -> nat>)
    returns (j': nat)
    requires PortsOk(c) && j + |esp| <= vec.mbufs.Length && vec.Attributed(j)
    requires Positioned(sp, esp, res)
    modifies vec, vec.mbufs
    ensures j' <= j + |esp| && vec.Attributed(j')
            && vec.mbufs[..j'] == old(vec.mbufs[..j]) + Sent(esp, OffloadedBy(c, sp))
  {
    j' := j;
    for i := 0 to |esp|
      invariant j <= j' <= j + i && vec.Attributed(j')
      invariant vec.mbufs[..j'] == old(vec.mbufs[..j]) + Sent(esp[..i], OffloadedBy(c, sp))
    {
      SentSnoc(esp, i, OffloadedBy(c, sp));
      j' := vec.Keep(j', Offloaded(c, esp[i], res[i]));
    }
    assert esp[..|esp|] == esp;
  }

  /** The packets of an outbound vector by what is to be done with them. */
  datatype Sorted = Sorted(s4: seq<EvPkt>, s6: seq<EvPkt>, e4: seq<EvPkt>, r4: seq<nat>, e6: seq<EvPkt>, r6: seq<nat>)

  predicate Positioned(sp: Option<EvPkt -> nat>, esp: seq<EvPkt>, res: seq<nat>)
  {
    |res| == |esp| && forall i :: 0 <= i < |esp| ==> sp.Some? && sp.value(esp[i]) == res[i] + 1
  }

  predicate SortedOf(c: EvCtx, ps: seq<EvPkt>, t: Sorted)
  {
    && Sent(t.s4, RoutedTo(c.rt4)) == Sent(ps, LaneStay(c, Plain4))
    && Sent(t.s6, RoutedTo(c.rt6)) == Sent(ps, LaneStay(c, Plain6))
    && Sent(t.e4, OffloadedBy(c, c.sp4)) == Sent(ps, LaneEsp(c, Plain4))
    && Sent(t.e6, OffloadedBy(c, c.sp6)) == Sent(ps, LaneEsp(c, Plain6))
    && Positioned(c.sp4, t.e4, t.r4) && Positioned(c.sp6, t.e6, t.r6)
    && |t.s4| + |t.s6| + |t.e4| + |t.e6| <= |ps|
  }

  method OutboundSorted(c: EvCtx, ps: seq<EvPkt>) returns (t: Sorted)
    ensures SortedOf(c, ps, t)
  {
    var all4 := Choose(ps, Classified(Plain4, false));
    var all6 := Choose(ps, Classified(Plain6, false));
    var s4, e4, r4 := CheckSpBulk(c.sp4, all4);
    var s6, e6, r6 := CheckSpBulk(c.sp6, all6);
    t := Sorted(s4, s6, e4, r4, e6, r6);
    ClassifiedFit(ps, false);
    LaneStayStages(c, Plain4, ps);
    LaneStayStages(c, Plain6, ps);
    LaneEspStages(c, Plain4, ps);
    LaneEspStages(c, Plain6, ps);
  }

  /** process_ipsec_ev_outbound_vector. */
  method OutboundVector(c: EvCtx, vec: Vector) returns (n: nat)
    requires PortsOk(c)
    modifies vec, vec.mbufs
    ensures n <= vec.mbufs.Length && vec.Attributed(n)
    ensures SameContents(vec.mbufs[..n], Sent(old(vec.mbufs[..]), OutboundOfVector(c)))
    ensures LeftBehind(c, false, true, old(vec.mbufs[..]), vec.mbufs[..n])
  {
    var ps := vec.mbufs[..];
    var t := OutboundSorted(c, ps);
    n := EmitBoth(c, vec, t.s4, t.s6);
    ghost var stay := Sent(ps, LaneStay(c, Plain4)) + Sent(ps, LaneStay(c, Plain6));
    assert vec.mbufs[..n] == stay;
    n := EmitEsp(vec, c, n, t.e4, t.r4, c.sp4);
    ghost var most := stay + Sent(ps, LaneEsp(c, Plain4));
    assert vec.mbufs[..n] == most;
    n := EmitEsp(vec, c, n, t.e6, t.r6, c.sp6);
    assert vec.mbufs[..n] == most + Sent(ps, LaneEsp(c, Plain6));
    OutboundSum(c, ps);
    WhatIsLeft(c, false, true, ps, vec.mbufs[..n]);
  }

  lemma OutboundSum(c: EvCtx, ps: seq<EvPkt>)
    ensures SameContents(Sent(ps, LaneStay(c, Plain4)) + Sent(ps, LaneStay(c, Plain6))
                         + Sent(ps, LaneEsp(c, Plain4)) + Sent(ps, LaneEsp(c, Plain6)), Sent(ps, OutboundOfVector(c)))
  {
    forall x {
      OutboundSumOf(c, ps, x);
    }
  }

  lemma OutboundSumOf(c: EvCtx, ps: seq<EvPkt>, x: EvPkt)
    ensures var out := Sent(ps, LaneStay(c, Plain4)) + Sent(ps, LaneStay(c, Plain6))
                       + Sent(ps, LaneEsp(c, Plain4)) + Sent(ps, LaneEsp(c, Plain6));
            |out| == |Sent(ps, OutboundOfVector(c))| && Num(out, x) == Num(Sent(ps, OutboundOfVector(c)), x)
  {
    var a, b := Sent(ps, LaneStay(c, Plain4)), Sent(ps, LaneStay(c, Plain6));
    var d, e := Sent(ps, LaneEsp(c, Plain4)), Sent(ps, LaneEsp(c, Plain6));
    forall p | p in ps
      ensures Lanes(OutboundOfVector(c)(p), LaneStay(c, Plain4)(p), LaneStay(c, Plain6)(p), LaneEsp(c, Plain4)(p),
              LaneEsp(c, Plain6)(p))
    {
    }
    LanesSum(ps, OutboundOfVector(c), LaneStay(c, Plain4), LaneStay(c, Plain6), LaneEsp(c, Plain4),
        LaneEsp(c, Plain6), x);
    NumConcat(a, b, x);
    NumConcat(a + b, d, x);
    NumConcat(a + b + d, e, x);
  }

  /** The one-packet inbound worker as a function of the packet. */
  function InboundOf(c: EvCtx): EvPkt -> Option<EvPkt>
  {
    (p: EvPkt) => Inbound(c, p)
  }

  function OutboundOf(c: EvCtx): EvPkt -> Option<EvPkt>
  {
    (p: EvPkt) => Outbound(c, p)
  }

  lemma {:induction false} SentSame(ps: seq<EvPkt>, f: EvPkt -> Option<EvPkt>, g: EvPkt -> Option<EvPkt>)
    requires forall p :: p in ps ==> f(p) == g(p)
    ensures Sent(ps, f) == Sent(ps, g)
  {
    if ps != [] {
      SentSame(ps[1..], f, g);
    }
  }

  /** The guards under which the two inbound workers can part. */
  predicate InboundParts(c: EvCtx, p: EvPkt)
  {
    && IsPlain(p) && !(p.offload && p.failed) && RoutedBy(c, p).Some?
    && match TableFor(c, p)
       case None => true
       case Some(t) =>
         && t(p) != DISCARD && t(p) != BYPASS && (!p.offload || t(p) - 1 >= |c.sas|)
         && p.dyn.Some? && p.dyn.value == SpiAt(c, t(p) - 1)
  }

  /**
   * One packet fares the same inbound in a vector as on its own exactly when it is not let through for want of a
   * table, nor on the strength of a security field that no processing has set or of memory past the SAs.
   */
  lemma InboundAgreesIff(c: EvCtx, p: EvPkt)
    ensures InboundInVector(c, p) == Inbound(c, p) <==> !InboundParts(c, p)
  {
  }

  /** Outbound, the two part only where there is no table and yet a route. */
  lemma OutboundAgreesIff(c: EvCtx, p: EvPkt)
    ensures OutboundInVector(c, p) == Outbound(c, p) <==> !(IsPlain(p) && TableFor(c, p).None? && RoutedBy(c, p).Some?)
  {
  }

  /**
   * A packet with a route and no table to check it against is dropped on its own and forwarded in a vector,
   * either way.
   */
  lemma NoTableForwards()
    ensures var c := EvCtx(None, None, [], i => 0, map[9 := 3], map[]);
            var p := EvPkt(1, Plain4, false, false, None, 9, 0, false);
            && Inbound(c, p) == None && InboundInVector(c, p) == Some(p.(port := 3))
            && Outbound(c, p) == None && OutboundInVector(c, p) == Some(p.(port := 3))
  {
  }

  /**
   * A packet that no hardware processed, with the SPI of an SA left in its security field, is forwarded in a
   * vector.
   */
  lemma StaleFieldForwards()
    ensures var c := EvCtx(Some(p => 1), None, [EvSa(7, true, 0)], i => 0, map[9 := 3], map[]);
            var p := EvPkt(1, Plain4, false, false, Some(7), 9, 0, false);
            Inbound(c, p) == None && InboundInVector(c, p) == Some(p.(port := 3))
  {
  }

  /** A processed packet whose rule names a position past the SAs is forwarded in a vector if it finds its SPI there. */
  lemma PastTheSasForwards()
    ensures var c := EvCtx(Some(p => 5), None, [EvSa(7, true, 0)], i => 8, map[9 := 3], map[]);
            var p := EvPkt(1, Plain4, true, false, Some(8), 9, 0, false);
            Inbound(c, p) == None && InboundInVector(c, p) == Some(p.(port := 3))
  {
  }

  /**
   * What a deployment has to see to: policy tables for both families, and a security field only on processed
   * packets.
   */
  predicate Deployed(c: EvCtx, ps: seq<EvPkt>)
  {
    && c.sp4.Some? && c.sp6.Some?
    && forall p :: p in ps ==> (p.dyn.Some? ==> p.offload) && InRange(TableFor(c, p), c.sas, p)
  }

  /**
   * The vector worker refines the one-packet worker: the same packets leave for the same ports as if each element had
   * been processed on its own, and the vector is marked as one-port exactly when they all leave for the same port.
   */
  method VectorProcess(c: EvCtx, vec: Vector, unprotected: bool) returns (n: nat)
    requires PortsOk(c) && Deployed(c, vec.mbufs[..])
    modifies vec, vec.mbufs
    ensures n <= vec.mbufs.Length
    ensures SameContents(vec.mbufs[..n], Sent(old(vec.mbufs[..]), if unprotected then InboundOf(c) else OutboundOf(c)))
    ensures LeftBehind(c, unprotected, false, old(vec.mbufs[..]), vec.mbufs[..n])
    ensures vec.attrValid <==> forall i, j :: 0 <= i < n && 0 <= j < n ==> vec.mbufs[i].port == vec.mbufs[j].port
  {
    ghost var ps := vec.mbufs[..];
    if unprotected {
      forall p | p in ps ensures InboundOfVector(c)(p) == InboundOf(c)(p) {
        InboundAgreesIff(c, p);
      }
      SentSame(ps, InboundOfVector(c), InboundOf(c));
      n := InboundVector(c, vec);
    } else {
      forall p | p in ps ensures OutboundOfVector(c)(p) == OutboundOf(c)(p) {
        OutboundAgreesIff(c, p);
      }
      SentSame(ps, OutboundOfVector(c), OutboundOf(c));
      n := OutboundVector(c, vec);
    }
    WhatIsLeft(c, unprotected, false, ps, vec.mbufs[..n]);
  }
}
