/**
 * Routing and transmit buffers (ipsec-secgw.c): per-port tables in front of NICs that take only a prefix of a
 * burst.
 */
module TxPorts {
  import opened Common
  import opened Packets
  import opened CryptoContext

  /** tx_mbufs per port, what each NIC has taken so far, and the tx counter. */
  datatype Ports = Ports(tx: seq<seq<Packet>>, sent: seq<seq<Packet>>, txCount: nat)

  predicate PortsOk(a: Ports)
  {
    && |a.tx| == |a.sent| && a.txCount == Total(a.sent)
    && forall i :: 0 <= i < |a.tx| ==> |a.tx[i]| < MAX_PKT_BURST
  }

  /** SA s has packets in row `home` of a table only. */
  predicate OnlyAt(t: seq<seq<Packet>>, home: nat, s: nat)
  {
    forall i :: 0 <= i < |t| && i != home ==> Sns(t[i], s) == []
  }

  function At(t: seq<seq<Packet>>, i: nat): seq<Packet>
  {
    if i < |t| then t[i] else []
  }

  /** The watched SA's numbers at its port, from the wire back. */
  function TxPipe(a: Ports, v: Watch): seq<nat>
  {
    Sns(At(a.sent, v.home), v.sa) + Sns(At(a.tx, v.home), v.sa)
  }

  function PortsCnt(a: Ports, v: Watch): nat
  {
    CntAll(a.sent, v.mbuf) + CntAll(a.tx, v.mbuf)
  }

  function PortsLen(a: Ports): nat
  {
    Total(a.sent) + Total(a.tx)
  }

  /**
   * What every transmit operation keeps: packets come in through `given`, and are buffered, sent or `freed`; the
   * watched SA's packets stay on its port and in order, though some may be freed.
   */
  ghost predicate Carries(a: Ports, given: seq<Packet>, b: Ports, freed: seq<Packet>, v: Watch)
  {
    && |b.tx| == |a.tx| && OnlyAt(b.tx, v.home, v.sa) && OnlyAt(b.sent, v.home, v.sa)
    && PortsCnt(b, v) + Cnt(freed, v.mbuf) == PortsCnt(a, v) + Cnt(given, v.mbuf)
    && PortsLen(b) + |freed| == PortsLen(a) + |given|
    && Sub(TxPipe(b, v), TxPipe(a, v) + Sns(given, v.sa))
  }

  /** Packet p is buffered at port w or was sent there. */
  predicate On(a: Ports, w: nat, p: Packet)
  {
    (w < |a.tx| && p in a.tx[w]) || (w < |a.sent| && p in a.sent[w])
  }

  /** A packet belongs at port w: its SA's port if it is marked for inline offload, else where its own route leads. */
  predicate BoundFor(p: Packet, rt: map<nat, nat>, w: nat)
  {
    if p.offload then p.saPort == Some(w) else p.dst in rt && rt[p.dst] == w
  }

  /** The ports gain only packets that were given, and each only such as are bound for it and fit. */
  ghost predicate Gains(a: Ports, given: seq<Packet>, rt: map<nat, nat>, mtu: nat, b: Ports)
  {
    forall w, p :: GainsAt(a, given, rt, mtu, b, w, p)
  }

  predicate GainsAt(a: Ports, given: seq<Packet>, rt: map<nat, nat>, mtu: nat, b: Ports, w: nat, p: Packet)
  {
    On(b, w, p) ==> On(a, w, p) || (p in given && BoundFor(p, rt, w) && p.len <= mtu)
  }

  /** Port w sends what it has buffered and `extra`: the NIC takes a prefix, and the rest is freed. */
  ghost predicate Bursts(a: Ports, w: nat, extra: seq<Packet>, b: Ports, freed: seq<Packet>)
  {
    && w < |a.tx| && w < |a.sent| && b.tx == a.tx[w := []]
    && var table := a.tx[w] + extra;
       |freed| <= |table| && freed == table[|table| - |freed|..]
       && b.sent == a.sent[w := a.sent[w] + table[..|table| - |freed|]]
       && b.txCount == a.txCount + (|table| - |freed|)
  }

  /**
   * What becomes of one packet: without a port to go to, or too long, it is freed; otherwise it is buffered, behind
   * what is buffered already, and a buffer of 32 is sent.
   */
  ghost predicate Placed(a: Ports, p: Packet, rt: map<nat, nat>, mtu: nat, b: Ports, freed: seq<Packet>)
  {
    && ((p.len > mtu || forall w: nat :: !BoundFor(p, rt, w)) ==> b == a && freed == [p])
    && forall w: nat :: BoundFor(p, rt, w) && w < |a.tx| && p.len <= mtu ==> PlacedAt(a, p, w, b, freed)
  }

  ghost predicate PlacedAt(a: Ports, p: Packet, w: nat, b: Ports, freed: seq<Packet>)
    requires w < |a.tx|
  {
    if |a.tx[w]| + 1 < MAX_PKT_BURST then freed == [] && b == a.(tx := a.tx[w := a.tx[w] + [p]])
    else Bursts(a, w, [p], b, freed)
  }

  ghost predicate Homed(a: Ports, v: Watch)
  {
    OnlyAt(a.tx, v.home, v.sa) && OnlyAt(a.sent, v.home, v.sa)
  }

  lemma CarriesNothing(a: Ports, v: Watch)
    requires Homed(a, v)
    ensures Carries(a, [], a, [], v)
  {
    assert TxPipe(a, v) + [] == TxPipe(a, v);
    SubRefl(TxPipe(a, v));
  }

  lemma CarriesThen(a: Ports, g1: seq<Packet>, mid: Ports, f1: seq<Packet>, g2: seq<Packet>, b: Ports,
                    f2: seq<Packet>, v: Watch)
    requires Carries(a, g1, mid, f1, v) && Carries(mid, g2, b, f2, v)
    ensures Carries(a, g1 + g2, b, f1 + f2, v)
  {
    CntConcat(g1, g2, v.mbuf);
    CntConcat(f1, f2, v.mbuf);
    SnsConcat(g1, g2, v.sa);
    PipeThen(TxPipe(a, v), Sns(g1, v.sa), TxPipe(mid, v), Sns(g2, v.sa), TxPipe(b, v));
  }

  /** Freeing what was given: nothing moves. */
  lemma CarriesFree(a: Ports, p: Packet, v: Watch)
    requires Homed(a, v)
    ensures Carries(a, [p], a, [p], v)
  {
    SubRefl(TxPipe(a, v));
    SubExtend(TxPipe(a, v), TxPipe(a, v), Sns([p], v.sa));
  }

  /** No other port is touched. */
  predicate OthersAlone(a: Ports, b: Ports, port: nat)
  {
    && |a.tx| == |b.tx| && |a.sent| == |b.sent|
    && (forall w :: 0 <= w < |a.tx| && w != port ==> b.tx[w] == a.tx[w])
    && (forall w :: 0 <= w < |a.sent| && w != port ==> b.sent[w] == a.sent[w])
  }

  /** Copies of mbuf x sent or buffered at port w. */
  function AtPort(a: Ports, w: nat, x: nat): nat
  {
    Cnt(At(a.sent, w), x) + Cnt(At(a.tx, w), x)
  }

  lemma RowInTable(t: seq<seq<Packet>>, u: seq<seq<Packet>>, w: nat, x: nat)
    requires w < |t| == |u| && forall i :: 0 <= i < |t| && i != w ==> t[i] == u[i]
    ensures CntAll(t, x) - Cnt(t[w], x) == CntAll(u, x) - Cnt(u[w], x)
  {
    TableUpdate(t, w, u[w], x);
    assert t[w := u[w]] == u;
  }

  /** When only port w changed, what it gained is what was given and not freed. */
  lemma PortGain(a: Ports, given: seq<Packet>, b: Ports, freed: seq<Packet>, w: nat, v: Watch)
    requires PortsOk(a) && PortsOk(b) && Carries(a, given, b, freed, v) && OthersAlone(a, b, w) && w < |a.tx|
    ensures AtPort(b, w, v.mbuf) + Cnt(freed, v.mbuf) == AtPort(a, w, v.mbuf) + Cnt(given, v.mbuf)
  {
    RowInTable(a.tx, b.tx, w, v.mbuf);
    RowInTable(a.sent, b.sent, w, v.mbuf);
  }

  /** send_burst: the NIC takes a prefix of the port's table (what was buffered plus `extra`), the rest is freed. */
  method SendBurst(a: Ports, port: nat, table: seq<Packet>, ghost extra: seq<Packet>, ghost v: Watch)
    returns (b: Ports, freed: seq<Packet>)
    requires PortsOk(a) && Homed(a, v) && port < |a.tx| && table == a.tx[port] + extra
    requires port != v.home ==> Sns(extra, v.sa) == []
    ensures PortsOk(b) && b.tx == a.tx[port := []] && Carries(a, extra, b, freed, v) && OthersAlone(a, b, port)
    ensures Bursts(a, port, extra, b, freed)
  {
    var ret: nat :| ret <= |table|;
    freed := table[ret..];
    b := Ports(a.tx[port := []], a.sent[port := a.sent[port] + table[..ret]], a.txCount + ret);
    BurstBooks(a, b, port, table, extra, ret, v);
    BurstOrder(a, b, port, table, extra, ret, v);
    assert |table| - |freed| == ret;
  }

  lemma BurstGains(a: Ports, w: nat, extra: seq<Packet>, b: Ports, freed: seq<Packet>)
    requires Bursts(a, w, extra, b, freed)
    ensures forall u, p :: On(b, u, p) ==> On(a, u, p) || (u == w && p in extra)
  {
    var table := a.tx[w] + extra;
    assert forall p :: p in table[..|table| - |freed|] ==> p in table;
  }

  lemma BurstBooks(a: Ports, b: Ports, port: nat, table: seq<Packet>, extra: seq<Packet>, ret: nat, v: Watch)
    requires PortsOk(a) && port < |a.tx| && table == a.tx[port] + extra && ret <= |table|
    requires b == Ports(a.tx[port := []], a.sent[port := a.sent[port] + table[..ret]], a.txCount + ret)
    ensures PortsOk(b)
    ensures PortsCnt(b, v) + Cnt(table[ret..], v.mbuf) == PortsCnt(a, v) + Cnt(extra, v.mbuf)
    ensures PortsLen(b) + |table[ret..]| == PortsLen(a) + |extra|
  {
    TableUpdate(a.tx, port, [], v.mbuf);
    TableUpdate(a.sent, port, a.sent[port] + table[..ret], v.mbuf);
    CntConcat(a.sent[port], table[..ret], v.mbuf);
    CntSplit(table, ret, v.mbuf);
    CntConcat(a.tx[port], extra, v.mbuf);
  }

  lemma {:induction false} BurstOrder(a: Ports, b: Ports, port: nat, table: seq<Packet>, extra: seq<Packet>,
                                      ret: nat, v: Watch)
    requires PortsOk(a) && Homed(a, v) && port < |a.tx| && table == a.tx[port] + extra && ret <= |table|
    requires b == Ports(a.tx[port := []], a.sent[port := a.sent[port] + table[..ret]], a.txCount + ret)
    requires port != v.home ==> Sns(extra, v.sa) == []
    ensures Homed(b, v) && Sub(TxPipe(b, v), TxPipe(a, v) + Sns(extra, v.sa))
  {
    var s := v.sa;
    SnsConcat(a.tx[port], extra, s);
    SnsSplit(table, ret, s);
    SnsConcat(a.sent[port], table[..ret], s);
    if port == v.home {
      SentSub(Sns(a.sent[port], s), Sns(a.tx[port], s), Sns(extra, s), Sns(table[..ret], s), Sns(table[ret..], s));
    } else {
      assert TxPipe(a, v) + [] == TxPipe(a, v);
      SubRefl(TxPipe(a, v));
    }
  }

  /** What is left of the pipe after a prefix of the port's table went out and the rest was dropped. */
  lemma SentSub(a: seq<nat>, t: seq<nat>, e: seq<nat>, x: seq<nat>, y: seq<nat>)
    requires t + e == x + y
    ensures Sub(a + x + [], a + t + e)
  {
    SubLeft(a + x, [], y);
    assert a + x + y == a + (x + y);
    assert a + t + e == a + (t + e);
  }

  /** send_single_packet without fragmentation: buffer the packet, send the burst when the buffer is full. */
  method SendSingle(a: Ports, p: Packet, port: nat, mtu: nat, ghost v: Watch) returns (b: Ports, freed: seq<Packet>)
    requires PortsOk(a) && Homed(a, v) && port < |a.tx| && (port != v.home ==> Sns([p], v.sa) == [])
    ensures PortsOk(b) && Carries(a, [p], b, freed, v) && OthersAlone(a, b, port)
    ensures if p.len <= mtu then PlacedAt(a, p, port, b, freed) else b == a && freed == [p]
  {
    b, freed := a, [];
    if p.len <= mtu {
      var table := a.tx[port] + [p];
      if |table| == MAX_PKT_BURST {
        b, freed := SendBurst(a, port, table, [p], v);
      } else {
        b := a.(tx := a.tx[port := table]);
        BufferOne(a, b, p, port, v);
      }
    } else {
      freed := [p];
      CarriesFree(a, p, v);
    }
  }

  lemma {:induction false} BufferOne(a: Ports, b: Ports, p: Packet, port: nat, v: Watch)
    requires PortsOk(a) && Homed(a, v) && port < |a.tx| && (port != v.home ==> Sns([p], v.sa) == [])
    requires b == a.(tx := a.tx[port := a.tx[port] + [p]])
    ensures Carries(a, [p], b, [], v)
  {
    TableUpdate(a.tx, port, a.tx[port] + [p], v.mbuf);
    CntConcat(a.tx[port], [p], v.mbuf);
    SnsConcat(a.tx[port], [p], v.sa);
    if port == v.home {
      assert TxPipe(b, v) == TxPipe(a, v) + Sns([p], v.sa);
    } else {
      assert TxPipe(a, v) + [] == TxPipe(a, v);
    }
    SubRefl(TxPipe(b, v));
  }

  /** drain_tx_buffers. */
  method DrainTx(a: Ports, ghost v: Watch) returns (b: Ports, freed: seq<Packet>)
    requires PortsOk(a) && Homed(a, v)
    ensures PortsOk(b) && Carries(a, [], b, freed, v)
    ensures forall i :: 0 <= i < |b.tx| ==> b.tx[i] == []
    ensures forall w, p :: On(b, w, p) ==> On(a, w, p)
    ensures forall w :: 0 <= w < |a.tx| ==> TakesPrefix(a.tx[w], a.sent[w], b.sent[w])
  {
    b, freed := a, [];
    CarriesNothing(a, v);
    for i := 0 to |a.tx|
      invariant PortsOk(b) && Carries(a, [], b, freed, v) && DrainedUpTo(a, b, i)
    {
      b, freed := DrainPort(a, b, freed, i, v);
    }
    AllDrained(a, b);
  }

  lemma AllDrained(a: Ports, b: Ports)
    requires |b.tx| == |a.tx| == |a.sent| == |b.sent| && DrainedUpTo(a, b, |a.tx|)
    ensures forall i :: 0 <= i < |b.tx| ==> b.tx[i] == []
    ensures forall w :: 0 <= w < |a.tx| ==> TakesPrefix(a.tx[w], a.sent[w], b.sent[w])
  {
    forall w: nat | w < |a.tx| ensures b.tx[w] == [] && TakesPrefix(a.tx[w], a.sent[w], b.sent[w]) {
      assert DrainedAt(a, b, w, |a.tx|);
    }
  }

  /** The ports below i have been drained, the others are as they were, and nothing is new. */
  ghost predicate DrainedUpTo(a: Ports, b: Ports, i: nat)
  {
    (forall w: nat :: DrainedAt(a, b, w, i)) && forall w, p :: On(b, w, p) ==> On(a, w, p)
  }

  predicate DrainedAt(a: Ports, b: Ports, w: nat, i: nat)
  {
    w < |a.tx| && w < |a.sent| ==>
      && w < |b.tx| && w < |b.sent|
      && if w < i then b.tx[w] == [] && TakesPrefix(a.tx[w], a.sent[w], b.sent[w])
         else b.tx[w] == a.tx[w] && b.sent[w] == a.sent[w]
  }

  method DrainPort(ghost a: Ports, mid: Ports, was: seq<Packet>, i: nat, ghost v: Watch)
    returns (b: Ports, freed: seq<Packet>)
    requires PortsOk(a) && PortsOk(mid) && i < |mid.tx| && Carries(a, [], mid, was, v) && DrainedUpTo(a, mid, i)
    ensures PortsOk(b) && Carries(a, [], b, freed, v) && DrainedUpTo(a, b, i + 1)
  {
    b, freed := mid, was;
    if mid.tx[i] != [] {
      ghost var none: seq<Packet> := [];
      assert mid.tx[i] + none == mid.tx[i] && none + none == none;
      var more;
      b, more := SendBurst(mid, i, mid.tx[i], none, v);
      freed := was + more;
      CarriesThen(a, none, mid, was, none, b, more, v);
      DrainedOne(a, mid, i, b, more);
    } else {
      var n := i + 1;
      forall w: nat ensures DrainedAt(a, b, w, n) {
        assert DrainedAt(a, mid, w, i);
      }
    }
  }

  lemma DrainedOne(a: Ports, mid: Ports, i: nat, b: Ports, more: seq<Packet>)
    requires PortsOk(a) && PortsOk(mid) && i < |mid.tx| == |a.tx| && DrainedUpTo(a, mid, i)
    requires Bursts(mid, i, [], b, more) && OthersAlone(mid, b, i)
    ensures DrainedUpTo(a, b, i + 1)
  {
    assert mid.tx[i] + [] == mid.tx[i];
    var n := i + 1;
    forall w: nat ensures DrainedAt(a, b, w, n) {
      assert DrainedAt(a, mid, w, i);
      if w == i {
        assert b.sent[i][|mid.sent[i]|..] == mid.tx[i][..|mid.tx[i]| - |more|];
      }
    }
    BurstGains(mid, i, [], b, more);
  }

  /** Destinations of the packets that need a route lookup: all but those marked for inline offload. */
  function Dsts(ps: seq<Packet>): seq<nat>
  {
    if ps == [] then [] else (if ps[0].offload then [] else [ps[0].dst]) + Dsts(ps[1..])
  }

  lemma {:induction false} DstsConcat(a: seq<Packet>, b: seq<Packet>)
    ensures Dsts(a + b) == Dsts(a) + Dsts(b)
  {
    if a == [] {
      assert a + b == b;
    } else {
      assert (a + b)[1..] == a[1..] + b;
      DstsConcat(a[1..], b);
    }
  }

  /** The position a packet's destination has in the lookup array. */
  lemma DstsAt(ps: seq<Packet>, i: nat)
    requires i < |ps| && !ps[i].offload
    ensures |Dsts(ps[..i])| < |Dsts(ps)| && Dsts(ps)[|Dsts(ps[..i])|] == ps[i].dst
  {
    assert ps == ps[..i] + ps[i..];
    DstsConcat(ps[..i], ps[i..]);
    assert Dsts(ps[i..]) == [ps[i].dst] + Dsts(ps[i..][1..]);
  }

  /** A route table: longest-prefix match, as a map from destination to port. */
  function Lookup(rt: map<nat, nat>, dst: nat): Option<nat>
  {
    if dst in rt then Some(rt[dst]) else None
  }

  /** rte_lpm_lookup_bulk. */
  method LookupBulk(rt: map<nat, nat>, dsts: seq<nat>) returns (hops: seq<Option<nat>>)
    ensures |hops| == |dsts| && forall i :: 0 <= i < |dsts| ==> hops[i] == Lookup(rt, dsts[i])
  {
    hops := [];
    for i := 0 to |dsts|
      invariant |hops| == i && forall j :: 0 <= j < i ==> hops[j] == Lookup(rt, dsts[j])
    {
      hops := hops + [Lookup(rt, dsts[i])];
    }
  }

  /** First pass of route4_pkts and route6_pkts. */
  method CollectDsts(pkts: seq<Packet>) returns (dsts: seq<nat>)
    ensures dsts == Dsts(pkts)
  {
    dsts := [];
    for i := 0 to |pkts|
      invariant dsts == Dsts(pkts[..i])
    {
      assert pkts[..i + 1] == pkts[..i] + [pkts[i]];
      DstsConcat(pkts[..i], [pkts[i]]);
      assert Dsts([pkts[i]]) == if pkts[i].offload then [] else [pkts[i].dst];
      if !pkts[i].offload {
        dsts := dsts + [pkts[i].dst];
      }
    }
    assert pkts[..|pkts|] == pkts;
  }

  /** Where a packet goes: to its SA's port when marked for inline offload, else where its own destination is routed. */
  function HopOf(p: Packet, rt: map<nat, nat>): Option<nat>
  {
    if p.offload then p.saPort else Lookup(rt, p.dst)
  }

  predicate RoutesOk(rt: map<nat, nat>, ports: nat)
  {
    forall d :: d in rt ==> rt[d] < ports
  }

  /** Copies of mbuf x on a list whose hop is port w. */
  function BoundCnt(ps: seq<Packet>, rt: map<nat, nat>, w: nat, x: nat): nat
  {
    if ps == [] then 0
    else (if BoundFor(ps[0], rt, w) && ps[0].id == x then 1 else 0) + BoundCnt(ps[1..], rt, w, x)
  }

  lemma {:induction false} BoundSnoc(ps: seq<Packet>, p: Packet, rt: map<nat, nat>, w: nat, x: nat)
    ensures BoundCnt(ps + [p], rt, w, x)
            == BoundCnt(ps, rt, w, x) + (if BoundFor(p, rt, w) then Cnt([p], x) else 0)
  {
    if ps == [] {
      assert ps + [p] == [p];
    } else {
      assert (ps + [p])[1..] == ps[1..] + [p];
      BoundSnoc(ps[1..], p, rt, w, x);
    }
  }

  /**
   * route4_pkts and route6_pkts: every packet is buffered, sent or freed, and a port w gains no packet but those whose
   * own hop it is, although the lookups are done in bulk on a shorter array.
   */
  method Route(a: Ports, pkts: seq<Packet>, rt: map<nat, nat>, mtu: nat, ghost w: nat, ghost v: Watch)
    returns (b: Ports, freed: seq<Packet>, ghost steps: seq<Step>)
    requires |pkts| <= 2 * MAX_PKT_BURST
    requires PortsOk(a) && Homed(a, v) && RoutesOk(rt, |a.tx|) && Routed(pkts, v) && v.ports == |a.tx|
    requires Sns(pkts, v.sa) == [] || v.home == Lookup(rt, v.dst).UnwrapOr(|a.tx|)
    ensures PortsOk(b) && RoutedSo(a, pkts, rt, mtu, b, freed, steps, w, v)
  {
    var hops := ChooseHops(pkts, rt);
    b, freed, steps := a, [], [];
    RoutedNone(a, rt, mtu, w, v);
    ghost var done: seq<Packet> := [];
    for i := 0 to |pkts|
      invariant done == pkts[..i]
      invariant |b.tx| == |a.tx| && PortsOk(b) && RoutedSo(a, done, rt, mtu, b, freed, steps, w, v)
    {
      HopIsHome(pkts, i, rt, |a.tx|, v);
      b, freed, steps := RouteNext(a, done, b, freed, steps, pkts[i], hops[i], rt, mtu, w, v);
      done := done + [pkts[i]];
    }
    assert done == pkts;
  }

  /** What has become of the packets routed so far. */
  ghost predicate RoutedSo(a: Ports, done: seq<Packet>, rt: map<nat, nat>, mtu: nat, b: Ports, freed: seq<Packet>,
                           steps: seq<Step>, w: nat, v: Watch)
  {
    && Carries(a, done, b, freed, v) && AtPort(b, w, v.mbuf) <= AtPort(a, w, v.mbuf) + BoundCnt(done, rt, w, v.mbuf)
    && Walked(a, done, rt, mtu, b, freed, steps) && Gains(a, done, rt, mtu, b) && Spares(a, done, rt, mtu, b, freed)
  }

  lemma RoutedNone(a: Ports, rt: map<nat, nat>, mtu: nat, w: nat, v: Watch)
    requires Homed(a, v)
    ensures RoutedSo(a, [], rt, mtu, a, [], [], w, v)
  {
    CarriesNothing(a, v);
  }

  method RouteNext(ghost a: Ports, ghost done: seq<Packet>, mid: Ports, was: seq<Packet>, ghost steps: seq<Step>,
                   p: Packet, hop: Option<nat>, ghost rt: map<nat, nat>, mtu: nat, ghost w: nat, ghost v: Watch)
    returns (b: Ports, freed: seq<Packet>, ghost steps': seq<Step>)
    requires PortsOk(mid) && |mid.tx| == |a.tx| == v.ports && RoutedSo(a, done, rt, mtu, mid, was, steps, w, v)
    requires hop == HopOf(p, rt) && (hop.Some? ==> hop.value < |mid.tx|) && RoutesOk(rt, |a.tx|) && RoutedOne(p, v)
    requires hop.Some? && hop.value != v.home ==> Sns([p], v.sa) == []
    ensures PortsOk(b) && |b.tx| == |a.tx| && RoutedSo(a, done + [p], rt, mtu, b, freed, steps', w, v)
  {
    ghost var more;
    b, freed, more := RouteOne(a, done, mid, was, p, hop, rt, mtu, w, v);
    WalkedMore(a, done, p, rt, mtu, mid, was, steps, b, more);
    PlacedGains(mid, p, rt, mtu, b, more);
    GainsThen(a, done, mid, [p], rt, mtu, b);
    PlacedSpares(mid, p, rt, mtu, b, more);
    SparesThen(a, done, mid, was, [p], rt, mtu, b, more);
    steps' := steps + [Step(mid, more, b)];
  }

  /** One packet's part of a walk: the ports before it, what was freed for it, and the ports after it. */
  datatype Step = Step(before: Ports, freed: seq<Packet>, after: Ports)

  function FreedBy(steps: seq<Step>): seq<Packet>
  {
    if steps == [] then [] else FreedBy(steps[..|steps| - 1]) + steps[|steps| - 1].freed
  }

  /** The packets are placed one after the other. */
  ghost predicate Walked(a: Ports, pkts: seq<Packet>, rt: map<nat, nat>, mtu: nat, b: Ports, freed: seq<Packet>,
                         steps: seq<Step>)
  {
    && |steps| == |pkts| && freed == FreedBy(steps)
    && (if pkts == [] then b == a else steps[0].before == a && steps[|steps| - 1].after == b)
    && forall i :: StepOk(pkts, rt, mtu, steps, i)
  }

  /** Step i places packet i where the step before it left the ports. */
  ghost predicate StepOk(pkts: seq<Packet>, rt: map<nat, nat>, mtu: nat, steps: seq<Step>, i: nat)
    requires |steps| == |pkts|
  {
    i < |steps| ==>
      && Placed(steps[i].before, pkts[i], rt, mtu, steps[i].after, steps[i].freed)
      && (i > 0 ==> steps[i].before == steps[i - 1].after)
  }

  lemma WalkedMore(a: Ports, pkts: seq<Packet>, p: Packet, rt: map<nat, nat>, mtu: nat, mid: Ports,
                   was: seq<Packet>, steps: seq<Step>, b: Ports, more: seq<Packet>)
    requires Walked(a, pkts, rt, mtu, mid, was, steps) && Placed(mid, p, rt, mtu, b, more)
    ensures Walked(a, pkts + [p], rt, mtu, b, was + more, steps + [Step(mid, more, b)])
  {
    var all, given := steps + [Step(mid, more, b)], pkts + [p];
    assert all[..|steps|] == steps;
    forall i: nat ensures StepOk(given, rt, mtu, all, i) {
      assert StepOk(pkts, rt, mtu, steps, i);
    }
  }

  /** No port is a packet's. */
  predicate Unrouted(p: Packet, rt: map<nat, nat>)
  {
    if p.offload then p.saPort.None? else p.dst !in rt
  }

  /** With n more packets, a tx buffer may come to be full. */
  ghost predicate TxMayFill(a: Ports, n: nat)
  {
    exists w :: 0 <= w < |a.tx| && |a.tx[w]| + n >= MAX_PKT_BURST
  }

  /**
   * As long as no tx buffer fills up, only packets are freed that have no port or are too long; buffers grow by what is
   * given.
   */
  ghost predicate Spares(a: Ports, given: seq<Packet>, rt: map<nat, nat>, mtu: nat, b: Ports, freed: seq<Packet>)
  {
    && (forall p :: SparesOne(a, given, rt, mtu, freed, p))
    && |b.tx| == |a.tx| && forall w :: TxGrows(a, b, |given|, w)
  }

  ghost predicate SparesOne(a: Ports, given: seq<Packet>, rt: map<nat, nat>, mtu: nat, freed: seq<Packet>, p: Packet)
  {
    p in freed ==> (p in given && (p.len > mtu || Unrouted(p, rt))) || TxMayFill(a, |given|)
  }

  predicate TxGrows(a: Ports, b: Ports, n: nat, w: nat)
  {
    w < |a.tx| && w < |b.tx| ==> |b.tx[w]| <= |a.tx[w]| + n
  }

  lemma PlacedSpares(a: Ports, p: Packet, rt: map<nat, nat>, mtu: nat, b: Ports, freed: seq<Packet>)
    requires RoutesOk(rt, |a.tx|) && (p.offload && p.saPort.Some? ==> p.saPort.value < |a.tx|)
    requires Placed(a, p, rt, mtu, b, freed)
    ensures Spares(a, [p], rt, mtu, b, freed)
  {
    if !Unrouted(p, rt) && p.len <= mtu {
      var w: nat := if p.offload then p.saPort.value else rt[p.dst];
      assert BoundFor(p, rt, w);
      assert PlacedAt(a, p, w, b, freed);
      if |a.tx[w]| + 1 >= MAX_PKT_BURST {
        assert TxMayFill(a, |[p]|);
      }
    } else {
      assert forall w: nat :: BoundFor(p, rt, w) ==> p.len > mtu;
    }
  }

  lemma SparesThen(a: Ports, g1: seq<Packet>, mid: Ports, f1: seq<Packet>, g2: seq<Packet>, rt: map<nat, nat>,
                   mtu: nat, b: Ports, f2: seq<Packet>)
    requires Spares(a, g1, rt, mtu, mid, f1) && Spares(mid, g2, rt, mtu, b, f2)
    ensures Spares(a, g1 + g2, rt, mtu, b, f1 + f2)
  {
    var all := g1 + g2;
    forall w: nat ensures TxGrows(a, b, |all|, w) {
      assert TxGrows(a, mid, |g1|, w) && TxGrows(mid, b, |g2|, w);
    }
    FillsStill(a, mid, |g1|, |g2|);
    forall p ensures SparesOne(a, all, rt, mtu, f1 + f2, p) {
      assert SparesOne(a, g1, rt, mtu, f1, p) && SparesOne(mid, g2, rt, mtu, f2, p);
    }
  }

  lemma FillsStill(a: Ports, mid: Ports, n: nat, m: nat)
    requires |mid.tx| == |a.tx| && forall w :: TxGrows(a, mid, n, w)
    ensures TxMayFill(a, n) || TxMayFill(mid, m) ==> TxMayFill(a, n + m)
  {
    if TxMayFill(a, n) {
      var w :| 0 <= w < |a.tx| && |a.tx[w]| + n >= MAX_PKT_BURST;
      assert |a.tx[w]| + (n + m) >= MAX_PKT_BURST;
    } else if TxMayFill(mid, m) {
      var w: nat :| 0 <= w < |mid.tx| && |mid.tx[w]| + m >= MAX_PKT_BURST;
      assert TxGrows(a, mid, n, w);
      assert |a.tx[w]| + (n + m) >= MAX_PKT_BURST;
    }
  }

  lemma PlacedGains(a: Ports, p: Packet, rt: map<nat, nat>, mtu: nat, b: Ports, freed: seq<Packet>)
    requires RoutesOk(rt, |a.tx|) && (p.offload && p.saPort.Some? ==> p.saPort.value < |a.tx|)
    requires Placed(a, p, rt, mtu, b, freed)
    ensures Gains(a, [p], rt, mtu, b)
  {
    if w: nat :| BoundFor(p, rt, w) && p.len <= mtu {
      if |a.tx[w]| + 1 >= MAX_PKT_BURST {
        BurstGains(a, w, [p], b, freed);
      }
    }
  }

  lemma GainsThen(a: Ports, g1: seq<Packet>, mid: Ports, g2: seq<Packet>, rt: map<nat, nat>, mtu: nat, b: Ports)
    requires Gains(a, g1, rt, mtu, mid) && Gains(mid, g2, rt, mtu, b)
    ensures Gains(a, g1 + g2, rt, mtu, b)
  {
    var all := g1 + g2;
    forall w, p ensures GainsAt(a, all, rt, mtu, b, w, p) {
      assert GainsAt(a, g1, rt, mtu, mid, w, p) && GainsAt(mid, g2, rt, mtu, b, w, p);
    }
  }

  /** One more packet routed. */
  method RouteOne(ghost a: Ports, ghost done: seq<Packet>, mid: Ports, was: seq<Packet>, p: Packet, hop: Option<nat>,
                  ghost rt: map<nat, nat>, mtu: nat, ghost w: nat, ghost v: Watch)
    returns (b: Ports, freed: seq<Packet>, more: seq<Packet>)
    requires PortsOk(mid) && Carries(a, done, mid, was, v)
    requires hop == HopOf(p, rt) && (hop.Some? ==> hop.value < |mid.tx|)
    requires hop.Some? && hop.value != v.home ==> Sns([p], v.sa) == []
    requires AtPort(mid, w, v.mbuf) <= AtPort(a, w, v.mbuf) + BoundCnt(done, rt, w, v.mbuf)
    ensures PortsOk(b) && Carries(a, done + [p], b, freed, v)
    ensures freed == was + more && Placed(mid, p, rt, mtu, b, more)
    ensures AtPort(b, w, v.mbuf) <= AtPort(a, w, v.mbuf) + BoundCnt(done + [p], rt, w, v.mbuf)
  {
    b, more := Deliver(mid, p, hop, rt, mtu, w, v);
    freed := was + more;
    CarriesThen(a, done, mid, was, [p], b, more, v);
    BoundSnoc(done, p, rt, w, v.mbuf);
  }

  /** Both passes: look up in bulk what needs a lookup, then give every packet its own result. */
  method ChooseHops(pkts: seq<Packet>, rt: map<nat, nat>) returns (hops: seq<Option<nat>>)
    ensures |hops| == |pkts| && forall i :: 0 <= i < |pkts| ==> hops[i] == HopOf(pkts[i], rt)
  {
    var dsts := CollectDsts(pkts);
    var found := LookupBulk(rt, dsts);
    hops := [];
    var k := 0;
    for i := 0 to |pkts|
      invariant k == |Dsts(pkts[..i])|
      invariant |hops| == i && forall j :: 0 <= j < i ==> hops[j] == HopOf(pkts[j], rt)
    {
      assert pkts[..i + 1] == pkts[..i] + [pkts[i]];
      DstsConcat(pkts[..i], [pkts[i]]);
      if pkts[i].offload {
        hops := hops + [pkts[i].saPort];
      } else {
        DstsAt(pkts, i);
        hops := hops + [found[k]];
        k := k + 1;
      }
    }
  }

  method Deliver(a: Ports, p: Packet, hop: Option<nat>, ghost rt: map<nat, nat>, mtu: nat, ghost w: nat, ghost v: Watch)
    returns (b: Ports, freed: seq<Packet>)
    requires PortsOk(a) && Homed(a, v) && hop == HopOf(p, rt) && (hop.Some? ==> hop.value < |a.tx|)
    requires hop.Some? && hop.value != v.home ==> Sns([p], v.sa) == []
    ensures PortsOk(b) && Carries(a, [p], b, freed, v)
    ensures AtPort(b, w, v.mbuf) <= AtPort(a, w, v.mbuf) + (if BoundFor(p, rt, w) then Cnt([p], v.mbuf) else 0)
    ensures Placed(a, p, rt, mtu, b, freed)
  {
    if hop.None? {
      b, freed := a, [p];
      CarriesFree(a, p, v);
    } else {
      b, freed := SendSingle(a, p, hop.value, mtu, v);
      if hop.value == w {
        PortGain(a, [p], b, freed, w, v);
      }
    }
    HopPlaced(a, p, hop, rt, mtu, b, freed);
  }

  lemma HopPlaced(a: Ports, p: Packet, hop: Option<nat>, rt: map<nat, nat>, mtu: nat, b: Ports, freed: seq<Packet>)
    requires hop == HopOf(p, rt) && (hop.Some? ==> hop.value < |a.tx|)
    requires if hop.None? || p.len > mtu then b == a && freed == [p] else PlacedAt(a, p, hop.value, b, freed)
    ensures Placed(a, p, rt, mtu, b, freed)
  {
    forall w: nat ensures BoundFor(p, rt, w) <==> hop == Some(w) {
    }
  }

  lemma HopIsHome(pkts: seq<Packet>, i: nat, rt: map<nat, nat>, ports: nat, v: Watch)
    requires i < |pkts| && RoutesOk(rt, ports) && Routed(pkts, v) && v.ports == ports
    requires Sns(pkts, v.sa) == [] || v.home == Lookup(rt, v.dst).UnwrapOr(ports)
    ensures HopOf(pkts[i], rt).Some? ==>
      && HopOf(pkts[i], rt).value < ports
      && (HopOf(pkts[i], rt).value != v.home ==> Sns([pkts[i]], v.sa) == [])
    ensures RoutedOne(pkts[i], v)
  {
    TaggedHop(pkts, i, v);
  }

  /** A packet numbered by the watched SA carries its outer destination. */
  lemma TaggedHop(pkts: seq<Packet>, i: nat, v: Watch)
    requires i < |pkts| && Routed(pkts, v)
    ensures RoutedOne(pkts[i], v)
    ensures Sns([pkts[i]], v.sa) == [] || (Sns(pkts, v.sa) != [] && pkts[i].dst == v.dst && !pkts[i].offload)
  {
    RoutedSplit(pkts, i, v);
    SnsSplit(pkts, i, v.sa);
    assert pkts[i..][0] == pkts[i];
    assert Sns([pkts[i]], v.sa) ==
           if pkts[i].tag.Some? && pkts[i].tag.value.sa == v.sa then [pkts[i].tag.value.sn] else [];
  }
}
