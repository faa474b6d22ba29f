/** The path that uses the IPsec library (ipsec_process.c): grouping by SA, processing by group, and collection. */
module LibraryMode {
  import opened Common
  import opened Packets

  /** A saptr entry: the SA (0 is NULL) and, in its lowest bit, the fallback mark. */
  datatype SaPtr = SaPtr(sa: nat, fallback: bool)

  /** rte_ipsec_group: `cnt` packets from index `m` of the burst on, with the same entry. */
  datatype Group = Group(m: nat, cnt: nat, id: SaPtr)

  /** gs cuts sas[..e] into maximal runs of equal entries. */
  predicate Grouped(sas: seq<SaPtr>, gs: seq<Group>, e: nat)
    requires e <= |sas|
  {
    if gs == [] then e == 0
    else
      var rest, g := gs[..|gs| - 1], gs[|gs| - 1];
      && g.m < e == g.m + g.cnt && Run(sas, g, e) && Grouped(sas, rest, g.m)
      && (rest != [] ==> rest[|rest| - 1].id != g.id)
  }

  predicate Run(sas: seq<SaPtr>, g: Group, e: nat)
    requires e <= |sas|
  {
    forall j :: g.m <= j < e ==> sas[j] == g.id
  }

  /** sa_group, filling the group array in place. */
  method SaGroup(sas: seq<SaPtr>, grp: array<Group>) returns (n: nat)
    requires 0 < grp.Length && |sas| <= grp.Length
    modifies grp
    ensures n <= |sas| && Grouped(sas, grp[..n], |sas|)
  {
    var sa: Option<SaPtr> := None;
    n := 0;
    grp[0] := grp[0].(m := 0);
    for i := 0 to |sas|
      invariant sa.None? ==> i == 0 == n && grp[0].m == 0
      invariant sa.Some? ==> n < i && grp[n].m < i && grp[n].id == sa.value && Run(sas, grp[n], i)
      invariant sa.Some? ==> Grouped(sas, grp[..n], grp[n].m) && (n > 0 ==> grp[n - 1].id != grp[n].id)
    {
      if sa != Some(sas[i]) {
        ghost var before := grp[..n];
        grp[n] := grp[n].(cnt := i - grp[n].m);
        assert grp[..n] == before;
        if sa.Some? {
          ghost var all := grp[..n + 1];
          assert all[..n] == before && all[n] == grp[n];
          assert Grouped(sas, all, i);
          n := n + 1;
        }
        ghost var closed := grp[..n];
        assert Grouped(sas, closed, i);
        grp[n] := grp[n].(id := sas[i], m := i);
        assert grp[..n] == closed;
        sa := Some(sas[i]);
      }
    }
    if sa.Some? {
      ghost var before := grp[..n];
      grp[n] := grp[n].(cnt := |sas| - grp[n].m);
      assert grp[..n] == before;
      ghost var all := grp[..n + 1];
      assert all[..n] == before && all[n] == grp[n];
      n := n + 1;
    }
  }

  /** There is only one way to cut a burst into maximal runs, so the contract of SaGroup leaves no choice. */
  lemma {:induction false} OneGrouping(sas: seq<SaPtr>, a: seq<Group>, b: seq<Group>, e: nat)
    requires e <= |sas| && Grouped(sas, a, e) && Grouped(sas, b, e)
    ensures a == b
    decreases e
  {
    if e > 0 {
      var g, h := a[|a| - 1], b[|b| - 1];
      assert sas[e - 1] == g.id == h.id;
      LongestRun(sas, a, b, e);
      LongestRun(sas, b, a, e);
      OneGrouping(sas, a[..|a| - 1], b[..|b| - 1], g.m);
      assert a == a[..|a| - 1] + [g] && b == b[..|b| - 1] + [h];
    } else {
      assert a == [] && b == [];
    }
  }

  lemma LongestRun(sas: seq<SaPtr>, a: seq<Group>, b: seq<Group>, e: nat)
    requires 0 < e <= |sas| && Grouped(sas, a, e) && Grouped(sas, b, e) && a != [] && b != []
    requires a[|a| - 1].id == b[|b| - 1].id
    ensures a[|a| - 1].m <= b[|b| - 1].m
  {
    var g, rest := a[|a| - 1], a[..|a| - 1];
    assert rest != [] ==> sas[g.m - 1] == rest[|rest| - 1].id;
  }

  /** The groups put together again. */
  function Joined(pkts: seq<Packet>, gs: seq<Group>): seq<Packet>
    requires forall g :: g in gs ==> g.m + g.cnt <= |pkts|
  {
    if gs == [] then [] else Joined(pkts, gs[..|gs| - 1]) + pkts[gs[|gs| - 1].m..gs[|gs| - 1].m + gs[|gs| - 1].cnt]
  }

  /** No group is empty or too many, none runs past the burst, and together they are the burst. */
  lemma {:induction false} GroupsCover(pkts: seq<Packet>, sas: seq<SaPtr>, gs: seq<Group>, e: nat)
    requires |pkts| == |sas| && e <= |sas| && Grouped(sas, gs, e)
    ensures |gs| <= e && forall g :: g in gs ==> g.cnt > 0 && g.m + g.cnt <= e
    ensures Joined(pkts, gs) == pkts[..e]
  {
    if gs != [] {
      var rest, g := gs[..|gs| - 1], gs[|gs| - 1];
      GroupsCover(pkts, sas, rest, g.m);
      assert gs == rest + [g];
      assert pkts[..e] == pkts[..g.m] + pkts[g.m..e];
    }
  }

  datatype Action = LookasideNone | LookasideProtocol | InlineCrypto | InlineProtocol | CpuCrypto | OtherAction

  /** rte_ipsec_sa_type: direction, inner version, and mode. */
  datatype Mode = Transport | Tunnel4 | Tunnel6
  datatype SaType = SaType(inbound: bool, v4: bool, mode: Mode)

  datatype Session = Session(action: Action, satp: SaType)
  datatype SaEntry = SaEntry(qp: nat, primary: Session, fallback: Session)

  /** Where a processed packet can end up: a crypto queue pair, the IPv4 or the IPv6 output; or it has to be freed. */
  datatype Way = ToQueue(qp: nat) | ToIp4 | ToIp6 | Nowhere

  /** copy_to_trf: by the version inside when decapsulated, by the header in front when encapsulated. */
  function OutputOf(t: SaType): Way
  {
    if t.inbound then (if t.v4 then ToIp4 else ToIp6)
    else if (t.mode == Transport && t.v4) || t.mode == Tunnel4 then ToIp4
    else ToIp6
  }

  /** The switch of ipsec_process. Entry 0 is NULL. */
  function WayOf(table: map<nat, SaEntry>, p: SaPtr): Way
  {
    if p.sa == 0 || p.sa !in table then Nowhere
    else
      var sa := table[p.sa];
      var ips := if p.fallback then sa.fallback else sa.primary;
      match ips.action
      case LookasideNone => ToQueue(sa.qp)
      case LookasideProtocol => ToQueue(sa.qp)
      case InlineCrypto => OutputOf(ips.satp)
      case InlineProtocol => OutputOf(ips.satp)
      case CpuCrypto => OutputOf(ips.satp)
      case OtherAction => Nowhere
  }

  /** A call of enqueue_cop_bulk. */
  datatype Batch = Batch(qp: nat, pkts: seq<Packet>)

  /** Everything ipsec_process hands on: batches for the crypto queues in order, the outputs, and what it freed. */
  datatype Traffic = Traffic(batches: seq<Batch>, ip4: seq<Packet>, ip6: seq<Packet>, freed: seq<Packet>)

  function InBatches(bs: seq<Batch>, w: Way, x: nat): nat
  {
    if bs == [] then 0
    else InBatches(bs[..|bs| - 1], w, x) + (if ToQueue(bs[|bs| - 1].qp) == w then Cnt(bs[|bs| - 1].pkts, x) else 0)
  }

  function InAllBatches(bs: seq<Batch>, x: nat): nat
  {
    if bs == [] then 0 else InAllBatches(bs[..|bs| - 1], x) + Cnt(bs[|bs| - 1].pkts, x)
  }

  function BatchLen(bs: seq<Batch>): nat
  {
    if bs == [] then 0 else BatchLen(bs[..|bs| - 1]) + |bs[|bs| - 1].pkts|
  }

  /** Copies of mbuf x handed on along way w. */
  function HandedOn(t: Traffic, w: Way, x: nat): nat
  {
    match w
    case ToQueue(_) => InBatches(t.batches, w, x)
    case ToIp4 => Cnt(t.ip4, x)
    case ToIp6 => Cnt(t.ip6, x)
    case Nowhere => Cnt(t.freed, x)
  }

  /** Copies of mbuf x anywhere. */
  function Everywhere(t: Traffic, x: nat): nat
  {
    InAllBatches(t.batches, x) + Cnt(t.ip4, x) + Cnt(t.ip6, x) + Cnt(t.freed, x)
  }

  function Size(t: Traffic): nat
  {
    BatchLen(t.batches) + |t.ip4| + |t.ip6| + |t.freed|
  }

  /** Hand a list on. */
  function Put(t: Traffic, w: Way, ps: seq<Packet>): Traffic
  {
    match w
    case ToQueue(q) => if ps == [] then t else t.(batches := t.batches + [Batch(q, ps)])
    case ToIp4 => t.(ip4 := t.ip4 + ps)
    case ToIp6 => t.(ip6 := t.ip6 + ps)
    case Nowhere => t.(freed := t.freed + ps)
  }

  lemma {:induction false} PutCounts(t: Traffic, w: Way, ps: seq<Packet>, w': Way, x: nat)
    ensures HandedOn(Put(t, w, ps), w', x) == HandedOn(t, w', x) + (if w == w' then Cnt(ps, x) else 0)
    ensures Everywhere(Put(t, w, ps), x) == Everywhere(t, x) + Cnt(ps, x) && Size(Put(t, w, ps)) == Size(t) + |ps|
  {
    match w
    case ToQueue(q) =>
      var bs := t.batches + [Batch(q, ps)];
      assert bs[..|bs| - 1] == t.batches;
    case ToIp4 => CntConcat(t.ip4, ps, x);
    case ToIp6 => CntConcat(t.ip6, ps, x);
    case Nowhere => CntConcat(t.freed, ps, x);
  }

  /**
   * Where an entry's SA leads: through its session, the fallback one if the entry is marked so. A look-aside session
   * leads to the SA's queue pair; the others to the output of the header that is in front afterwards, which is the
   * inner one when decapsulated or in transport mode, else the tunnel's.
   */
  predicate LeadsTo(table: map<nat, SaEntry>, p: SaPtr, w: Way)
  {
    if p.sa == 0 || p.sa !in table then w == Nowhere
    else
      var session := if p.fallback then table[p.sa].fallback else table[p.sa].primary;
      if session.action == LookasideNone || session.action == LookasideProtocol then w == ToQueue(table[p.sa].qp)
      else if session.action == OtherAction then w == Nowhere
      else
        var front4 := if session.satp.inbound then session.satp.v4
                      else match session.satp.mode
                           case Transport => session.satp.v4
                           case Tunnel4 => true
                           case Tunnel6 => false;
        w == if front4 then ToIp4 else ToIp6
  }

  lemma WayLeads(table: map<nat, SaEntry>, p: SaPtr, w: Way)
    ensures WayOf(table, p) == w <==> LeadsTo(table, p, w)
  {
  }

  /**
   * What can go wrong: whether there is a session for the group that starts at a place of the burst, and whether the
   * library processes the packet at a place.
   */
  datatype Luck = Luck(session: nat -> bool, library: nat -> bool)

  /** Where the run that a place of the burst belongs to starts. */
  function RunStart(sas: seq<SaPtr>, i: nat): nat
    requires i < |sas|
  {
    if i == 0 || sas[i - 1] != sas[i] then i else RunStart(sas, i - 1)
  }

  /** The packet at a place goes along way w: where its own SA leads if all goes well, else it is freed. */
  predicate GoesTo(table: map<nat, SaEntry>, sas: seq<SaPtr>, k: Luck, i: nat, w: Way)
    requires i < |sas|
  {
    if k.session(RunStart(sas, i)) && k.library(i) then LeadsTo(table, sas[i], w) else w == Nowhere
  }

  /** Copies of mbuf x among the first e packets of a burst that go along way w. */
  function Bound(table: map<nat, SaEntry>, pkts: seq<Packet>, sas: seq<SaPtr>, k: Luck, e: nat, w: Way, x: nat): nat
    requires e <= |pkts| == |sas|
  {
    if e == 0 then 0
    else Bound(table, pkts, sas, k, e - 1, w, x)
         + (if pkts[e - 1].id == x && GoesTo(table, sas, k, e - 1, w) then 1 else 0)
  }

  /** Copies of mbuf x among the first n packets from m on that the library does, or does not, process. */
  function LibraryCnt(pkts: seq<Packet>, m: nat, n: nat, k: Luck, good: bool, x: nat): nat
    requires m + n <= |pkts|
  {
    if n == 0 then 0
    else LibraryCnt(pkts, m, n - 1, k, good, x)
         + (if pkts[m + n - 1].id == x && k.library(m + n - 1) == good then 1 else 0)
  }

  /** The library keeps the packets of a group that it processes, in order, and moves the others behind them. */
  method Library(pkts: seq<Packet>, m: nat, n: nat, k: Luck, ghost x: nat) returns (good: seq<Packet>, bad: seq<Packet>)
    requires m + n <= |pkts|
    ensures |good| + |bad| == n
    ensures Cnt(good, x) == LibraryCnt(pkts, m, n, k, true, x) && Cnt(bad, x) == LibraryCnt(pkts, m, n, k, false, x)
  {
    good, bad := [], [];
    for i := 0 to n
      invariant |good| + |bad| == i
      invariant Cnt(good, x) == LibraryCnt(pkts, m, i, k, true, x) && Cnt(bad, x) == LibraryCnt(pkts, m, i, k, false, x)
    {
      var p := pkts[m + i];
      CntConcat(good, [p], x);
      CntConcat(bad, [p], x);
      if k.library(m + i) {
        good := good + [p];
      } else {
        bad := bad + [p];
      }
    }
  }

  lemma {:induction false} LibraryAll(pkts: seq<Packet>, m: nat, n: nat, k: Luck, x: nat)
    requires m + n <= |pkts|
    ensures LibraryCnt(pkts, m, n, k, true, x) + LibraryCnt(pkts, m, n, k, false, x) == Cnt(pkts[m..m + n], x)
  {
    if n > 0 {
      LibraryAll(pkts, m, n - 1, k, x);
      assert pkts[m..m + n] == pkts[m..m + n - 1] + [pkts[m + n - 1]];
      CntConcat(pkts[m..m + n - 1], [pkts[m + n - 1]], x);
    }
  }

  /** Copies of mbuf x of one group that go along way w. */
  function GroupCnt(table: map<nat, SaEntry>, pkts: seq<Packet>, g: Group, k: Luck, w: Way, x: nat): nat
    requires g.m + g.cnt <= |pkts|
  {
    if !k.session(g.m) then (if w == Nowhere then Cnt(pkts[g.m..g.m + g.cnt], x) else 0)
    else
      (if LeadsTo(table, g.id, w) then LibraryCnt(pkts, g.m, g.cnt, k, true, x) else 0)
      + (if w == Nowhere then LibraryCnt(pkts, g.m, g.cnt, k, false, x) else 0)
  }

  /** One group: without a session it is freed, else the library's good packets go where the SA sends them. */
  method ProcessGroup(table: map<nat, SaEntry>, t: Traffic, pkts: seq<Packet>, g: Group, k: Luck, ghost w: Way,
                      ghost x: nat)
    returns (r: Traffic)
    requires g.m + g.cnt <= |pkts|
    ensures Everywhere(r, x) == Everywhere(t, x) + Cnt(pkts[g.m..g.m + g.cnt], x) && Size(r) == Size(t) + g.cnt
    ensures HandedOn(r, w, x) == HandedOn(t, w, x) + GroupCnt(table, pkts, g, k, w, x)
  {
    var way, ps := WayOf(table, g.id), pkts[g.m..g.m + g.cnt];
    WayLeads(table, g.id, w);
    LibraryAll(pkts, g.m, g.cnt, k, x);
    if way == Nowhere || !k.session(g.m) {
      r := Put(t, Nowhere, ps);
      PutCounts(t, Nowhere, ps, w, x);
    } else {
      var good, bad := Library(pkts, g.m, g.cnt, k, x);
      var mid := Put(t, way, good);
      r := Put(mid, Nowhere, bad);
      PutCounts(t, way, good, w, x);
      PutCounts(mid, Nowhere, bad, w, x);
    }
  }

  const ARRAY_SIZE := 64

  /**
   * ipsec_process: every packet of the burst ends in exactly one of a crypto batch, an output, or the freed ones; along
   * a way w go just those whose own SA leads there, for which there is a session, and which the library processes.
   */
  method Process(table: map<nat, SaEntry>, t: Traffic, pkts: seq<Packet>, sas: seq<SaPtr>, k: Luck, ghost w: Way,
                 ghost x: nat)
    returns (r: Traffic)
    requires |pkts| == |sas| <= ARRAY_SIZE
    ensures Everywhere(r, x) == Everywhere(t, x) + Cnt(pkts, x) && Size(r) == Size(t) + |pkts|
    ensures HandedOn(r, w, x) == HandedOn(t, w, x) + Bound(table, pkts, sas, k, |pkts|, w, x)
  {
    var grp := new Group[ARRAY_SIZE](i => Group(0, 0, SaPtr(0, false)));
    var n := SaGroup(sas, grp);
    var gs := grp[..n];
    r := t;
    assert pkts[..0] == [];
    for i := 0 to n
      invariant PrefixEnd(gs, i) <= |sas| && Placed(table, t, r, pkts, sas, k, PrefixEnd(gs, i), w, x)
    {
      GroupAt(sas, gs, |sas|, i);
      r := ProcessNext(table, t, r, pkts, sas, gs[i], k, w, x);
    }
    GroupsEnd(sas, gs, |sas|);
    assert pkts[..|pkts|] == pkts;
  }

  /** The first e packets have been handed on. */
  predicate Placed(table: map<nat, SaEntry>, t: Traffic, r: Traffic, pkts: seq<Packet>, sas: seq<SaPtr>, k: Luck,
                   e: nat, w: Way, x: nat)
    requires |pkts| == |sas| && e <= |sas|
  {
    && Everywhere(r, x) == Everywhere(t, x) + Cnt(pkts[..e], x) && Size(r) == Size(t) + e
    && HandedOn(r, w, x) == HandedOn(t, w, x) + Bound(table, pkts, sas, k, e, w, x)
  }

  method ProcessNext(table: map<nat, SaEntry>, ghost t: Traffic, s: Traffic, pkts: seq<Packet>, sas: seq<SaPtr>,
                     g: Group, k: Luck, ghost w: Way, ghost x: nat) returns (r: Traffic)
    requires |pkts| == |sas| && WholeRun(sas, g)
    requires Placed(table, t, s, pkts, sas, k, g.m, w, x)
    ensures Placed(table, t, r, pkts, sas, k, g.m + g.cnt, w, x)
  {
    GroupStep(table, pkts, sas, g, g.cnt, k, w, x);
    assert pkts[..g.m + g.cnt] == pkts[..g.m] + pkts[g.m..g.m + g.cnt];
    CntConcat(pkts[..g.m], pkts[g.m..g.m + g.cnt], x);
    r := ProcessGroup(table, s, pkts, g, k, w, x);
  }

  /** A group is a run that starts where it says. */
  predicate WholeRun(sas: seq<SaPtr>, g: Group)
  {
    g.m + g.cnt <= |sas| && Run(sas, g, g.m + g.cnt) && (0 < g.m < |sas| ==> sas[g.m - 1] != g.id)
  }

  /** Where the first i groups end. */
  function PrefixEnd(gs: seq<Group>, i: nat): nat
    requires i <= |gs|
  {
    if i == 0 then 0 else gs[i - 1].m + gs[i - 1].cnt
  }

  lemma GroupsEnd(sas: seq<SaPtr>, gs: seq<Group>, e: nat)
    requires e <= |sas| && Grouped(sas, gs, e)
    ensures PrefixEnd(gs, |gs|) == e
  {
  }

  lemma {:induction false} GroupAt(sas: seq<SaPtr>, gs: seq<Group>, e: nat, i: nat)
    requires e <= |sas| && Grouped(sas, gs, e) && i < |gs|
    ensures gs[i].m == PrefixEnd(gs, i) && gs[i].m + gs[i].cnt <= e && WholeRun(sas, gs[i])
    decreases |gs|
  {
    var rest, g := gs[..|gs| - 1], gs[|gs| - 1];
    GroupsEnd(sas, rest, g.m);
    if i < |rest| {
      GroupAt(sas, rest, g.m, i);
    } else if rest != [] {
      assert sas[g.m - 1] == rest[|rest| - 1].id;
    }
  }

  lemma {:induction false} StartOfRun(sas: seq<SaPtr>, g: Group, i: nat)
    requires WholeRun(sas, g) && g.m <= i < g.m + g.cnt
    ensures RunStart(sas, i) == g.m
    decreases i
  {
    if i > g.m {
      StartOfRun(sas, g, i - 1);
    }
  }

  /** What the first n packets of a group add to what goes along way w. */
  lemma {:induction false} GroupStep(table: map<nat, SaEntry>, pkts: seq<Packet>, sas: seq<SaPtr>, g: Group, n: nat,
                                     k: Luck, w: Way, x: nat)
    requires |pkts| == |sas| && WholeRun(sas, g) && n <= g.cnt
    ensures Bound(table, pkts, sas, k, g.m + n, w, x)
            == Bound(table, pkts, sas, k, g.m, w, x) + GroupCnt(table, pkts, g.(cnt := n), k, w, x)
  {
    if n > 0 {
      var i := g.m + n - 1;
      GroupStep(table, pkts, sas, g, n - 1, k, w, x);
      StartOfRun(sas, g, i);
      assert sas[i] == g.id;
      GroupMore(table, pkts, g.(cnt := n), k, w, x);
    }
  }

  /** What the last packet of a group adds. */
  lemma {:induction false} GroupMore(table: map<nat, SaEntry>, pkts: seq<Packet>, g: Group, k: Luck, w: Way, x: nat)
    requires g.m + g.cnt <= |pkts| && g.cnt > 0
    ensures var i := g.m + g.cnt - 1;
            var goes := if k.session(g.m) && k.library(i) then LeadsTo(table, g.id, w) else w == Nowhere;
            GroupCnt(table, pkts, g, k, w, x)
            == GroupCnt(table, pkts, g.(cnt := g.cnt - 1), k, w, x) + (if pkts[i].id == x && goes then 1 else 0)
  {
    var i := g.m + g.cnt - 1;
    assert pkts[g.m..i + 1] == pkts[g.m..i] + [pkts[i]];
    CntConcat(pkts[g.m..i], [pkts[i]], x);
  }

  /** Finished operations waiting per queue pair, the queue pair reached, and the room left. */
  datatype Poll = Poll(left: seq<nat>, i: nat, room: nat)

  /**
   * Poll queue pairs i, i + 1, ... below `end` while there is room. A device gives all it has ready and there
   * is room for.
   */
  function Swept(left: seq<nat>, i: nat, end: nat, room: nat): (r: Poll)
    requires i <= end <= |left|
    ensures |r.left| == |left| && i <= r.i <= end && r.room <= room && (r.room == 0 || r.i == end)
    decreases end - i
  {
    if room == 0 || i == end then Poll(left, i, room)
    else
      var k := Min(left[i], room);
      Swept(left[i := left[i] - k], i + 1, end, room - k)
  }

  method Sweep(ready: seq<nat>, from: nat, end: nat, num: nat) returns (p: Poll)
    requires from <= end <= |ready|
    ensures p == Swept(ready, from, end, num)
  {
    p := Poll(ready, from, num);
    while p.room != 0 && p.i != end
      invariant |p.left| == |ready| && from <= p.i <= end
                && Swept(p.left, p.i, end, p.room) == Swept(ready, from, end, num)
      decreases end - p.i
    {
      var k := Min(p.left[p.i], p.room);
      p := Poll(p.left[p.i := p.left[p.i] - k], p.i + 1, p.room - k);
    }
  }

  /** Operations ready on queue pairs i up to q. */
  function Span(ready: seq<nat>, i: nat, q: nat): nat
    requires i <= q <= |ready|
    decreases q - i
  {
    if i == q then 0 else ready[i] + Span(ready, i + 1, q)
  }

  lemma {:induction false} SpanFrame(a: seq<nat>, b: seq<nat>, i: nat, q: nat)
    requires i <= q <= |a| == |b| && forall j :: i <= j < q ==> a[j] == b[j]
    ensures Span(a, i, q) == Span(b, i, q)
    decreases q - i
  {
    if i < q {
      SpanFrame(a, b, i + 1, q);
    }
  }

  /** What queue pair q delivers when polled after queue pairs i up to q, with `room` places at the start. */
  function Share(ready: seq<nat>, i: nat, q: nat, room: nat): nat
    requires i <= q < |ready|
  {
    if Span(ready, i, q) >= room then 0 else Min(ready[q], room - Span(ready, i, q))
  }

  /** A sweep takes from each queue pair on its way exactly the share the ones before leave it. */
  lemma {:induction false} SweptAt(left: seq<nat>, i: nat, end: nat, room: nat, q: nat)
    requires i <= end <= |left| && q < |left|
    ensures Swept(left, i, end, room).left[q] == left[q] - (if i <= q < end then Share(left, i, q, room) else 0)
    decreases end - i
  {
    if room > 0 && i < end {
      var k := Min(left[i], room);
      var next := left[i := left[i] - k];
      SweptAt(next, i + 1, end, room - k, q);
      if i < q < end {
        SpanFrame(left, next, i + 1, q);
      }
    }
  }

  /** A sweep that ends with room left has emptied every queue pair on its way. */
  lemma {:induction false} SweptDry(left: seq<nat>, i: nat, end: nat, room: nat, q: nat)
    requires i <= end <= |left| && q < |left| && Swept(left, i, end, room).room > 0
    ensures i <= q < end ==> Swept(left, i, end, room).left[q] == 0
    decreases end - i
  {
    if i < end {
      var k := Min(left[i], room);
      SweptDry(left[i := left[i] - k], i + 1, end, room - k, q);
      SweptAt(left[i := left[i] - k], i + 1, end, room - k, i);
    }
  }

  /** A sweep fills what room it finds ready operations for. */
  lemma {:induction false} SweptRoom(left: seq<nat>, i: nat, end: nat, room: nat)
    requires i <= end <= |left|
    ensures Swept(left, i, end, room).room == room - Min(room, Span(left, i, end))
    decreases end - i
  {
    if room > 0 && i < end {
      var k := Min(left[i], room);
      SweptRoom(left[i := left[i] - k], i + 1, end, room - k);
      SpanFrame(left, left[i := left[i] - k], i + 1, end);
    }
  }

  lemma {:induction false} SpanSplit(ready: seq<nat>, i: nat, mid: nat, end: nat)
    requires i <= mid <= end <= |ready|
    ensures Span(ready, i, end) == Span(ready, i, mid) + Span(ready, mid, end)
    decreases mid - i
  {
    if i < mid {
      SpanSplit(ready, i + 1, mid, end);
    }
  }

  /**
   * ctx_dequeue: from last_qp to the end, then from 0 up to last_qp. Each queue pair gives its share of the room it
   * finds; n is all there is, or all that is wanted.
   */
  method CtxDequeue(ready: seq<nat>, last: nat, num: nat) returns (left: seq<nat>, last': nat, n: nat)
    requires last <= |ready|
    ensures |left| == |ready| && last' <= last && n == Min(num, Span(ready, 0, |ready|))
    ensures forall q :: last <= q < |ready| ==> ready[q] == left[q] + Share(ready, last, q, num)
    ensures var rest := num - Min(num, Span(ready, last, |ready|));
            && (forall q :: 0 <= q < last ==> ready[q] == left[q] + Share(ready, 0, q, rest))
            && (rest == 0 ==> last' == 0)
    ensures n < num ==> last' == last && forall q :: 0 <= q < |ready| ==> left[q] == 0
  {
    var p := Sweep(ready, last, |ready|, num);
    var r := Sweep(p.left, 0, last, p.room);
    left, last', n := r.left, r.i, num - r.room;
    BothSweeps(ready, last, num, p, r);
  }

  lemma BothSweeps(ready: seq<nat>, last: nat, num: nat, p: Poll, r: Poll)
    requires last <= |ready| && p == Swept(ready, last, |ready|, num) && r == Swept(p.left, 0, last, p.room)
    ensures num - r.room == Min(num, Span(ready, 0, |ready|)) && p.room == num - Min(num, Span(ready, last, |ready|))
    ensures forall q :: last <= q < |ready| ==> ready[q] == r.left[q] + Share(ready, last, q, num)
    ensures forall q :: 0 <= q < last ==> ready[q] == r.left[q] + Share(ready, 0, q, p.room)
    ensures r.room > 0 ==> r.i == last && forall q :: 0 <= q < |ready| ==> r.left[q] == 0
    ensures p.room == 0 ==> r.i == 0
  {
    SweptRoom(ready, last, |ready|, num);
    SweptRoom(p.left, 0, last, p.room);
    SpanSplit(ready, 0, last, |ready|);
    forall q | 0 <= q < last ensures p.left[q] == ready[q] {
      SweptAt(ready, last, |ready|, num, q);
    }
    SpanFrame(p.left, ready, 0, last);
    forall q | 0 <= q < |ready|
      ensures last <= q ==> ready[q] == r.left[q] + Share(ready, last, q, num)
      ensures q < last ==> ready[q] == r.left[q] + Share(ready, 0, q, p.room)
      ensures r.room > 0 ==> r.left[q] == 0
    {
      SweptAt(ready, last, |ready|, num, q);
      SweptAt(p.left, 0, last, p.room, q);
      if q < last {
        SpanFrame(p.left, ready, 0, q);
      }
      if r.room > 0 {
        SweptDry(ready, last, |ready|, num, q);
        SweptDry(p.left, 0, last, p.room, q);
      }
    }
  }

  /** Whether a call that starts from queue pair 0 takes anything from queue pair q. */
  predicate Served(ready: seq<nat>, left: seq<nat>, q: nat)
    requires q < |ready| == |left|
  {
    left[q] < ready[q]
  }

  /**
   * last_qp starts at 0 and never grows, so over a whole run every call starts from queue pair 0: a queue pair is
   * served in a call exactly when those below it cannot fill the call, however long it has waited.
   */
  method CtxRun(readies: seq<seq<nat>>, num: nat) returns (lefts: seq<seq<nat>>)
    ensures |lefts| == |readies| && forall c :: 0 <= c < |readies| ==> |lefts[c]| == |readies[c]|
    ensures forall c, q :: 0 <= c < |readies| && 0 <= q < |readies[c]| ==>
      (Served(readies[c], lefts[c], q) <==> readies[c][q] > 0 && Span(readies[c], 0, q) < num)
  {
    lefts := [];
    var last := 0;
    for i := 0 to |readies|
      invariant last == 0 && |lefts| == i && forall c :: 0 <= c < i ==> |lefts[c]| == |readies[c]|
      invariant forall c, q :: 0 <= c < i && 0 <= q < |readies[c]| ==>
        (Served(readies[c], lefts[c], q) <==> readies[c][q] > 0 && Span(readies[c], 0, q) < num)
    {
      var left, n;
      left, last, n := CtxDequeue(readies[i], last, num);
      lefts := lefts + [left];
    }
  }

  lemma SpanGrows(ready: seq<nat>, i: nat, q: nat)
    requires i < q <= |ready|
    ensures ready[i] <= Span(ready, i, q)
  {
  }

  /** With enough ready on queue pair 0 every time, no other queue pair is ever served. */
  lemma Starved(ready: seq<nat>, num: nat, q: nat)
    requires 0 < q < |ready| && ready[0] >= num
    ensures Swept(ready, 0, |ready|, num).left[q] == ready[q]
  {
    SweptAt(ready, 0, |ready|, num, q);
    SpanGrows(ready, 0, q);
  }
}
