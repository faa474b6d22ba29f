/** The inbound SA database and the direct-mapped cache each lcore keeps in front of it (sad.h, sad.c). */
module Sad {
  import opened Common

  datatype Kind = Transport | Ip4Tunnel | Ip6Tunnel

  /** What the database needs of an SA; addresses are numbers. */
  datatype Sa = Sa(spi: nat, kind: Kind, src: nat, dst: nat)

  /**
   * A packet as the lookup reads it: its family, whether it is ESP in UDP, its addresses, and the four bytes found as
   * SPI right behind the IP header and behind a UDP header.
   */
  datatype Pkt = Pkt(v4: bool, encap: bool, src: nat, dst: nat, spiPlain: nat, spiUdp: nat)

  type Table = map<nat, Sa>

  /** The two tables of the database, SPI to SA. A family without SAs has no table. */
  datatype Tables = Tables(v4: Option<Table>, v6: Option<Table>)

  function For(t: Tables, v4: bool): Option<Table>
  {
    if v4 then t.v4 else t.v6
  }

  predicate TableOk(t: Table)
  {
    forall spi :: spi in t ==> t[spi].spi == spi
  }

  predicate TablesOk(t: Tables)
  {
    TableOk(t.v4.UnwrapOr(map[])) && TableOk(t.v6.UnwrapOr(map[]))
  }

  /** cmp_sa_key. */
  predicate Match(sa: Sa, p: Pkt)
  {
    || sa.kind == Transport
    || (p.v4 && sa.kind == Ip4Tunnel && sa.src == p.src && sa.dst == p.dst)
    || (!p.v4 && sa.kind == Ip6Tunnel && sa.src == p.src && sa.dst == p.dst)
  }

  /** The SA a table has for an SPI, if the packet's addresses fit it. */
  function In(t: Table, p: Pkt, spi: nat): Option<Sa>
  {
    if spi in t && Match(t[spi], p) then Some(t[spi]) else None
  }

  /**
   * What a lookup without a cache gives. Without a table the library leaves the result slot as it is; `junk` is what
   * the slot, an array on the stack, holds by chance.
   */
  function Lookup(t: Tables, p: Pkt, spi: nat, junk: Option<Sa>): Option<Sa>
  {
    match For(t, p.v4)
    case Some(table) => In(table, p, spi)
    case None => if junk.Some? && Match(junk.value, p) then junk else None
  }

  /** Bitwise and. */
  function And(a: nat, b: nat): nat
    decreases a
  {
    if a == 0 || b == 0 then 0 else (if a % 2 == 1 && b % 2 == 1 then 1 else 0) + 2 * And(a / 2, b / 2)
  }

  lemma {:induction false} AndAtMost(a: nat, b: nat)
    ensures And(a, b) <= b
    decreases a
  {
    if a != 0 && b != 0 {
      AndAtMost(a / 2, b / 2);
    }
  }

  /** Cached SAs are the table's own, where there is one. */
  predicate Reflects(slots: seq<Option<Sa>>, t: Option<Table>)
  {
    t.Some? ==> forall i :: 0 <= i < |slots| && slots[i].Some? ==> Holds(t.value, slots[i].value)
  }

  predicate Holds(t: Table, sa: Sa)
  {
    sa.spi in t && t[sa.spi] == sa
  }

  /** SPI2IDX stays within the slots. */
  lemma SlotInBounds(spi: nat, mask: nat)
    ensures And(spi, mask) < mask + 1
  {
    AndAtMost(spi, mask);
  }

  /** rte_align32pow2: the next power of two; 0, and anything above 2^31, give 0. */
  function Align32Pow2(n: nat): (r: nat)
    ensures r == 0 <==> n == 0 || n > 0x8000_0000
    ensures r != 0 ==> n <= r < 2 * n && PowerOfTwo(r)
  {
    if n == 0 || n > 0x8000_0000 then 0 else DoubleUpTo(n, 1)
  }

  function DoubleUpTo(n: nat, p: nat): (r: nat)
    requires 0 < p < 2 * n && PowerOfTwo(p)
    ensures n <= r < 2 * n && PowerOfTwo(r)
    decreases n - p
  {
    if p >= n then p else DoubleUpTo(n, 2 * p)
  }

  predicate PowerOfTwo(p: nat)
  {
    p == 1 || (p > 1 && p % 2 == 0 && PowerOfTwo(p / 2))
  }

  /** The per-lcore cache. A mask of 0 means that it is not in use. */
  class Cache {
    var v4: array<Option<Sa>>
    var v6: array<Option<Sa>>
    var mask: nat

    ghost function View(): Slots
      reads this, v4, v6
    {
      Slots(v4[..], v6[..], mask)
    }

    ghost predicate Shaped()
      reads this
    {
      v4 != v6 && (mask != 0 ==> v4.Length == v6.Length == mask + 1)
    }

    ghost predicate Valid(t: Tables)
      reads this, v4, v6
    {
      Shaped() && Agrees(View(), t)
    }

    /** ipsec_sad_lcore_cache_init; an allocation may fail. One element gives mask 0, so no cache. */
    constructor (entries: nat, fails: bool)
      ensures forall t: Tables :: Valid(t)
      ensures mask == (if fails || Align32Pow2(entries) == 0 then 0 else Align32Pow2(entries) - 1)
      ensures fresh(v4) && fresh(v6) && v4 != v6
    {
      var elems := Align32Pow2(entries);
      var n := if fails then 0 else elems;
      v4 := new Option<Sa>[n](_ => None);
      v6 := new Option<Sa>[n](_ => None);
      mask := if n != 0 then elems - 1 else 0;
    }
  }

  /** Whether the header length of UDP has been added by packet i: once it is, it stays for the rest of the burst. */
  predicate SeenUdp(pkts: seq<Pkt>, i: nat)
    requires i <= |pkts|
  {
    i > 0 && (pkts[i - 1].encap || SeenUdp(pkts, i - 1))
  }

  /** The SPI the lookup reads for packet i. */
  function ReadSpi(pkts: seq<Pkt>, i: nat): nat
    requires i < |pkts|
  {
    if SeenUdp(pkts, i + 1) then pkts[i].spiUdp else pkts[i].spiPlain
  }

  /** The SPI packet p carries. */
  function OwnSpi(p: Pkt): nat
  {
    if p.encap then p.spiUdp else p.spiPlain
  }

  /** What is in the cache slot of an SPI. */
  function Slot(slots: seq<Option<Sa>>, mask: nat, spi: nat): Option<Sa>
  {
    if mask != 0 && And(spi, mask) < |slots| then slots[And(spi, mask)] else None
  }

  predicate Hit(slots: seq<Option<Sa>>, mask: nat, p: Pkt, spi: nat)
  {
    var sa := Slot(slots, mask, spi);
    sa.Some? && sa.value.spi == spi && Match(sa.value, p)
  }

  /** The contents of a cache. */
  datatype Slots = Slots(v4: seq<Option<Sa>>, v6: seq<Option<Sa>>, mask: nat)
  {
    function Of(family4: bool): seq<Option<Sa>>
    {
      if family4 then v4 else v6
    }
  }

  /** The answer for packet i of a burst, given the cache's contents before it. */
  function Answer(t: Tables, c: Slots, pkts: seq<Pkt>, junk: seq<Option<Sa>>, i: nat): Option<Sa>
    requires i < |pkts| == |junk|
  {
    var p, spi := pkts[i], ReadSpi(pkts, i);
    if Hit(c.Of(p.v4), c.mask, p, spi) then Slot(c.Of(p.v4), c.mask, spi) else Lookup(t, p, spi, junk[i])
  }

  function Answers(t: Tables, c: Slots, pkts: seq<Pkt>, junk: seq<Option<Sa>>): (r: seq<Option<Sa>>)
    requires |pkts| == |junk|
    ensures |r| == |pkts|
  {
    seq(|pkts|, i requires 0 <= i < |pkts| => Answer(t, c, pkts, junk, i))
  }

  /** A cache that agrees with the tables there are. */
  predicate Agrees(c: Slots, t: Tables)
  {
    c.mask != 0 ==> Reflects(c.v4, t.v4) && Reflects(c.v6, t.v6)
  }

  /** Then the cache never shows: the answer to a packet whose family has a table is that table's. */
  lemma CacheIsTransparent(t: Tables, c: Slots, pkts: seq<Pkt>, junk: seq<Option<Sa>>, i: nat)
    requires i < |pkts| == |junk| && Agrees(c, t) && For(t, pkts[i].v4).Some?
    ensures Answer(t, c, pkts, junk, i) == In(For(t, pkts[i].v4).value, pkts[i], ReadSpi(pkts, i))
  {
    var p, spi := pkts[i], ReadSpi(pkts, i);
    var table := For(t, p.v4).value;
    if Hit(c.Of(p.v4), c.mask, p, spi) {
      assert Holds(table, c.Of(p.v4)[And(spi, c.mask)].value);
    }
  }

  /** A packet is answered by the cache, or its family has a table. */
  predicate Covered(t: Tables, c: Slots, pkts: seq<Pkt>, i: nat)
    requires i < |pkts|
  {
    Hit(c.Of(pkts[i].v4), c.mask, pkts[i], ReadSpi(pkts, i)) || For(t, pkts[i].v4).Some?
  }

  /**
   * The answers to a burst do not depend on what the stack holds exactly when every packet that misses the cache is of
   * a family that has a table.
   */
  lemma DeterminedIff(t: Tables, c: Slots, pkts: seq<Pkt>)
    ensures (forall j, k :: |j| == |k| == |pkts| ==> Answers(t, c, pkts, j) == Answers(t, c, pkts, k))
       <==> (forall i :: 0 <= i < |pkts| ==> Covered(t, c, pkts, i))
  {
    if i :| 0 <= i < |pkts| && !Covered(t, c, pkts, i) {
      var some: seq<Option<Sa>> := seq(|pkts|, n => Some(Sa(0, Transport, 0, 0)));
      var none: seq<Option<Sa>> := seq(|pkts|, n => None);
      assert Answers(t, c, pkts, some)[i] == some[i] != none[i] == Answers(t, c, pkts, none)[i];
    } else {
      forall j, k | |j| == |k| == |pkts| ensures Answers(t, c, pkts, j) == Answers(t, c, pkts, k) {
        assert forall i :: 0 <= i < |pkts| ==> Covered(t, c, pkts, i) ==>
               Answer(t, c, pkts, j, i) == Answer(t, c, pkts, k, i);
      }
    }
  }

  /** An IPv6 ESP packet at a gateway with IPv4 SAs only: it is accepted or not by what the stack happens to hold. */
  lemma NoTableForFamily()
    ensures var t := Tables(Some(map[7 := Sa(7, Ip4Tunnel, 1, 2)]), None);
            var c, pkts := Slots([None, None], [None, None], 1), [Pkt(false, false, 3, 4, 7, 0)];
            var stale := Some(Sa(9, Transport, 0, 0));
            TablesOk(t) && Agrees(c, t) && Answers(t, c, pkts, [None]) == [None]
                && Answers(t, c, pkts, [stale]) == [stale]
  {
  }

  /** Packets left for the database, in order, with the SPI to look up. */
  datatype Miss = Miss(at: nat, spi: nat)

  /** The misses of one family among the first n packets, in burst order. */
  predicate MissesOk(ms: seq<Miss>, c: Slots, pkts: seq<Pkt>, v4: bool, n: nat)
    requires n <= |pkts|
  {
    && (forall k :: 0 <= k < |ms| ==> ms[k].at < n && IsMiss(ms[k], c, pkts, v4))
    && (forall j, k :: 0 <= j < k < |ms| ==> ms[j].at < ms[k].at)
  }

  predicate IsMiss(m: Miss, c: Slots, pkts: seq<Pkt>, v4: bool)
    requires m.at < |pkts|
  {
    pkts[m.at].v4 == v4 && m.spi == ReadSpi(pkts, m.at) && !Hit(c.Of(v4), c.mask, pkts[m.at], m.spi)
  }

  predicate Waiting(ms: seq<Miss>, i: nat)
  {
    exists k :: 0 <= k < |ms| && ms[k].at == i
  }

  /** The cache entry for an SPI, if the cache is in use. */
  method Cached(c: Cache, v4: bool, spi: nat) returns (r: Option<Sa>)
    requires c.Shaped()
    ensures r == Slot(c.View().Of(v4), c.mask, spi)
  {
    r := None;
    if c.mask != 0 {
      SlotInBounds(spi, c.mask);
      r := if v4 then c.v4[And(spi, c.mask)] else c.v6[And(spi, c.mask)];
    }
  }

  /** First pass of sad_lookup: answer from the cache, or note the packet for its family's table. */
  method FirstPass(c: Cache, pkts: seq<Pkt>, sa: array<Option<Sa>>, ghost t: Tables, ghost junk: seq<Option<Sa>>)
    returns (m4: seq<Miss>, m6: seq<Miss>)
    requires c.Shaped() && sa.Length == |pkts| == |junk| && sa != c.v4 && sa != c.v6
    modifies sa
    ensures MissesOk(m4, c.View(), pkts, true, |pkts|) && MissesOk(m6, c.View(), pkts, false, |pkts|)
    ensures forall i :: 0 <= i < |pkts| ==>
      sa[i] == if Waiting(m4, i) || Waiting(m6, i) then old(sa[i]) else Answer(t, c.View(), pkts, junk, i)
  {
    m4, m6 := [], [];
    var udp := false;
    ghost var view := c.View();
    for i := 0 to |pkts|
      invariant c.View() == view && udp == SeenUdp(pkts, i)
      invariant MissesOk(m4, view, pkts, true, i) && MissesOk(m6, view, pkts, false, i)
      invariant forall j :: 0 <= j < i ==>
        sa[j] == if Waiting(m4, j) || Waiting(m6, j) then old(sa[j]) else Answer(t, view, pkts, junk, j)
      invariant forall j :: i <= j < |pkts| ==> sa[j] == old(sa[j])
    {
      var p := pkts[i];
      udp := udp || p.encap;
      var spi := if udp then p.spiUdp else p.spiPlain;
      var hit := Cached(c, p.v4, spi);
      if hit.Some? && hit.value.spi == spi && Match(hit.value, p) {
        sa[i] := hit;
      } else if p.v4 {
        MissesSnoc(m4, spi, view, pkts, true, i);
        m4 := m4 + [Miss(i, spi)];
      } else {
        MissesSnoc(m6, spi, view, pkts, false, i);
        m6 := m6 + [Miss(i, spi)];
      }
    }
  }

  lemma MissesSnoc(ms: seq<Miss>, spi: nat, c: Slots, pkts: seq<Pkt>, v4: bool, n: nat)
    requires n < |pkts| && MissesOk(ms, c, pkts, v4, n) && IsMiss(Miss(n, spi), c, pkts, v4)
    ensures MissesOk(ms + [Miss(n, spi)], c, pkts, v4, n + 1)
    ensures forall i :: Waiting(ms + [Miss(n, spi)], i) <==> Waiting(ms, i) || i == n
  {
    WaitingSnoc(ms, Miss(n, spi));
  }

  lemma WaitingMore(ms: seq<Miss>, m: Miss)
    ensures forall i :: Waiting(ms, i) ==> Waiting(ms + [m], i)
    ensures Waiting(ms + [m], m.at)
  {
    forall i | Waiting(ms, i) ensures Waiting(ms + [m], i) {
      var k :| 0 <= k < |ms| && ms[k].at == i;
      assert (ms + [m])[k].at == i;
    }
    assert (ms + [m])[|ms|] == m;
  }

  lemma WaitingSnoc(ms: seq<Miss>, m: Miss)
    ensures forall i :: Waiting(ms + [m], i) <==> Waiting(ms, i) || i == m.at
  {
    WaitingMore(ms, m);
  }

  /**
   * What the noted packets leave in a cache: the slot of every SA they were answered with holds one of those answers,
   * and every other slot is as it was.
   */
  ghost predicate Learnt(was: seq<Option<Sa>>, now: seq<Option<Sa>>, mask: nat, answers: seq<Option<Sa>>)
  {
    && |now| == |was|
    && (forall k :: 0 <= k < |answers| && answers[k].Some? && And(answers[k].value.spi, mask) < |now| ==>
          now[And(answers[k].value.spi, mask)] in answers)
    && (forall s :: 0 <= s < |now| ==> now[s] == was[s] || LearntAt(now[s], s, mask, answers))
  }

  predicate LearntAt(slot: Option<Sa>, s: nat, mask: nat, answers: seq<Option<Sa>>)
  {
    slot.Some? && And(slot.value.spi, mask) == s && slot in answers
  }

  /** A cache that takes in one answer. */
  function Learn(slots: seq<Option<Sa>>, mask: nat, answer: Option<Sa>): (r: seq<Option<Sa>>)
    ensures |r| == |slots|
  {
    if answer.Some? && And(answer.value.spi, mask) < |slots|
    then slots[And(answer.value.spi, mask) := answer]
    else slots
  }

  lemma LearntSnoc(was: seq<Option<Sa>>, now: seq<Option<Sa>>, mask: nat, answers: seq<Option<Sa>>, sa: Option<Sa>)
    requires Learnt(was, now, mask, answers)
    ensures Learnt(was, Learn(now, mask, sa), mask, answers + [sa])
  {
    var more := answers + [sa];
    forall k | 0 <= k < |more| && more[k].Some? && And(more[k].value.spi, mask) < |now|
      ensures Learn(now, mask, sa)[And(more[k].value.spi, mask)] in more
    {
      assert k < |answers| ==> now[And(more[k].value.spi, mask)] in answers;
      assert sa == more[|answers|];
    }
  }

  /** The answers to the noted packets. */
  function AnswersTo(ms: seq<Miss>, sa: seq<Option<Sa>>): seq<Option<Sa>>
    requires forall k :: 0 <= k < |ms| ==> ms[k].at < |sa|
  {
    seq(|ms|, k requires 0 <= k < |ms| => sa[ms[k].at])
  }

  /** sa_cache_update, with an SA of the table, or one that came from a slot never written. */
  method CacheUpdate(slots: array<Option<Sa>>, sa: Sa, mask: nat, ghost t: Option<Table>)
    requires mask != 0 ==> slots.Length == mask + 1 && Reflects(slots[..], t)
    requires t.Some? ==> Holds(t.value, sa)
    modifies slots
    ensures mask != 0 ==> Reflects(slots[..], t)
    ensures slots[..] == if mask != 0 then Learn(old(slots[..]), mask, Some(sa)) else old(slots[..])
  {
    ghost var was := slots[..];
    if mask != 0 {
      SlotInBounds(sa.spi, mask);
      slots[And(sa.spi, mask)] := Some(sa);
      assert slots[..] == was[And(sa.spi, mask) := Some(sa)];
    }
  }

  /** The answer to one noted packet, which the cache learns. */
  method Resolve(slots: array<Option<Sa>>, mask: nat, t: Tables, p: Pkt, m: Miss, junk: Option<Sa>,
                 sa: array<Option<Sa>>)
    requires TablesOk(t) && sa != slots && m.at < sa.Length
    requires mask != 0 ==> slots.Length == mask + 1 && Reflects(slots[..], For(t, p.v4))
    modifies slots, sa
    ensures mask != 0 ==> Reflects(slots[..], For(t, p.v4))
    ensures sa[..] == old(sa[..])[m.at := Lookup(t, p, m.spi, junk)]
    ensures mask != 0 ==> slots[..] == Learn(old(slots[..]), mask, sa[m.at])
  {
    var res := match For(t, p.v4)
      case Some(table) => if m.spi in table then Some(table[m.spi]) else None
      case None => junk;
    if res.Some? && Match(res.value, p) {
      sa[m.at] := res;
      CacheUpdate(slots, res.value, mask, For(t, p.v4));
    } else {
      sa[m.at] := None;
    }
  }

  /** Second pass for one family: each noted packet gets the table's answer, and the cache learns it. */
  method SecondPass(slots: array<Option<Sa>>, mask: nat, t: Tables, v4: bool, pkts: seq<Pkt>, ms: seq<Miss>,
                    junk: seq<Option<Sa>>, sa: array<Option<Sa>>, ghost c: Slots)
    requires TablesOk(t) && sa.Length == |pkts| == |junk| && sa != slots && MissesOk(ms, c, pkts, v4, |pkts|)
    requires mask != 0 ==> slots.Length == mask + 1 && Reflects(slots[..], For(t, v4))
    modifies slots, sa
    ensures mask != 0 ==> Reflects(slots[..], For(t, v4))
    ensures forall i :: 0 <= i < |pkts| ==> sa[i] == if Waiting(ms, i) then Answer(t, c, pkts, junk, i) else old(sa[i])
    ensures mask != 0 ==> Learnt(old(slots[..]), slots[..], mask, AnswersTo(ms, sa[..]))
  {
    ghost var given: seq<Option<Sa>> := [];
    for k := 0 to |ms|
      invariant |given| == k && forall j :: 0 <= j < k ==> given[j] == sa[ms[j].at]
      invariant mask != 0 ==> slots.Length == mask + 1 && Reflects(slots[..], For(t, v4))
      invariant mask != 0 ==> Learnt(old(slots[..]), slots[..], mask, given)
      invariant forall i :: 0 <= i < |pkts| ==>
                sa[i] == if Waiting(ms[..k], i) then Answer(t, c, pkts, junk, i) else old(sa[i])
    {
      var m := ms[k];
      assert ms[..k + 1] == ms[..k] + [m] && IsMiss(m, c, pkts, v4);
      WaitingSnoc(ms[..k], m);
      ghost var was, answers := slots[..], sa[..];
      Resolve(slots, mask, t, pkts[m.at], m, junk[m.at], sa);
      assert forall i :: 0 <= i < |pkts| ==> sa[i] == sa[..][i];
      assert forall i :: 0 <= i < |pkts| && i != m.at ==> sa[i] == answers[i];
      if mask != 0 {
        LearntSnoc(old(slots[..]), was, mask, given, sa[m.at]);
      }
      given := given + [sa[m.at]];
    }
    assert ms[..|ms|] == ms && given == AnswersTo(ms, sa[..]);
  }

  /**
   * The answer a table owes a packet: the SA it holds under the SPI read, if that is a transport SA, or a tunnel SA of
   * the packet's family between the packet's own source and destination; and nothing else.
   */
  ghost predicate Owed(table: Table, p: Pkt, spi: nat, answer: Option<Sa>)
  {
    forall sa: Sa :: answer == Some(sa) <==>
                     && spi in table && table[spi] == sa
                     && (|| sa.kind == Transport
                         || (&& sa.kind == (if p.v4 then Ip4Tunnel else Ip6Tunnel)
                             && sa.src == p.src && sa.dst == p.dst))
  }

  /** The SPI read for packet i: behind a UDP header from the first encapsulated packet of the burst onwards. */
  predicate SpiRead(pkts: seq<Pkt>, i: nat, spi: nat)
    requires i < |pkts|
  {
    && ((exists j :: 0 <= j <= i && pkts[j].encap) ==> spi == pkts[i].spiUdp)
    && ((forall j :: 0 <= j <= i ==> !pkts[j].encap) ==> spi == pkts[i].spiPlain)
  }

  /** Packets whose family has a table are answered as it owes them. */
  ghost predicate AnsweredByTable(t: Tables, pkts: seq<Pkt>, answers: seq<Option<Sa>>)
    requires |answers| == |pkts|
  {
    forall i :: 0 <= i < |pkts| ==> AnsweredAt(t, pkts, i, answers[i])
  }

  ghost predicate AnsweredAt(t: Tables, pkts: seq<Pkt>, i: nat, answer: Option<Sa>)
    requires i < |pkts|
  {
    forall spi :: SpiRead(pkts, i, spi) ==>
                    && (pkts[i].v4 && t.v4.Some? ==> Owed(t.v4.value, pkts[i], spi, answer))
                    && (!pkts[i].v4 && t.v6.Some? ==> Owed(t.v6.value, pkts[i], spi, answer))
  }

  lemma {:induction false} SeenMeans(pkts: seq<Pkt>, i: nat)
    requires i <= |pkts|
    ensures SeenUdp(pkts, i) <==> exists j :: 0 <= j < i && pkts[j].encap
  {
    if i > 0 {
      SeenMeans(pkts, i - 1);
    }
  }

  /** What every burst is answered with, given a cache that agrees with the tables. */
  lemma AnswersAreOwed(t: Tables, c: Slots, pkts: seq<Pkt>, junk: seq<Option<Sa>>)
    requires |pkts| == |junk| && Agrees(c, t)
    ensures AnsweredByTable(t, pkts, Answers(t, c, pkts, junk))
  {
    forall i | 0 <= i < |pkts| ensures AnsweredAt(t, pkts, i, Answers(t, c, pkts, junk)[i]) {
      SeenMeans(pkts, i + 1);
      forall spi | SpiRead(pkts, i, spi) ensures spi == ReadSpi(pkts, i) {
      }
      if For(t, pkts[i].v4).Some? {
        CacheIsTransparent(t, c, pkts, junk, i);
      }
    }
  }

  /** sad_lookup: every packet gets its answer, and the cache goes on agreeing with the tables there are. */
  method SadLookup(c: Cache, t: Tables, pkts: seq<Pkt>, junk: seq<Option<Sa>>, sa: array<Option<Sa>>)
    requires c.Valid(t) && TablesOk(t) && sa.Length == |pkts| == |junk| && sa != c.v4 && sa != c.v6
    modifies sa, c.v4, c.v6
    ensures c.Valid(t) && sa[..] == Answers(t, old(c.View()), pkts, junk)
    ensures AnsweredByTable(t, pkts, sa[..])
  {
    ghost var view := c.View();
    var m4, m6 := FirstPass(c, pkts, sa, t, junk);
    SecondPass(c.v4, c.mask, t, true, pkts, m4, junk, sa, view);
    SecondPass(c.v6, c.mask, t, false, pkts, m6, junk, sa, view);
    AnswersAreOwed(t, view, pkts, junk);
  }

  /** What a burst was asked, and what it was answered. */
  datatype Burst = Burst(pkts: seq<Pkt>, junk: seq<Option<Sa>>)

  /** From an empty cache of any size, over any sequence of bursts, the cache never shows. */
  method CacheRun(t: Tables, entries: nat, fails: bool, bursts: seq<Burst>) returns (answers: seq<seq<Option<Sa>>>)
    requires TablesOk(t) && forall b :: 0 <= b < |bursts| ==> |bursts[b].junk| == |bursts[b].pkts|
    ensures |answers| == |bursts|
    ensures forall b :: 0 <= b < |bursts| ==>
              |answers[b]| == |bursts[b].pkts| && AnsweredByTable(t, bursts[b].pkts, answers[b])
  {
    var c := new Cache(entries, fails);
    answers := [];
    for b := 0 to |bursts|
      invariant c.Valid(t) && fresh(c) && fresh(c.v4) && fresh(c.v6) && |answers| == b
      invariant forall j :: 0 <= j < b ==>
                  |answers[j]| == |bursts[j].pkts| && AnsweredByTable(t, bursts[j].pkts, answers[j])
    {
      var pkts, junk := bursts[b].pkts, bursts[b].junk;
      var sa := new Option<Sa>[|pkts|](_ => None);
      SadLookup(c, t, pkts, junk, sa);
      answers := answers + [sa[..]];
    }
  }

  /** The packets of a burst are answered as if each had been read for itself. */
  predicate ReadForThemselves(t: Tables, pkts: seq<Pkt>)
    requires t.v4.Some? && t.v6.Some?
  {
    forall i :: 0 <= i < |pkts| ==>
      In(For(t, pkts[i].v4).value, pkts[i], ReadSpi(pkts, i)) == In(For(t, pkts[i].v4).value, pkts[i], OwnSpi(pkts[i]))
  }

  /** No plain ESP packet that differs in the two places comes after an encapsulated one. */
  predicate ReadsRight(pkts: seq<Pkt>)
  {
    forall i :: 0 <= i < |pkts| && !pkts[i].encap && SeenUdp(pkts, i) ==> pkts[i].spiPlain == pkts[i].spiUdp
  }

  /**
   * Since the length of the UDP header is never taken back within a burst, a burst is answered by its packets' own
   * SPIs, whatever the database holds, exactly when no plain packet suffers from an encapsulated one before it.
   */
  lemma OwnSpiIff(pkts: seq<Pkt>)
    ensures (forall t: Tables :: TablesOk(t) && t.v4.Some? && t.v6.Some? ==> ReadForThemselves(t, pkts))
            <==> ReadsRight(pkts)
  {
    if ReadsRight(pkts) {
      forall t: Tables | TablesOk(t) && t.v4.Some? && t.v6.Some? ensures ReadForThemselves(t, pkts) {
        assert forall i :: 0 <= i < |pkts| ==> ReadSpi(pkts, i) == OwnSpi(pkts[i]);
      }
    } else {
      var i :| 0 <= i < |pkts| && !pkts[i].encap && SeenUdp(pkts, i) && pkts[i].spiPlain != pkts[i].spiUdp;
      var one: Table := map[pkts[i].spiPlain := Sa(pkts[i].spiPlain, Transport, 0, 0)];
      var t := Tables(Some(one), Some(one));
      assert TablesOk(t);
      assert In(one, pkts[i], ReadSpi(pkts, i)) == None != In(one, pkts[i], OwnSpi(pkts[i]));
      assert !ReadForThemselves(t, pkts);
    }
  }

  /** A plain packet with SPI 7 behind one in UDP: the SA with SPI 7 is not found for it. */
  lemma MixedBurst()
    ensures var t := Tables(Some(map[7 := Sa(7, Transport, 0, 0)]), Some(map[]));
            var pkts := [Pkt(true, true, 1, 2, 0, 5), Pkt(true, false, 1, 2, 7, 8)];
            TablesOk(t) && ReadSpi(pkts, 1) == 8 && !ReadForThemselves(t, pkts)
  {
    var t := Tables(Some(map[7 := Sa(7, Transport, 0, 0)]), Some(map[]));
    var pkts := [Pkt(true, true, 1, 2, 0, 5), Pkt(true, false, 1, 2, 7, 8)];
    assert In(t.v4.value, pkts[1], ReadSpi(pkts, 1)) == None != In(t.v4.value, pkts[1], OwnSpi(pkts[1]));
  }

  /** In particular when all packets of the burst are encapsulated alike. */
  lemma UniformBurst(pkts: seq<Pkt>, encap: bool)
    requires forall i :: 0 <= i < |pkts| ==> pkts[i].encap == encap
    ensures ReadsRight(pkts)
  {
    if !encap {
      forall i | 0 <= i < |pkts| ensures !SeenUdp(pkts, i) {
        NoneSeen(pkts, i);
      }
    }
  }

  lemma {:induction false} NoneSeen(pkts: seq<Pkt>, i: nat)
    requires i <= |pkts| && forall j :: 0 <= j < |pkts| ==> !pkts[j].encap
    ensures !SeenUdp(pkts, i)
  {
    if i > 0 {
      NoneSeen(pkts, i - 1);
    }
  }

  /** Entries are only ever added. */
  predicate Grows(t: Table, u: Table)
  {
    forall spi :: spi in t ==> spi in u && u[spi] == t[spi]
  }

  /** 0, -EEXIST, or what the library returns when the hash is full or there is none. */
  datatype Added = Done | Exists | Failed

  /** One table's part of ipsec_sad_add. */
  function AddTo(t: Option<Table>, sa: Sa, full: bool): (r: (Added, Option<Table>))
    ensures t.Some? == r.1.Some? && Grows(t.UnwrapOr(map[]), r.1.UnwrapOr(map[]))
    ensures TableOk(t.UnwrapOr(map[])) ==> TableOk(r.1.UnwrapOr(map[]))
    ensures r.0 == Done ==> !Has(t, sa.spi) && r.1.Some? && Holds(r.1.value, sa)
    ensures r.0 != Done ==> r.1 == t
    ensures r.0 == Exists <==> Has(t, sa.spi)
  {
    if Has(t, sa.spi) then (Exists, t) else if t.None? || full then (Failed, t) else (Done, Some(t.value[sa.spi := sa]))
  }

  predicate Has(t: Option<Table>, spi: nat)
  {
    t.Some? && spi in t.value
  }

  /** The database. */
  class Database {
    var t: Tables

    /** ipsec_sad_create, given whether there are SAs of each family. */
    constructor (any4: bool, any6: bool)
      ensures TablesOk(t) && t == Tables(if any4 then Some(map[]) else None, if any6 then Some(map[]) else None)
    {
      t := Tables(if any4 then Some(map[]) else None, if any6 then Some(map[]) else None);
    }

    /**
     * ipsec_sad_add: a transport SA goes where an inbound policy of that family names its SPI, and may stop
     * half way.
     */
    method Add(sa: Sa, in4: bool, in6: bool, full4: bool, full6: bool) returns (r: Added)
      requires TablesOk(t)
      modifies this
      ensures TablesOk(t) && Grows(old(t).v4.UnwrapOr(map[]), t.v4.UnwrapOr(map[]))
      ensures Grows(old(t).v6.UnwrapOr(map[]), t.v6.UnwrapOr(map[]))
      ensures r == Done && Serves(sa, true, in4) ==> !Has(old(t).v4, sa.spi) && t.v4.Some? && Holds(t.v4.value, sa)
      ensures r == Done && Serves(sa, false, in6) ==> !Has(old(t).v6, sa.spi) && t.v6.Some? && Holds(t.v6.value, sa)
      ensures !Serves(sa, true, in4) ==> t.v4 == old(t).v4
      ensures !Serves(sa, false, in6) ==> t.v6 == old(t).v6
      ensures r == Exists <==>
        || (Serves(sa, true, in4) && Has(old(t).v4, sa.spi))
        || (Serves(sa, false, in6) && Has(old(t).v6, sa.spi) && (Serves(sa, true, in4) ==> old(t).v4.Some? && !full4))
    {
      r := Done;
      if sa.kind == Ip4Tunnel || (sa.kind == Transport && in4) {
        var a := AddTo(t.v4, sa, full4);
        r, t := a.0, t.(v4 := a.1);
      }
      if r == Done && (sa.kind == Ip6Tunnel || (sa.kind == Transport && in6)) {
        var a := AddTo(t.v6, sa, full6);
        r, t := a.0, t.(v6 := a.1);
      }
    }
  }

  /** The families an SA is entered for. */
  predicate Serves(sa: Sa, v4: bool, named: bool)
  {
    match sa.kind
    case Transport => named
    case Ip4Tunnel => v4
    case Ip6Tunnel => !v4
  }
}
