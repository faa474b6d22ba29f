/** Handing out the queue pairs of the crypto devices to lcores and directions (ipsec-secgw.c). */
module QueuePairs {
  import opened Common

  const MAX_QP_PER_LCORE: nat := 256

  /** A context: the inbound or outbound side of an lcore. */
  datatype CtxId = CtxId(lcore: nat, inbound: bool)

  datatype Alg = Chain(cipher: nat, auth: nat) | Aead(aead: nat)

  /** cdev_key, in the map of its direction. */
  datatype Key = Key(ctx: CtxId, alg: Alg)

  datatype Pair = Pair(dev: nat, qp: nat)

  datatype Cap = CipherCap(algo: nat) | AuthCap(algo: nat) | AeadCap(algo: nat) | AsymCap

  datatype Device = Device(enabled: bool, chaining: bool, maxQps: nat, caps: seq<Cap>)

  /** One entry of lcore_params: a receive queue on a port, served by an lcore. */
  datatype Param = Param(lcore: nat, unprotected: bool)
  {
    function Ctx(): CtxId
    {
      CtxId(lcore, unprotected)
    }
  }

  /**
   * Tables of all contexts, the two maps as one, the queue pairs configured so far, and how many inserts have
   * failed.
   */
  datatype State = State(tbl: map<CtxId, seq<Pair>>, cmap: map<Key, nat>, conf: map<nat, nat>, fails: nat)
  {
    function Tbl(c: CtxId): seq<Pair>
    {
      if c in tbl then tbl[c] else []
    }
  }

  /** No (device, queue pair) is in two places. */
  ghost predicate Exclusive(s: State)
  {
    forall c, i, d, j :: OnlyHere(s, c, i, d, j)
  }

  /** Unless these are one place, they hold different queue pairs. */
  predicate OnlyHere(s: State, c: CtxId, i: nat, d: CtxId, j: nat)
  {
    i < |s.Tbl(c)| && j < |s.Tbl(d)| && s.Tbl(c)[i] == s.Tbl(d)[j] ==> c == d && i == j
  }

  /** Every queue pair handed out is one of those its device got configured with. */
  ghost predicate AllConfigured(s: State)
  {
    forall c, i :: IsConfigured(s, c, i)
  }

  predicate IsConfigured(s: State, c: CtxId, i: nat)
  {
    i < |s.Tbl(c)| ==> s.Tbl(c)[i].dev in s.conf && s.Tbl(c)[i].qp < s.conf[s.Tbl(c)[i].dev]
  }

  /** Devices from `dev` on have not been handed out yet. */
  ghost predicate DevsBelow(s: State, dev: nat)
  {
    forall c, i :: 0 <= i < |s.Tbl(c)| ==> s.Tbl(c)[i].dev < dev
  }

  /** Map values are positions of the context's table, and tables fit. */
  ghost predicate MapOk(s: State)
  {
    && (forall k :: k in s.cmap ==> s.cmap[k] < |s.Tbl(k.ctx)|)
    && (forall c :: |s.Tbl(c)| <= MAX_QP_PER_LCORE)
  }

  predicate HasDev(t: seq<Pair>, dev: nat)
  {
    exists i :: 0 <= i < |t| && t[i].dev == dev
  }

  /** Position of a device in a table, or its length. */
  function Where(t: seq<Pair>, dev: nat): (r: nat)
    ensures r <= |t| && (r < |t| ==> t[r].dev == dev) && (HasDev(t, dev) <==> r < |t|)
  {
    if t == [] then 0
    else if t[0].dev == dev then 0
    else
      var r := Where(t[1..], dev);
      assert HasDev(t, dev) ==> HasDev(t[1..], dev) by {
        if i :| 0 <= i < |t| && t[i].dev == dev {
          assert t[1..][i - 1].dev == dev;
        }
      }
      assert r < |t[1..]| ==> t[r + 1].dev == dev;
      r + 1
  }

  /** add_mapping as a function of the state; `fails` says that the hash does not take a new key. */
  function Mapped(s: State, dev: nat, qp: nat, c: CtxId, alg: Alg, fails: bool): (State, bool)
  {
    if Key(c, alg) in s.cmap then (s, false)
    else
      var i := Where(s.Tbl(c), dev);
      if i == |s.Tbl(c)| && i >= MAX_QP_PER_LCORE then (s, false)
      else
        var u := if i == |s.Tbl(c)| then s.(tbl := s.tbl[c := s.Tbl(c) + [Pair(dev, qp)]]) else s;
        if fails then (u.(fails := u.fails + 1), false) else (u.(cmap := u.cmap[Key(c, alg) := i]), true)
  }

  /** add_mapping. */
  method AddMapping(s: State, dev: nat, qp: nat, c: CtxId, alg: Alg) returns (t: State, ret: bool)
    ensures exists fails :: (t, ret) == Mapped(s, dev, qp, c, alg, fails)
    ensures t.conf == s.conf && s.fails <= t.fails
  {
    t, ret := s, false;
    if Key(c, alg) in s.cmap {
      assert (t, ret) == Mapped(s, dev, qp, c, alg, false);
      return;
    }
    var tbl, i := s.Tbl(c), 0;
    while i < |tbl| && tbl[i].dev != dev
      invariant i <= |tbl| && Where(tbl, dev) == i + Where(tbl[i..], dev)
    {
      assert tbl[i..][1..] == tbl[i + 1..];
      i := i + 1;
    }
    assert i == Where(tbl, dev);
    if i == |tbl| {
      if |tbl| >= MAX_QP_PER_LCORE {
        assert (t, ret) == Mapped(s, dev, qp, c, alg, false);
        return;
      }
      t := s.(tbl := s.tbl[c := tbl + [Pair(dev, qp)]]);
    }
    var fails: bool := *;
    if fails {
      t := t.(fails := t.fails + 1);
    } else {
      t, ret := t.(cmap := t.cmap[Key(c, alg) := i]), true;
    }
    assert (t, ret) == Mapped(s, dev, qp, c, alg, fails);
  }

  /** One call of add_cdev_mapping: the context, whether its table grew, and whether a mapping was reported. */
  datatype Visit = Visit(ctx: CtxId, grew: bool, reported: bool)

  /**
   * What one call does: no other context changes; this one's table grows by (dev, qp) at most once, and not if it has
   * the device already; and while inserts succeed, growth is reported.
   */
  ghost predicate Visited(s: State, t: State, dev: nat, qp: nat, v: Visit)
  {
    && t.conf == s.conf && (MapOk(s) ==> MapOk(t)) && s.fails <= t.fails
    && (forall d :: d != v.ctx ==> t.Tbl(d) == s.Tbl(d))
    && (v.grew ==> !HasDev(s.Tbl(v.ctx), dev))
    && t.Tbl(v.ctx) == s.Tbl(v.ctx) + (if v.grew then [Pair(dev, qp)] else [])
    && (t.fails == 0 && v.grew ==> v.reported)
  }

  /** One more mapping in a call. */
  lemma MappedVisits(s: State, m: State, dev: nat, qp: nat, v: Visit, alg: Alg, fails: bool) returns (w: Visit)
    requires Visited(s, m, dev, qp, v)
    ensures var (t, ret) := Mapped(m, dev, qp, v.ctx, alg, fails);
            Visited(s, t, dev, qp, w) && w.ctx == v.ctx && w.reported == (v.reported || ret)
  {
    var (t, ret) := Mapped(m, dev, qp, v.ctx, alg, fails);
    MappedMap(m, dev, qp, v.ctx, alg, fails);
    w := Visit(v.ctx, t.Tbl(v.ctx) != s.Tbl(v.ctx), v.reported || ret);
    if v.grew {
      assert m.Tbl(v.ctx)[|s.Tbl(v.ctx)|].dev == dev;
      assert HasDev(m.Tbl(v.ctx), dev);
    } else {
      assert m.Tbl(v.ctx) == s.Tbl(v.ctx);
    }
  }

  /** add_mapping by itself: what the tables and the map become. */
  lemma MappedMap(m: State, dev: nat, qp: nat, c: CtxId, alg: Alg, fails: bool)
    ensures var (t, ret) := Mapped(m, dev, qp, c, alg, fails);
            && t.conf == m.conf && m.fails <= t.fails && (MapOk(m) ==> MapOk(t))
            && (forall d :: d != c ==> t.Tbl(d) == m.Tbl(d))
            && (t.Tbl(c) == m.Tbl(c) || (!HasDev(m.Tbl(c), dev) && t.Tbl(c) == m.Tbl(c) + [Pair(dev, qp)]))
            && (t.Tbl(c) != m.Tbl(c) && t.fails == 0 ==> ret)
  {
    var i := Where(m.Tbl(c), dev);
    if Key(c, alg) !in m.cmap && (i < |m.Tbl(c)| || i < MAX_QP_PER_LCORE) {
      var u := if i == |m.Tbl(c)| then Grown(m, dev, qp, c) else m;
      if i == |m.Tbl(c)| {
        GrownTables(m, dev, qp, c);
      }
      EntryTables(u, Key(c, alg), i);
      FailureTables(u);
    }
  }

  /** A new queue pair in a context's table. */
  function Grown(s: State, dev: nat, qp: nat, c: CtxId): State
  {
    s.(tbl := s.tbl[c := s.Tbl(c) + [Pair(dev, qp)]])
  }

  lemma GrownTables(m: State, dev: nat, qp: nat, c: CtxId)
    requires |m.Tbl(c)| < MAX_QP_PER_LCORE
    ensures var u := Grown(m, dev, qp, c);
            && u.Tbl(c) == m.Tbl(c) + [Pair(dev, qp)] && (forall d :: d != c ==> u.Tbl(d) == m.Tbl(d))
            && (MapOk(m) ==> MapOk(u))
  {
    var u := Grown(m, dev, qp, c);
    assert forall d :: |u.Tbl(d)| >= |m.Tbl(d)|;
  }

  lemma EntryTables(u: State, k: Key, i: nat)
    requires i < |u.Tbl(k.ctx)|
    ensures var t := u.(cmap := u.cmap[k := i]);
            (forall d :: t.Tbl(d) == u.Tbl(d)) && (MapOk(u) ==> MapOk(t))
  {
    var t := u.(cmap := u.cmap[k := i]);
    assert forall d :: t.Tbl(d) == u.Tbl(d);
  }

  /** What a device that chains operations can do. */
  predicate Offers(d: Device, alg: Alg)
  {
    && d.chaining
    && match alg
       case Aead(aead) => AeadCap(aead) in d.caps
       case Chain(cipher, auth) => CipherCap(cipher) in d.caps && AuthCap(auth) in d.caps
  }

  ghost function Offered(d: Device): iset<Alg>
  {
    iset alg: Alg | Offers(d, alg)
  }

  /** A full table that lacks a device takes no mapping of it. */
  predicate Barred(t: seq<Pair>, dev: nat)
  {
    |t| >= MAX_QP_PER_LCORE && !HasDev(t, dev)
  }

  /** The map takes a key to a table entry of the device. */
  predicate LeadsTo(t: State, k: Key, dev: nat)
  {
    k in t.cmap && t.cmap[k] < |t.Tbl(k.ctx)| && t.Tbl(k.ctx)[t.cmap[k]].dev == dev
  }

  predicate IsNew(s: State, t: State, k: Key)
  {
    k in t.cmap && k !in s.cmap
  }

  /**
   * What mapping some algorithms of a device for a context does to the map: entries stay; the new ones are for those
   * algorithms, and lead to the device; unless an insert fails or the table is full without the device, none is
   * missing; a mapping is reported exactly if there is a new entry; and the device comes into the table exactly with a
   * new entry or a failed insert.
   */
  ghost predicate Keyed(s: State, t: State, dev: nat, c: CtxId, algs: iset<Alg>, used: bool)
  {
    && s.fails <= t.fails
    && (forall k :: k in s.cmap ==> k in t.cmap && t.cmap[k] == s.cmap[k])
    && (forall k :: IsNew(s, t, k) ==> k.ctx == c && k.alg in algs && LeadsTo(t, k, dev))
    && (t.fails == s.fails ==> forall alg :: alg in algs ==> Key(c, alg) in t.cmap || Barred(s.Tbl(c), dev))
    && (used <==> exists k :: IsNew(s, t, k))
    && (HasDev(t.Tbl(c), dev) <==> HasDev(s.Tbl(c), dev) || used || t.fails > s.fails)
    && (Barred(s.Tbl(c), dev) ==> t == s)
  }

  lemma MappedKeys(m: State, dev: nat, qp: nat, c: CtxId, alg: Alg, fails: bool)
    ensures var (t, ret) := Mapped(m, dev, qp, c, alg, fails);
            Keyed(m, t, dev, c, iset{alg}, ret)
  {
    var (t, ret) := Mapped(m, dev, qp, c, alg, fails);
    var i := Where(m.Tbl(c), dev);
    if Key(c, alg) !in m.cmap && (i < |m.Tbl(c)| || i < MAX_QP_PER_LCORE) {
      assert t.Tbl(c) == if i == |m.Tbl(c)| then m.Tbl(c) + [Pair(dev, qp)] else m.Tbl(c);
      assert t.Tbl(c)[i].dev == dev;
      assert ret ==> IsNew(m, t, Key(c, alg));
    }
  }

  lemma KeyedThen(s: State, m: State, t: State, dev: nat, c: CtxId, algs: iset<Alg>, alg: Alg, used: bool, ret: bool)
    requires Keyed(s, m, dev, c, algs, used) && Keyed(m, t, dev, c, iset{alg}, ret)
    requires s.Tbl(c) <= m.Tbl(c) <= t.Tbl(c) && (m.Tbl(c) != s.Tbl(c) ==> HasDev(m.Tbl(c), dev))
    ensures Keyed(s, t, dev, c, algs + iset{alg}, used || ret)
  {
    forall k | IsNew(s, t, k) ensures k.ctx == c && k.alg in algs + iset{alg} && LeadsTo(t, k, dev) {
      if k in m.cmap {
        assert IsNew(s, m, k);
      } else {
        assert IsNew(m, t, k);
      }
    }
    if used {
      var k :| IsNew(s, m, k);
      assert IsNew(s, t, k);
    }
    if ret {
      var k :| IsNew(m, t, k);
      assert IsNew(s, t, k);
    }
    if k :| IsNew(s, t, k) {
      assert IsNew(s, m, k) || IsNew(m, t, k);
    }
  }

  lemma FailureTables(u: State)
    ensures var t := u.(fails := u.fails + 1); (forall d :: t.Tbl(d) == u.Tbl(d)) && (MapOk(u) ==> MapOk(t))
  {
    var t := u.(fails := u.fails + 1);
    assert forall d :: t.Tbl(d) == u.Tbl(d);
  }

  method AddOne(ghost s: State, m: State, dev: nat, qp: nat, alg: Alg, used: bool, c: CtxId, ghost grew: bool,
                ghost algs: iset<Alg>)
    returns (t: State, used': bool, ghost grew': bool)
    requires Visited(s, m, dev, qp, Visit(c, grew, used)) && Keyed(s, m, dev, c, algs, used)
    ensures Visited(s, t, dev, qp, Visit(c, grew', used')) && Keyed(s, t, dev, c, algs + iset{alg}, used')
  {
    var ret;
    t, ret := AddMapping(m, dev, qp, c, alg);
    used' := used || ret;
    ghost var fails :| (t, ret) == Mapped(m, dev, qp, c, alg, fails);
    ghost var w := MappedVisits(s, m, dev, qp, Visit(c, grew, used), alg, fails);
    grew' := w.grew;
    MappedKeys(m, dev, qp, c, alg, fails);
    MappedMap(m, dev, qp, c, alg, fails);
    if grew {
      assert m.Tbl(c)[|s.Tbl(c)|].dev == dev;
    }
    KeyedThen(s, m, t, dev, c, algs, alg, used, ret);
  }

  /** What the first n capabilities of a device give, ciphers in pairs with all of its authentication. */
  ghost function GivenBy(caps: seq<Cap>, n: nat): iset<Alg>
    requires n <= |caps|
  {
    iset alg: Alg | IsGiven(caps, n, alg)
  }

  predicate IsGiven(caps: seq<Cap>, n: nat, alg: Alg)
    requires n <= |caps|
  {
    match alg
    case Aead(aead) => AeadCap(aead) in caps[..n]
    case Chain(cipher, auth) => CipherCap(cipher) in caps[..n] && AuthCap(auth) in caps
  }

  /** A cipher in pairs with the authentication among the first n capabilities. */
  ghost function PairsWith(caps: seq<Cap>, cipher: nat, n: nat): iset<Alg>
    requires n <= |caps|
  {
    iset alg: Alg | alg.Chain? && alg.cipher == cipher && AuthCap(alg.auth) in caps[..n]
  }

  lemma PairsWithNext(caps: seq<Cap>, cipher: nat, n: nat)
    requires n < |caps|
    ensures PairsWith(caps, cipher, n + 1)
            == PairsWith(caps, cipher, n) + if caps[n].AuthCap? then iset{Chain(cipher, caps[n].algo)} else iset{}
  {
    assert caps[..n + 1] == caps[..n] + [caps[n]];
  }

  lemma GivenByNext(caps: seq<Cap>, n: nat)
    requires n < |caps|
    ensures GivenBy(caps, n + 1)
            == GivenBy(caps, n) + match caps[n]
                                  case AeadCap(aead) => iset{Aead(aead)}
                                  case CipherCap(cipher) => PairsWith(caps, cipher, |caps|)
                                  case _ => iset{}
  {
    assert caps[..n + 1] == caps[..n] + [caps[n]] && caps[..|caps|] == caps;
  }

  /** The authentication algorithms, each in a pair with one cipher. */
  method AddPairs(ghost s: State, m: State, dev: nat, caps: seq<Cap>, qp: nat, cipher: nat, used: bool, c: CtxId,
                  ghost grew: bool, ghost algs: iset<Alg>)
    returns (t: State, used': bool, ghost grew': bool)
    requires Visited(s, m, dev, qp, Visit(c, grew, used)) && Keyed(s, m, dev, c, algs, used)
    ensures Visited(s, t, dev, qp, Visit(c, grew', used'))
    ensures Keyed(s, t, dev, c, algs + PairsWith(caps, cipher, |caps|), used')
  {
    t, used', grew' := m, used, grew;
    assert algs + PairsWith(caps, cipher, 0) == algs;
    for j := 0 to |caps|
      invariant Visited(s, t, dev, qp, Visit(c, grew', used'))
      invariant Keyed(s, t, dev, c, algs + PairsWith(caps, cipher, j), used')
    {
      ghost var done := algs + PairsWith(caps, cipher, j);
      PairsWithNext(caps, cipher, j);
      if caps[j].AuthCap? {
        t, used', grew' := AddOne(s, t, dev, qp, Chain(cipher, caps[j].algo), used', c, grew', done);
        assert done + iset{Chain(cipher, caps[j].algo)} == algs + PairsWith(caps, cipher, j + 1);
      } else {
        assert done == algs + PairsWith(caps, cipher, j + 1);
      }
    }
  }

  /** What one capability adds. */
  method AddCap(ghost s: State, m: State, dev: nat, caps: seq<Cap>, i: nat, qp: nat, used: bool, c: CtxId,
                ghost grew: bool)
    returns (t: State, used': bool, ghost grew': bool)
    requires i < |caps|
    requires Visited(s, m, dev, qp, Visit(c, grew, used)) && Keyed(s, m, dev, c, GivenBy(caps, i), used)
    ensures Visited(s, t, dev, qp, Visit(c, grew', used')) && Keyed(s, t, dev, c, GivenBy(caps, i + 1), used')
  {
    t, used', grew' := m, used, grew;
    GivenByNext(caps, i);
    if caps[i].AeadCap? {
      t, used', grew' := AddOne(s, m, dev, qp, Aead(caps[i].algo), used, c, grew, GivenBy(caps, i));
    } else if caps[i].CipherCap? {
      t, used', grew' := AddPairs(s, m, dev, caps, qp, caps[i].algo, used, c, grew, GivenBy(caps, i));
    } else {
      assert GivenBy(caps, i + 1) == GivenBy(caps, i);
    }
  }

  /** add_cdev_mapping: one mapping for each AEAD, and for each pair of a cipher and an authentication algorithm. */
  method AddCdevMapping(s: State, dev: nat, d: Device, qp: nat, p: Param)
    returns (t: State, used: bool, ghost grew: bool)
    ensures Visited(s, t, dev, qp, Visit(CtxId(p.lcore, p.unprotected), grew, used))
    ensures Keyed(s, t, dev, CtxId(p.lcore, p.unprotected), Offered(d), used)
  {
    t, used, grew := s, false, false;
    assert s.Tbl(p.Ctx()) + [] == s.Tbl(p.Ctx());
    if !d.chaining {
      return;
    }
    for i := 0 to |d.caps|
      invariant Visited(s, t, dev, qp, Visit(p.Ctx(), grew, used))
      invariant Keyed(s, t, dev, p.Ctx(), GivenBy(d.caps, i), used)
    {
      t, used, grew := AddCap(s, t, dev, d.caps, i, qp, used, p.Ctx(), grew);
    }
    assert d.caps[..|d.caps|] == d.caps;
    assert Offered(d) == GivenBy(d.caps, |d.caps|);
  }

  /** The queue pair that visit n is given: how many visits before it were reported. */
  function QpAt(log: seq<Visit>, n: nat): (r: nat)
    requires n <= |log|
    ensures r <= n
  {
    if n == 0 then 0 else QpAt(log, n - 1) + (if log[n - 1].reported then 1 else 0)
  }

  lemma {:induction false} QpAtPrefix(log: seq<Visit>, v: Visit, n: nat)
    requires n <= |log|
    ensures QpAt(log + [v], n) == QpAt(log, n)
  {
    if n > 0 {
      QpAtPrefix(log, v, n - 1);
    }
  }

  /** A visit from a up to b was reported. */
  predicate ReportedIn(log: seq<Visit>, a: nat, b: nat)
    requires a <= b <= |log|
  {
    exists k :: a <= k < b && log[k].reported
  }

  lemma {:induction false} QpAtGrows(log: seq<Visit>, a: nat, b: nat)
    requires a <= b <= |log|
    ensures QpAt(log, a) <= QpAt(log, b)
    ensures QpAt(log, a) < QpAt(log, b) <==> ReportedIn(log, a, b)
  {
    if a < b {
      QpAtGrows(log, a, b - 1);
      if ReportedIn(log, a, b - 1) {
        var k :| a <= k < b - 1 && log[k].reported;
        assert ReportedIn(log, a, b);
      }
      if log[b - 1].reported {
        assert ReportedIn(log, a, b);
      }
    }
  }

  /** Between any two visits that made a table grow, one was reported, the first of them perhaps. */
  predicate Apart(log: seq<Visit>)
  {
    forall i, j :: 0 <= i < j < |log| && log[i].grew && log[j].grew ==> ReportedIn(log, i, j)
  }

  /**
   * Each visit that made a table grow was reported or followed by a reported one, or more queue pairs are asked
   * for.
   */
  predicate Covered(log: seq<Visit>, req: nat)
  {
    forall i :: 0 <= i < |log| && log[i].grew ==> req > QpAt(log, i) || ReportedIn(log, i, |log|)
  }

  predicate NoneGrew(log: seq<Visit>, c: CtxId)
  {
    forall j :: 0 <= j < |log| && log[j].ctx == c ==> !log[j].grew
  }

  predicate OnlyGrew(log: seq<Visit>, c: CtxId, i: nat)
  {
    && i < |log| && log[i].ctx == c && log[i].grew
    && forall j :: 0 <= j < |log| && j != i && log[j].ctx == c ==> !log[j].grew
  }

  /**
   * A context's table after the visits of a device: as before, or longer by the queue pair of the one visit
   * that grew it.
   */
  ghost predicate RowIs(was: seq<Pair>, now: seq<Pair>, dev: nat, log: seq<Visit>, c: CtxId)
  {
    || (now == was && NoneGrew(log, c))
    || (exists i :: OnlyGrew(log, c, i) && now == was + [Pair(dev, QpAt(log, i))])
  }

  ghost predicate Follows(s: State, t: State, dev: nat, log: seq<Visit>)
  {
    t.conf == s.conf && forall c :: RowIs(s.Tbl(c), t.Tbl(c), dev, log, c)
  }

  lemma FollowsMore(s: State, m: State, t: State, dev: nat, log: seq<Visit>, v: Visit)
    requires DevsBelow(s, dev) && Follows(s, m, dev, log) && Visited(m, t, dev, QpAt(log, |log|), v)
    ensures Follows(s, t, dev, log + [v])
  {
    forall c ensures RowIs(s.Tbl(c), t.Tbl(c), dev, log + [v], c) {
      RowMore(s.Tbl(c), m.Tbl(c), t.Tbl(c), dev, log, v, c);
    }
  }

  lemma RowMore(was: seq<Pair>, mid: seq<Pair>, now: seq<Pair>, dev: nat, log: seq<Visit>, v: Visit, c: CtxId)
    requires RowIs(was, mid, dev, log, c)
    requires if v.ctx != c || !v.grew then now == mid
             else !HasDev(mid, dev) && now == mid + [Pair(dev, QpAt(log, |log|))]
    ensures RowIs(was, now, dev, log + [v], c)
  {
    var more := log + [v];
    if NoneGrew(log, c) && mid == was {
      if v.ctx == c && v.grew {
        QpAtPrefix(log, v, |log|);
        assert OnlyGrew(more, c, |log|);
      } else {
        assert NoneGrew(more, c);
      }
    } else {
      var i :| OnlyGrew(log, c, i) && mid == was + [Pair(dev, QpAt(log, i))];
      assert mid[|was|].dev == dev;
      assert HasDev(mid, dev);
      QpAtPrefix(log, v, i);
      assert OnlyGrew(more, c, i);
    }
  }

  /** What is at a place of a table after the visits of a device. */
  lemma RowAt(s: State, t: State, dev: nat, log: seq<Visit>, c: CtxId, a: nat) returns (i: nat)
    requires DevsBelow(s, dev) && Follows(s, t, dev, log) && a < |t.Tbl(c)|
    ensures a < |s.Tbl(c)| ==> t.Tbl(c)[a] == s.Tbl(c)[a] && t.Tbl(c)[a].dev < dev
    ensures a >= |s.Tbl(c)| ==> a == |s.Tbl(c)| && OnlyGrew(log, c, i) && t.Tbl(c)[a] == Pair(dev, QpAt(log, i))
  {
    assert RowIs(s.Tbl(c), t.Tbl(c), dev, log, c);
    if a < |s.Tbl(c)| {
      i := 0;
    } else {
      i :| OnlyGrew(log, c, i) && t.Tbl(c) == s.Tbl(c) + [Pair(dev, QpAt(log, i))];
    }
  }

  /** Where the queue pair of a visit that made a table grow is. */
  lemma RowOf(s: State, t: State, dev: nat, log: seq<Visit>, i: nat)
    requires Follows(s, t, dev, log) && i < |log| && log[i].grew
    ensures var c := log[i].ctx;
            OnlyGrew(log, c, i) && t.Tbl(c) == s.Tbl(c) + [Pair(dev, QpAt(log, i))]
  {
    var c := log[i].ctx;
    assert RowIs(s.Tbl(c), t.Tbl(c), dev, log, c);
    var k :| OnlyGrew(log, c, k) && t.Tbl(c) == s.Tbl(c) + [Pair(dev, QpAt(log, k))];
    assert k == i;
  }

  /** A device leaves an exclusive assignment exclusive exactly when its growing visits are apart. */
  lemma ExclusiveIff(s: State, t: State, dev: nat, log: seq<Visit>)
    requires DevsBelow(s, dev) && Follows(s, t, dev, log)
    ensures Exclusive(t) <==> Exclusive(s) && Apart(log)
  {
    if Exclusive(t) {
      WasExclusive(s, t, dev, log);
      forall i, j | 0 <= i < j < |log| && log[i].grew && log[j].grew ensures ReportedIn(log, i, j) {
        RowOf(s, t, dev, log, i);
        RowOf(s, t, dev, log, j);
        var c, d := log[i].ctx, log[j].ctx;
        assert t.Tbl(c)[|s.Tbl(c)|] == Pair(dev, QpAt(log, i)) && t.Tbl(d)[|s.Tbl(d)|] == Pair(dev, QpAt(log, j));
        assert OnlyHere(t, c, |s.Tbl(c)|, d, |s.Tbl(d)|);
        QpAtGrows(log, i, j);
      }
    }
    if Exclusive(s) && Apart(log) {
      forall c, a: nat, d, b: nat ensures OnlyHere(t, c, a, d, b) {
        if a < |t.Tbl(c)| && b < |t.Tbl(d)| && t.Tbl(c)[a] == t.Tbl(d)[b] {
          OnePlace(s, t, dev, log, c, a, d, b);
        }
      }
    }
  }

  lemma WasExclusive(s: State, t: State, dev: nat, log: seq<Visit>)
    requires DevsBelow(s, dev) && Follows(s, t, dev, log) && Exclusive(t)
    ensures Exclusive(s)
  {
    forall c, a: nat, d, b: nat ensures OnlyHere(s, c, a, d, b) {
      assert RowIs(s.Tbl(c), t.Tbl(c), dev, log, c) && RowIs(s.Tbl(d), t.Tbl(d), dev, log, d);
      assert OnlyHere(t, c, a, d, b);
    }
  }

  lemma OnePlace(s: State, t: State, dev: nat, log: seq<Visit>, c: CtxId, a: nat, d: CtxId, b: nat)
    requires DevsBelow(s, dev) && Follows(s, t, dev, log) && Exclusive(s) && Apart(log)
    requires a < |t.Tbl(c)| && b < |t.Tbl(d)| && t.Tbl(c)[a] == t.Tbl(d)[b]
    ensures c == d && a == b
  {
    var i := RowAt(s, t, dev, log, c, a);
    var j := RowAt(s, t, dev, log, d, b);
    assert OnlyHere(s, c, a, d, b);
    if a >= |s.Tbl(c)| && b >= |s.Tbl(d)| {
      if i < j {
        QpAtGrows(log, i, j);
      } else if j < i {
        QpAtGrows(log, j, i);
      }
    }
  }

  /** A context has all that a device offers, unless its table is full without the device. */
  ghost predicate Served(t: State, dev: nat, d: Device, c: CtxId)
  {
    forall alg :: Offers(d, alg) ==> Key(c, alg) in t.cmap || Barred(t.Tbl(c), dev)
  }

  /** A context lacks something that a device offers, and has room for the device. */
  ghost predicate Wants(s: State, d: Device, c: CtxId)
  {
    |s.Tbl(c)| < MAX_QP_PER_LCORE && exists alg :: Offers(d, alg) && Key(c, alg) !in s.cmap
  }

  predicate Asked(log: seq<Visit>, c: CtxId)
  {
    exists n :: 0 <= n < |log| && log[n].ctx == c
  }

  predicate First(log: seq<Visit>, n: nat)
    requires n < |log|
  {
    forall m :: 0 <= m < n ==> log[m].ctx != log[n].ctx
  }

  /**
   * What the visits of a device do to the map: entries stay; the new ones are for contexts asked, for what the device
   * offers, and lead to it. If no insert fails, every context asked is served, and a call reports a mapping exactly if
   * it is the first for its context and the context wants something.
   */
  ghost predicate RoundKeys(s: State, t: State, dev: nat, d: Device, log: seq<Visit>)
  {
    && s.fails <= t.fails
    && (forall k :: k in s.cmap ==> k in t.cmap && t.cmap[k] == s.cmap[k])
    && (forall k :: IsNew(s, t, k) ==> Asked(log, k.ctx) && Offers(d, k.alg) && LeadsTo(t, k, dev))
    && (t.fails == s.fails ==> forall n :: 0 <= n < |log| ==> ServedAt(s, t, dev, d, log, n))
  }

  ghost predicate ServedAt(s: State, t: State, dev: nat, d: Device, log: seq<Visit>, n: nat)
    requires n < |log|
  {
    Served(t, dev, d, log[n].ctx) && (log[n].reported <==> First(log, n) && Wants(s, d, log[n].ctx))
  }

  lemma RoundMore(s: State, m: State, t: State, dev: nat, d: Device, log: seq<Visit>, v: Visit, qp: nat)
    requires DevsBelow(s, dev) && Follows(s, m, dev, log) && RoundKeys(s, m, dev, d, log)
    requires Visited(m, t, dev, qp, v) && Keyed(m, t, dev, v.ctx, Offered(d), v.reported)
    ensures RoundKeys(s, t, dev, d, log + [v])
  {
    var more := log + [v];
    forall c | Asked(log, c) || c == v.ctx ensures Asked(more, c) {
      if c == v.ctx {
        assert more[|log|].ctx == c;
      } else {
        var n :| 0 <= n < |log| && log[n].ctx == c;
        assert more[n].ctx == c;
      }
    }
    forall k | IsNew(s, t, k) ensures Asked(more, k.ctx) && Offers(d, k.alg) && LeadsTo(t, k, dev) {
      if k in m.cmap {
        assert IsNew(s, m, k);
      } else {
        assert IsNew(m, t, k);
      }
    }
    if t.fails == s.fails {
      forall n | 0 <= n < |more| ensures ServedAt(s, t, dev, d, more, n) {
        if n < |log| {
          assert ServedAt(s, m, dev, d, log, n);
          StaysServed(m, t, dev, qp, v, d, log[n].ctx);
          assert more[..|log|] == log && forall i :: 0 <= i < |log| ==> more[i] == log[i];
          assert First(more, n) <==> First(log, n);
        } else {
          NowServed(s, m, t, dev, d, log, v, qp);
        }
      }
    }
  }

  lemma StaysServed(m: State, t: State, dev: nat, qp: nat, v: Visit, d: Device, c: CtxId)
    requires Visited(m, t, dev, qp, v) && Keyed(m, t, dev, v.ctx, Offered(d), v.reported)
    requires t.fails == m.fails && Served(m, dev, d, c)
    ensures Served(t, dev, d, c)
  {
  }

  lemma NothingNew(m: State, t: State, dev: nat, d: Device, v: Visit)
    requires Keyed(m, t, dev, v.ctx, Offered(d), v.reported) && Served(m, dev, d, v.ctx)
    ensures !v.reported
  {
    forall k ensures !IsNew(m, t, k) {
      assert Offers(d, k.alg) ==> Key(v.ctx, k.alg) in m.cmap || Barred(m.Tbl(v.ctx), dev);
    }
  }

  lemma NowServed(s: State, m: State, t: State, dev: nat, d: Device, log: seq<Visit>, v: Visit, qp: nat)
    requires DevsBelow(s, dev) && Follows(s, m, dev, log) && RoundKeys(s, m, dev, d, log)
    requires Visited(m, t, dev, qp, v) && Keyed(m, t, dev, v.ctx, Offered(d), v.reported)
    requires t.fails == s.fails
    ensures ServedAt(s, t, dev, d, log + [v], |log|)
  {
    var c := v.ctx;
    if Asked(log, c) {
      var n :| 0 <= n < |log| && log[n].ctx == c;
      assert ServedAt(s, m, dev, d, log, n) && (log + [v])[n].ctx == c;
      assert !First(log + [v], |log|);
      NothingNew(m, t, dev, d, v);
    } else {
      assert First(log + [v], |log|);
      NotAsked(s, m, dev, d, log, c);
      if v.reported {
        var k :| IsNew(m, t, k);
        assert Offers(d, k.alg) && k == Key(c, k.alg);
      }
      if Wants(s, d, c) {
        var alg :| Offers(d, alg) && Key(c, alg) !in s.cmap;
        assert alg in Offered(d) && IsNew(m, t, Key(c, alg));
      }
    }
  }

  /** A context that has not been asked has the table and the entries it had, and not the device. */
  lemma NotAsked(s: State, m: State, dev: nat, d: Device, log: seq<Visit>, c: CtxId)
    requires DevsBelow(s, dev) && Follows(s, m, dev, log) && RoundKeys(s, m, dev, d, log) && !Asked(log, c)
    ensures m.Tbl(c) == s.Tbl(c) && !HasDev(s.Tbl(c), dev)
    ensures forall alg :: Key(c, alg) in m.cmap <==> Key(c, alg) in s.cmap
  {
    assert RowIs(s.Tbl(c), m.Tbl(c), dev, log, c);
    forall alg | Key(c, alg) in m.cmap ensures Key(c, alg) in s.cmap {
      assert !IsNew(s, m, Key(c, alg));
    }
  }

  /** The place n after idx in a round of len. */
  function Around(idx: nat, n: nat, len: nat): (r: nat)
    requires idx < len && n <= len
    ensures r < len
  {
    if idx + n < len then idx + n else idx + n - len
  }

  /**
   * A device asks the receive queues in turn, from idx on, until each has been asked or the device has no more queue
   * pairs.
   */
  ghost predicate InTurn(params: seq<Param>, idx: nat, next: nat, log: seq<Visit>, max: nat)
  {
    && |log| <= |params| && (|log| == |params| || QpAt(log, |log|) == max)
    && SoFarInTurn(params, idx, next, log)
  }

  ghost predicate SoFarInTurn(params: seq<Param>, idx: nat, next: nat, log: seq<Visit>)
  {
    && |log| <= |params|
    && (params == [] ==> next == idx)
    && (params != [] ==>
          && idx < |params| && next == Around(idx, |log|, |params|)
          && forall n :: 0 <= n < |log| ==>
               var p := params[Around(idx, n, |params|)];
               log[n].ctx == CtxId(p.lcore, p.unprotected))
  }

  /** The inner loop: go on round the receive queues until the device has no more queue pairs or each has been asked. */
  method AssignDevice(s: State, dev: nat, d: Device, params: seq<Param>, idx0: nat)
    returns (t: State, qp: nat, idx: nat, ghost log: seq<Visit>)
    requires DevsBelow(s, dev) && (params != [] ==> idx0 < |params|)
    ensures Follows(s, t, dev, log) && LogOk(s, t, log, Min(d.maxQps, |params|)) && qp == QpAt(log, |log|)
    ensures RoundKeys(s, t, dev, d, log) && InTurn(params, idx0, idx, log, Min(d.maxQps, |params|))
    ensures t.conf == s.conf && qp <= Min(d.maxQps, |params|) && (params != [] ==> idx < |params|)
  {
    var max := Min(d.maxQps, |params|);
    t, qp, idx, log := s, 0, idx0, [];
    var i := 0;
    while qp < max && i < |params|
      invariant qp <= max && i == |log| <= |params|
      invariant Follows(s, t, dev, log) && LogOk(s, t, log, max) && qp == QpAt(log, |log|)
      invariant RoundKeys(s, t, dev, d, log) && SoFarInTurn(params, idx0, idx, log)
      decreases |params| - i
    {
      ghost var v;
      t, qp, v := Ask(s, t, dev, d, params[idx], qp, log, max);
      log := log + [v];
      idx := if idx + 1 == |params| then 0 else idx + 1;
      i := i + 1;
    }
  }

  /** One receive queue is asked. */
  method Ask(ghost s: State, m: State, dev: nat, d: Device, p: Param, qp: nat, ghost log: seq<Visit>, ghost max: nat)
    returns (t: State, qp': nat, ghost v: Visit)
    requires DevsBelow(s, dev) && qp == QpAt(log, |log|) < max
    requires Follows(s, m, dev, log) && LogOk(s, m, log, max) && RoundKeys(s, m, dev, d, log)
    ensures Follows(s, t, dev, log + [v]) && LogOk(s, t, log + [v], max) && RoundKeys(s, t, dev, d, log + [v])
    ensures v.ctx == p.Ctx() && qp' == QpAt(log + [v], |log| + 1) <= max
  {
    var used;
    ghost var grew;
    t, used, grew := AddCdevMapping(m, dev, d, qp, p);
    v := Visit(p.Ctx(), grew, used);
    FollowsMore(s, m, t, dev, log, v);
    LogMore(s, m, t, dev, log, v, max);
    RoundMore(s, m, t, dev, d, log, v, qp);
    qp' := if used then qp + 1 else qp;
  }

  /**
   * Queue pairs are given below `max`; and while no insert has failed, every visit that made a table grow was
   * reported.
   */
  ghost predicate LogOk(s: State, t: State, log: seq<Visit>, max: nat)
  {
    && (MapOk(s) ==> MapOk(t)) && s.fails <= t.fails && QpAt(log, |log|) <= max
    && (forall i :: 0 <= i < |log| && log[i].grew ==> QpAt(log, i) < max && (t.fails == 0 ==> log[i].reported))
  }

  lemma {:induction false} LogMore(s: State, m: State, t: State, dev: nat, log: seq<Visit>, v: Visit, max: nat)
    requires LogOk(s, m, log, max) && Visited(m, t, dev, QpAt(log, |log|), v) && QpAt(log, |log|) < max
    ensures LogOk(s, t, log + [v], max)
            && QpAt(log + [v], |log| + 1) == QpAt(log, |log|) + (if v.reported then 1 else 0)
  {
    forall i | 0 <= i <= |log| ensures QpAt(log + [v], i) == QpAt(log, i) {
      QpAtPrefix(log, v, i);
    }
  }

  /** What the logs of the devices done so far say about the assignment. */
  ghost predicate Accounted(s: State, logs: seq<seq<Visit>>, req: nat)
  {
    && MapOk(s) && DevsBelow(s, |logs|) && (forall d: nat :: d in s.conf ==> d < |logs|)
    && (Exclusive(s) <==> AllApart(logs)) && (AllConfigured(s) <==> AllCovered(logs, req))
    && (s.fails == 0 ==> AllApart(logs) && AllCovered(logs, req))
  }

  predicate AllApart(logs: seq<seq<Visit>>)
  {
    forall d :: 0 <= d < |logs| ==> Apart(logs[d])
  }

  predicate AllCovered(logs: seq<seq<Visit>>, req: nat)
  {
    forall d :: 0 <= d < |logs| ==> Covered(logs[d], req)
  }

  lemma OneMoreLog(logs: seq<seq<Visit>>, log: seq<Visit>, req: nat)
    ensures AllApart(logs + [log]) <==> AllApart(logs) && Apart(log)
    ensures AllCovered(logs + [log], req) <==> AllCovered(logs, req) && Covered(log, req)
  {
    var all := logs + [log];
    assert all[|logs|] == log && forall d :: 0 <= d < |logs| ==> all[d] == logs[d];
  }

  /** The map leads to enabled devices that offer the algorithm. */
  ghost predicate KeysLead(s: State, devs: seq<Device>)
  {
    forall k :: k in s.cmap ==> KeyLeads(s, devs, k)
  }

  ghost predicate KeyLeads(s: State, devs: seq<Device>, k: Key)
  {
    && k in s.cmap && s.cmap[k] < |s.Tbl(k.ctx)|
    && var dev := s.Tbl(k.ctx)[s.cmap[k]].dev;
       dev < |devs| && devs[dev].enabled && Offers(devs[dev], k.alg)
  }

  /** The round of a device, if it is enabled. */
  ghost predicate RoundOf(params: seq<Param>, d: Device, idx: nat, next: nat, log: seq<Visit>)
  {
    if d.enabled then InTurn(params, idx, next, log, Min(d.maxQps, |params|)) else log == [] && next == idx
  }

  /**
   * The rounds of the devices done so far, each from where the one before it stopped; and the contexts they asked have
   * what the devices offer, while no insert has failed.
   */
  ghost predicate Rounds(s: State, devs: seq<Device>, params: seq<Param>, stops: seq<nat>, logs: seq<seq<Visit>>)
  {
    && |logs| <= |devs| && |stops| == |logs| + 1 && stops[0] == 0
    && (forall e :: RoundAt(devs, params, stops, logs, e))
    && (s.fails == 0 ==> forall e :: AllServed(s, devs, logs, e))
  }

  ghost predicate RoundAt(devs: seq<Device>, params: seq<Param>, stops: seq<nat>, logs: seq<seq<Visit>>, e: nat)
    requires |logs| <= |devs| && |stops| == |logs| + 1
  {
    e < |logs| ==> RoundOf(params, devs[e], stops[e], stops[e + 1], logs[e])
  }

  ghost predicate AllServed(s: State, devs: seq<Device>, logs: seq<seq<Visit>>, e: nat)
    requires |logs| <= |devs|
  {
    e < |logs| ==> forall n :: 0 <= n < |logs[e]| ==> Served(s, e, devs[e], logs[e][n].ctx)
  }

  /** How many queue pairs a device gets configured with: those handed out, or more if more are asked for. */
  function QpsOf(d: Device, receivers: nat, req: nat, log: seq<Visit>): nat
  {
    if d.enabled then Min(Min(d.maxQps, receivers), Max(req, QpAt(log, |log|))) else 0
  }

  /** Just the devices that get any queue pairs are configured, with as many. */
  ghost predicate ConfIs(s: State, devs: seq<Device>, params: seq<Param>, req: nat, logs: seq<seq<Visit>>)
  {
    && |logs| <= |devs| && (forall e: nat :: e in s.conf ==> e < |logs|)
    && forall e: nat :: e < |logs| ==>
         var n := QpsOf(devs[e], |params|, req, logs[e]);
         if n == 0 then e !in s.conf else e in s.conf && s.conf[e] == n
  }

  /** Queue pairs of the first n devices together. */
  function TotalOf(conf: map<nat, nat>, n: nat): nat
  {
    if n == 0 then 0 else TotalOf(conf, n - 1) + (if n - 1 in conf then conf[n - 1] else 0)
  }

  lemma {:induction false} TotalStays(conf: map<nat, nat>, dev: nat, q: nat, n: nat)
    requires n <= dev
    ensures TotalOf(conf[dev := q], n) == TotalOf(conf, n)
  {
    if n > 0 {
      TotalStays(conf, dev, q, n - 1);
    }
  }

  /** All that is kept from device to device. */
  ghost predicate InitOk(s: State, devs: seq<Device>, params: seq<Param>, req: nat, stops: seq<nat>,
                         logs: seq<seq<Visit>>)
  {
    Accounted(s, logs, req) && Rounds(s, devs, params, stops, logs) && KeysLead(s, devs)
    && ConfIs(s, devs, params, req, logs)
  }

  /**
   * cryptodevs_init. Afterwards the assignment is exclusive exactly when, on every device, between any two calls
   * that gave a context the device one call was reported; and all that was given out is configured exactly when
   * each such call was reported or followed by a reported one, or more is asked for. So both hold if every insert
   * succeeded. Then too, every context that a device asked has all that the device offers; the devices ask the receive
   * queues in turn.
   */
  method CryptodevsInit(devs: seq<Device>, params: seq<Param>, req: nat)
    returns (s: State, total: nat, ghost stops: seq<nat>, ghost logs: seq<seq<Visit>>)
    ensures |logs| == |devs| && Accounted(s, logs, req)
    ensures s.fails == 0 ==> Exclusive(s) && AllConfigured(s)
    ensures Rounds(s, devs, params, stops, logs) && KeysLead(s, devs)
    ensures ConfIs(s, devs, params, req, logs) && total == TotalOf(s.conf, |devs|)
  {
    s, total, stops, logs := State(map[], map[], map[], 0), 0, [0], [];
    var idx: nat := 0;
    NothingYet(devs, params, req);
    for dev: nat := 0 to |devs|
      invariant |logs| == dev && InitOk(s, devs, params, req, stops, logs) && stops[dev] == idx
      invariant (params != [] ==> idx < |params|) && total == TotalOf(s.conf, dev)
    {
      ghost var log;
      var n;
      s, n, idx, log := OneDevice(s, dev, devs, params, req, idx, stops, logs);
      total := total + n;
      stops, logs := stops + [idx], logs + [log];
    }
  }

  /** The loop body: assign the device's queue pairs and configure as many, or as many as are asked for. */
  method OneDevice(s: State, dev: nat, devs: seq<Device>, params: seq<Param>, req: nat, idx0: nat,
                   ghost stops: seq<nat>, ghost logs: seq<seq<Visit>>)
    returns (t: State, n: nat, idx: nat, ghost log: seq<Visit>)
    requires dev < |devs| && |logs| == dev && InitOk(s, devs, params, req, stops, logs) && stops[dev] == idx0
    requires params != [] ==> idx0 < |params|
    ensures InitOk(t, devs, params, req, stops + [idx], logs + [log]) && (params != [] ==> idx < |params|)
    ensures TotalOf(t.conf, dev + 1) == TotalOf(s.conf, dev) + n
  {
    t, n, idx, log := AssignIfEnabled(s, dev, devs[dev], params, req, idx0);
    InitMore(s, t, devs, params, req, stops, logs, log, idx, n);
    TotalStays(s.conf, dev, n, dev);
    t := Configured(t, dev, n);
  }

  lemma NothingYet(devs: seq<Device>, params: seq<Param>, req: nat)
    ensures InitOk(State(map[], map[], map[], 0), devs, params, req, [0], [])
  {
  }

  /** A device's round, if it is enabled, and how many queue pairs it gets. */
  method AssignIfEnabled(s: State, dev: nat, d: Device, params: seq<Param>, req: nat, idx0: nat)
    returns (t: State, n: nat, idx: nat, ghost log: seq<Visit>)
    requires DevsBelow(s, dev) && (params != [] ==> idx0 < |params|)
    ensures Follows(s, t, dev, log) && LogOk(s, t, log, Min(d.maxQps, |params|))
    ensures RoundKeys(s, t, dev, d, log) && RoundOf(params, d, idx0, idx, log) && n == QpsOf(d, |params|, req, log)
    ensures params != [] ==> idx < |params|
  {
    t, n, idx, log := s, 0, idx0, [];
    if d.enabled {
      var qp;
      t, qp, idx, log := AssignDevice(s, dev, d, params, idx0);
      n := Min(Min(d.maxQps, |params|), Max(req, qp));
    }
  }

  lemma InitMore(s: State, m: State, devs: seq<Device>, params: seq<Param>, req: nat, stops: seq<nat>,
                 logs: seq<seq<Visit>>, log: seq<Visit>, idx: nat, n: nat)
    requires |logs| < |devs| && InitOk(s, devs, params, req, stops, logs)
    requires Follows(s, m, |logs|, log) && LogOk(s, m, log, Min(devs[|logs|].maxQps, |params|))
    requires RoundKeys(s, m, |logs|, devs[|logs|], log) && RoundOf(params, devs[|logs|], stops[|logs|], idx, log)
    requires n == QpsOf(devs[|logs|], |params|, req, log)
    ensures InitOk(Configured(m, |logs|, n), devs, params, req, stops + [idx], logs + [log])
  {
    DeviceDone(s, m, logs, log, req, Min(devs[|logs|].maxQps, |params|), n);
    RoundDone(s, m, devs, params, stops, logs, log, idx, n);
    ConfDone(s, m, devs, params, req, logs, log, n);
  }

  lemma ConfDone(s: State, m: State, devs: seq<Device>, params: seq<Param>, req: nat, logs: seq<seq<Visit>>,
                 log: seq<Visit>, n: nat)
    requires |logs| < |devs| && ConfIs(s, devs, params, req, logs) && m.conf == s.conf
    requires n == QpsOf(devs[|logs|], |params|, req, log)
    ensures ConfIs(Configured(m, |logs|, n), devs, params, req, logs + [log])
  {
    assert forall e :: 0 <= e < |logs| ==> (logs + [log])[e] == logs[e];
  }

  lemma RoundDone(s: State, m: State, devs: seq<Device>, params: seq<Param>, stops: seq<nat>, logs: seq<seq<Visit>>,
                  log: seq<Visit>, idx: nat, n: nat)
    requires |logs| < |devs| && Rounds(s, devs, params, stops, logs) && KeysLead(s, devs) && DevsBelow(s, |logs|)
    requires Follows(s, m, |logs|, log) && RoundKeys(s, m, |logs|, devs[|logs|], log)
    requires RoundOf(params, devs[|logs|], stops[|logs|], idx, log)
    ensures var t := Configured(m, |logs|, n);
            Rounds(t, devs, params, stops + [idx], logs + [log]) && KeysLead(t, devs)
  {
    var t, dev := Configured(m, |logs|, n), |logs|;
    var more, on := logs + [log], stops + [idx];
    forall e: nat ensures RoundAt(devs, params, on, more, e) {
      assert RoundAt(devs, params, stops, logs, e);
    }
    LeadsDone(s, m, devs, params, stops[dev], dev, log, idx, n);
    if t.fails == 0 {
      forall e: nat ensures AllServed(t, devs, more, e) {
        assert AllServed(s, devs, logs, e);
        ServedAll(s, m, t, devs, logs, log, e);
      }
    }
  }

  lemma ServedAll(s: State, m: State, t: State, devs: seq<Device>, logs: seq<seq<Visit>>, log: seq<Visit>, e: nat)
    requires |logs| < |devs| && AllServed(s, devs, logs, e) && m.fails == s.fails
    requires Follows(s, m, |logs|, log) && RoundKeys(s, m, |logs|, devs[|logs|], log)
    requires t.cmap == m.cmap && forall c: CtxId :: t.Tbl(c) == m.Tbl(c)
    ensures AllServed(t, devs, logs + [log], e)
  {
    var more: seq<seq<Visit>>, dev := logs + [log], |logs|;
    if e <= dev {
      forall i | 0 <= i < |more[e]| ensures Served(t, e, devs[e], more[e][i].ctx) {
        if e < dev {
          ServedLater(s, m, dev, devs[dev], log, e, devs[e], more[e][i].ctx);
        } else {
          assert ServedAt(s, m, dev, devs[dev], log, i);
        }
      }
    }
  }

  lemma LeadsDone(s: State, m: State, devs: seq<Device>, params: seq<Param>, start: nat, dev: nat, log: seq<Visit>,
                  idx: nat, n: nat)
    requires dev < |devs| && KeysLead(s, devs) && DevsBelow(s, dev)
    requires Follows(s, m, dev, log) && RoundKeys(s, m, dev, devs[dev], log)
    requires RoundOf(params, devs[dev], start, idx, log)
    ensures KeysLead(Configured(m, dev, n), devs)
  {
    var t := Configured(m, dev, n);
    forall k | k in t.cmap ensures KeyLeads(t, devs, k) {
      if k in s.cmap {
        assert KeyLeads(s, devs, k) && RowIs(s.Tbl(k.ctx), m.Tbl(k.ctx), dev, log, k.ctx);
      } else {
        assert IsNew(s, m, k);
        NewKeyEnabled(params, devs[dev], start, idx, log, k.ctx);
      }
    }
  }

  lemma NewKeyEnabled(params: seq<Param>, d: Device, idx: nat, next: nat, log: seq<Visit>, c: CtxId)
    requires RoundOf(params, d, idx, next, log) && Asked(log, c)
    ensures d.enabled
  {
  }

  lemma ServedLater(s: State, m: State, dev: nat, d: Device, log: seq<Visit>, e: nat, de: Device, c: CtxId)
    requires Follows(s, m, dev, log) && RoundKeys(s, m, dev, d, log) && e < dev && Served(s, e, de, c)
    ensures Served(m, e, de, c)
  {
    assert RowIs(s.Tbl(c), m.Tbl(c), dev, log, c);
  }

  /** The state once a device has been configured with n queue pairs, if with any. */
  function Configured(m: State, dev: nat, n: nat): (t: State)
    ensures forall c :: t.Tbl(c) == m.Tbl(c)
  {
    if n != 0 then m.(conf := m.conf[dev := n]) else m
  }

  lemma {:induction false} DeviceDone(s: State, m: State, logs: seq<seq<Visit>>, log: seq<Visit>, req: nat, max: nat,
                                      n: nat)
    requires Accounted(s, logs, req) && Follows(s, m, |logs|, log) && LogOk(s, m, log, max)
    requires n == Min(max, Max(req, QpAt(log, |log|))) || (log == [] && n == 0)
    ensures Accounted(Configured(m, |logs|, n), logs + [log], req)
  {
    DevsStayBelow(s, m, |logs|, log, n);
    ExclusiveDone(s, m, logs, log, req, n);
    ConfiguredDone(s, m, logs, log, req, max, n);
    SuccessDone(s, m, logs, log, req, max);
  }

  lemma ExclusiveDone(s: State, m: State, logs: seq<seq<Visit>>, log: seq<Visit>, req: nat, n: nat)
    requires DevsBelow(s, |logs|) && Follows(s, m, |logs|, log) && (Exclusive(s) <==> AllApart(logs))
    ensures var t := Configured(m, |logs|, n);
            (Exclusive(t) <==> AllApart(logs + [log])) && (MapOk(m) ==> MapOk(t))
  {
    ExclusiveIff(s, m, |logs|, log);
    SamePlaces(m, Configured(m, |logs|, n));
    OneMoreLog(logs, log, req);
  }

  lemma {:induction false} ConfiguredDone(s: State, m: State, logs: seq<seq<Visit>>, log: seq<Visit>, req: nat,
                                          max: nat, n: nat)
    requires DevsBelow(s, |logs|) && (forall d: nat :: d in s.conf ==> d < |logs|)
    requires Follows(s, m, |logs|, log) && LogOk(s, m, log, max) && (AllConfigured(s) <==> AllCovered(logs, req))
    requires n == Min(max, Max(req, QpAt(log, |log|))) || (log == [] && n == 0)
    ensures AllConfigured(Configured(m, |logs|, n)) <==> AllCovered(logs + [log], req)
  {
    ConfiguredIff(s, m, logs, log, req, max, n);
    OneMoreLog(logs, log, req);
  }

  lemma SuccessDone(s: State, m: State, logs: seq<seq<Visit>>, log: seq<Visit>, req: nat, max: nat)
    requires LogOk(s, m, log, max) && (s.fails == 0 ==> AllApart(logs) && AllCovered(logs, req))
    ensures m.fails == 0 ==> AllApart(logs + [log]) && AllCovered(logs + [log], req)
  {
    OneMoreLog(logs, log, req);
    if m.fails == 0 {
      GrowthReported(s, m, log, req, max);
    }
  }

  lemma DevsStayBelow(s: State, m: State, dev: nat, log: seq<Visit>, n: nat)
    requires DevsBelow(s, dev) && Follows(s, m, dev, log)
    ensures DevsBelow(Configured(m, dev, n), dev + 1)
  {
    forall c, a | 0 <= a < |m.Tbl(c)| ensures m.Tbl(c)[a].dev < dev + 1 {
      var i := RowAt(s, m, dev, log, c, a);
    }
  }

  lemma SamePlaces(m: State, t: State)
    requires t.cmap == m.cmap && forall c: CtxId :: t.Tbl(c) == m.Tbl(c)
    ensures (Exclusive(t) <==> Exclusive(m)) && (MapOk(m) ==> MapOk(t))
  {
    assert forall c, i: nat, d, j: nat :: OnlyHere(t, c, i, d, j) <==> OnlyHere(m, c, i, d, j);
  }

  lemma GrowthReported(s: State, m: State, log: seq<Visit>, req: nat, max: nat)
    requires LogOk(s, m, log, max) && m.fails == 0
    ensures Apart(log) && Covered(log, req)
  {
  }

  lemma {:induction false} ConfiguredIff(s: State, m: State, logs: seq<seq<Visit>>, log: seq<Visit>, req: nat,
                                         max: nat, n: nat)
    requires DevsBelow(s, |logs|) && (forall d: nat :: d in s.conf ==> d < |logs|)
    requires Follows(s, m, |logs|, log) && LogOk(s, m, log, max)
    requires n == Min(max, Max(req, QpAt(log, |log|))) || (log == [] && n == 0)
    ensures AllConfigured(Configured(m, |logs|, n)) <==> AllConfigured(s) && Covered(log, req)
  {
    var t, dev := Configured(m, |logs|, n), |logs|;
    if AllConfigured(t) {
      forall c, a: nat ensures IsConfigured(s, c, a) {
        assert RowIs(s.Tbl(c), m.Tbl(c), dev, log, c);
        assert IsConfigured(t, c, a);
      }
      forall i | 0 <= i < |log| && log[i].grew ensures req > QpAt(log, i) || ReportedIn(log, i, |log|) {
        RowOf(s, m, dev, log, i);
        var c := log[i].ctx;
        assert t.Tbl(c)[|s.Tbl(c)|] == Pair(dev, QpAt(log, i)) && IsConfigured(t, c, |s.Tbl(c)|);
        QpAtGrows(log, i, |log|);
      }
    }
    if AllConfigured(s) && Covered(log, req) {
      forall c, a: nat ensures IsConfigured(t, c, a) {
        if a < |t.Tbl(c)| {
          var i := RowAt(s, m, dev, log, c, a);
          if a < |s.Tbl(c)| {
            assert IsConfigured(s, c, a);
          } else {
            QpAtGrows(log, i, |log|);
          }
        }
      }
    }
  }

  /** One failed insert is enough for two lcores to be given the same queue pair. */
  lemma {:induction false} FailedInsertShares()
    ensures var a, b := CtxId(0, true), CtxId(1, true);
            var (s, r) := Mapped(State(map[], map[], map[], 0), 0, 0, a, Aead(1), true);
            var (t, q) := Mapped(s, 0, 0, b, Aead(1), false);
            !r && q && t.Tbl(a) == [Pair(0, 0)] && t.Tbl(b) == [Pair(0, 0)] && !Exclusive(t)
  {
    var a, b := CtxId(0, true), CtxId(1, true);
    var (s, r) := Mapped(State(map[], map[], map[], 0), 0, 0, a, Aead(1), true);
    var (t, q) := Mapped(s, 0, 0, b, Aead(1), false);
    assert !OnlyHere(t, a, 0, b, 0);
  }
}
