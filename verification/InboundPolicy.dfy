/**
 * Policy enforcement on received traffic: the filter that compacts the traffic array in place (ipsec-secgw.c,
 * sa.c).
 */
module InboundPolicy {
  import opened Common
  import PolicyBinding

  /** A packet as the filter sees it: inline hardware has processed it, and the SPI of the SA saved with it, if any. */
  datatype InPkt = InPkt(id: nat, secOffload: bool, sa: Option<nat>)

  datatype Stats = Stats(protect: nat, bypass: nat, discard: nat)

  /** inbound_sa_check. */
  predicate SaCheck(spis: seq<nat>, p: InPkt, at: nat)
    requires at < |spis|
  {
    p.sa.Some? && spis[at] == p.sa.value
  }

  /** The verdict on a packet: `clear` says that it came before the decapsulated ones. */
  predicate Passes(acl: InPkt -> nat, spis: seq<nat>, p: InPkt, clear: bool)
    requires InTable(acl, spis, p)
  {
    || acl(p) == BYPASS
    || (acl(p) != DISCARD && (clear ==> p.secOffload) && SaCheck(spis, p, acl(p) - 1))
  }

  /** Results that are neither name a position of the SA table by number plus one. */
  predicate InTable(acl: InPkt -> nat, spis: seq<nat>, p: InPkt)
  {
    acl(p) != DISCARD && acl(p) != BYPASS ==> acl(p) - 1 < |spis|
  }

  predicate AllInTable(acl: InPkt -> nat, spis: seq<nat>, ps: seq<InPkt>)
  {
    forall i :: 0 <= i < |ps| ==> InTable(acl, spis, ps[i])
  }

  /** How many of the first n packets pass. */
  function Rank(acl: InPkt -> nat, spis: seq<nat>, ps: seq<InPkt>, lim: nat, n: nat): (r: nat)
    requires n <= |ps| && AllInTable(acl, spis, ps)
    ensures r <= n
  {
    if n == 0 then 0
    else Rank(acl, spis, ps, lim, n - 1) + (if Passes(acl, spis, ps[n - 1], n - 1 < lim) then 1 else 0)
  }

  /** How many of the first n are let through without IPsec. */
  function Bypassed(acl: InPkt -> nat, ps: seq<InPkt>, n: nat): nat
    requires n <= |ps|
  {
    if n == 0 then 0 else Bypassed(acl, ps, n - 1) + (if acl(ps[n - 1]) == BYPASS then 1 else 0)
  }

  /** The packets among the first n that pass, or that do not, in order. */
  function Chosen(acl: InPkt -> nat, spis: seq<nat>, ps: seq<InPkt>, lim: nat, n: nat, pass: bool): seq<InPkt>
    requires n <= |ps| && AllInTable(acl, spis, ps)
  {
    if n == 0 then []
    else
      Chosen(acl, spis, ps, lim, n - 1, pass)
      + (if Passes(acl, spis, ps[n - 1], n - 1 < lim) == pass then [ps[n - 1]] else [])
  }

  /** Every packet that passes is at the place its rank gives it; there are no others. */
  predicate Filtered(acl: InPkt -> nat, spis: seq<nat>, ps: seq<InPkt>, lim: nat, n: nat, out: seq<InPkt>)
    requires n <= |ps| && AllInTable(acl, spis, ps)
  {
    && |out| == Rank(acl, spis, ps, lim, n)
    && forall i :: 0 <= i < n && Passes(acl, spis, ps[i], i < lim) ==>
         Rank(acl, spis, ps, lim, i) < |out| && out[Rank(acl, spis, ps, lim, i)] == ps[i]
  }

  /** The same for those that do not pass. */
  predicate Removed(acl: InPkt -> nat, spis: seq<nat>, ps: seq<InPkt>, lim: nat, n: nat, out: seq<InPkt>)
    requires n <= |ps| && AllInTable(acl, spis, ps)
  {
    && |out| == n - Rank(acl, spis, ps, lim, n)
    && forall i :: 0 <= i < n && !Passes(acl, spis, ps[i], i < lim) ==>
         0 <= i - Rank(acl, spis, ps, lim, i) < |out| && out[i - Rank(acl, spis, ps, lim, i)] == ps[i]
  }

  lemma {:induction false} ChosenCount(acl: InPkt -> nat, spis: seq<nat>, ps: seq<InPkt>, lim: nat, n: nat)
    requires n <= |ps| && AllInTable(acl, spis, ps)
    ensures |Chosen(acl, spis, ps, lim, n, true)| == Rank(acl, spis, ps, lim, n)
    ensures |Chosen(acl, spis, ps, lim, n, false)| == n - Rank(acl, spis, ps, lim, n)
  {
    if n > 0 {
      ChosenCount(acl, spis, ps, lim, n - 1);
    }
  }

  lemma {:induction false} ChosenAt(acl: InPkt -> nat, spis: seq<nat>, ps: seq<InPkt>, lim: nat, i: nat, n: nat,
                                    pass: bool)
    requires i < n <= |ps| && AllInTable(acl, spis, ps) && Passes(acl, spis, ps[i], i < lim) == pass
    ensures var at := if pass then Rank(acl, spis, ps, lim, i) else i - Rank(acl, spis, ps, lim, i);
            at < |Chosen(acl, spis, ps, lim, n, pass)| && Chosen(acl, spis, ps, lim, n, pass)[at] == ps[i]
  {
    if i < n - 1 {
      ChosenAt(acl, spis, ps, lim, i, n - 1, pass);
    } else {
      ChosenCount(acl, spis, ps, lim, i);
    }
  }

  /** What is chosen is neither lost, nor doubled, nor out of order. */
  lemma ChosenByRank(acl: InPkt -> nat, spis: seq<nat>, ps: seq<InPkt>, lim: nat, n: nat)
    requires n <= |ps| && AllInTable(acl, spis, ps)
    ensures Filtered(acl, spis, ps, lim, n, Chosen(acl, spis, ps, lim, n, true))
    ensures Removed(acl, spis, ps, lim, n, Chosen(acl, spis, ps, lim, n, false))
  {
    ChosenCount(acl, spis, ps, lim, n);
    forall i | 0 <= i < n
      ensures var p, r := Passes(acl, spis, ps[i], i < lim), Rank(acl, spis, ps, lim, i);
              var out := Chosen(acl, spis, ps, lim, n, p);
              var at := if p then r else i - r;
              at < |out| && out[at] == ps[i]
    {
      ChosenAt(acl, spis, ps, lim, i, n, Passes(acl, spis, ps[i], i < lim));
    }
  }

  /**
   * inbound_sp_sa. Without a table, or without packets, nothing happens. Otherwise the array keeps, in order, exactly
   * the packets that pass, the others are freed in order, and the counters account for every packet.
   */
  method InboundSpSa(acl: Option<InPkt -> nat>, spis: seq<nat>, pkts: array<InPkt>, num: nat, lim: nat, stats: Stats)
    returns (num': nat, freed: seq<InPkt>, stats': Stats)
    requires num <= pkts.Length && (acl.Some? ==> AllInTable(acl.value, spis, pkts[..num]))
    modifies pkts
    ensures num' <= num && pkts[num..] == old(pkts[num..])
    ensures acl.None? ==> num' == num && freed == [] && stats' == stats && pkts[..] == old(pkts[..])
    ensures acl.Some? ==> pkts[..num'] == Chosen(acl.value, spis, old(pkts[..num]), lim, num, true)
    ensures acl.Some? ==> freed == Chosen(acl.value, spis, old(pkts[..num]), lim, num, false)
    ensures acl.Some? ==>
      var b := Bypassed(acl.value, old(pkts[..num]), num);
      b <= num' && stats' == Stats(stats.protect + (num' - b), stats.bypass + b, stats.discard + (num - num'))
  {
    freed, stats', num' := [], stats, num;
    if num == 0 || acl.None? {
      return;
    }
    ghost var was := pkts[..num];
    var classify := acl.value;
    var j := 0;
    for i := 0 to num
      invariant j <= i && pkts[i..] == old(pkts[i..])
      invariant pkts[..j] == Chosen(classify, spis, was, lim, i, true)
      invariant freed == Chosen(classify, spis, was, lim, i, false)
      invariant Bypassed(classify, was, i) <= j
      invariant stats' == Stats(stats.protect + (j - Bypassed(classify, was, i)),
                                stats.bypass + Bypassed(classify, was, i), stats.discard + (i - j))
    {
      var m := pkts[i];
      assert m == was[i] && InTable(classify, spis, was[i]);
      var res := classify(m);
      ghost var kept := pkts[..j];
      if res == BYPASS {
        pkts[j] := m;
        assert pkts[..j + 1] == kept + [m];
        j := j + 1;
        stats' := stats'.(bypass := stats'.bypass + 1);
      } else if res == DISCARD || (i < lim && !m.secOffload) || !SaCheck(spis, m, res - 1) {
        freed := freed + [m];
        stats' := stats'.(discard := stats'.discard + 1);
      } else {
        pkts[j] := m;
        assert pkts[..j + 1] == kept + [m];
        j := j + 1;
        stats' := stats'.(protect := stats'.protect + 1);
      }
    }
    num' := j;
  }

  /** Two arrays filtered from the same one are equal: the contract of InboundSpSa leaves no choice. */
  lemma OneFilter(acl: InPkt -> nat, spis: seq<nat>, ps: seq<InPkt>, lim: nat, n: nat, a: seq<InPkt>, b: seq<InPkt>)
    requires n <= |ps| && AllInTable(acl, spis, ps)
    requires Filtered(acl, spis, ps, lim, n, a) && Filtered(acl, spis, ps, lim, n, b)
    ensures a == b
  {
    forall k | 0 <= k < |a| ensures a[k] == b[k] {
      var i := Unrank(acl, spis, ps, lim, n, k);
    }
  }

  /** The packet that comes to place k. */
  lemma {:induction false} Unrank(acl: InPkt -> nat, spis: seq<nat>, ps: seq<InPkt>, lim: nat, n: nat, k: nat)
    returns (i: nat)
    requires n <= |ps| && AllInTable(acl, spis, ps) && k < Rank(acl, spis, ps, lim, n)
    ensures i < n && Passes(acl, spis, ps[i], i < lim) && Rank(acl, spis, ps, lim, i) == k
  {
    if k < Rank(acl, spis, ps, lim, n - 1) {
      i := Unrank(acl, spis, ps, lim, n - 1, k);
    } else {
      i := n - 1;
    }
  }

  /**
   * What the filter enforces: with the rules bound to the SA table, a packet stays exactly when its rule says bypass,
   * or when it was processed by IPsec under an SA with the very SPI that its rule named; a packet that came in the
   * clear, and that no hardware processed, can only stay by a bypass rule.
   */
  lemma EnforcesPolicy(spis: seq<PolicyBinding.Key>, rules: seq<PolicyBinding.Rule>, winner: Option<nat>,
                       acl: InPkt -> nat, p: InPkt, clear: bool)
    requires |spis| < PolicyBinding.FULL - 1 && (winner.Some? ==> winner.value < |rules|)
    requires forall i :: 0 <= i < |rules| ==> PolicyBinding.Bind(spis, rules[i].userdata).Some?
    requires acl(p) == PolicyBinding.Classify(PolicyBinding.Rebind(spis, rules), winner)
    ensures InTable(acl, spis, p)
    ensures var named := PolicyBinding.Classify(rules, winner);
            Passes(acl, spis, p, clear) <==> (named == BYPASS
                || (named != DISCARD && (clear ==> p.secOffload) && p.sa == Some(named)))
  {
    PolicyBinding.VerdictIsBound(spis, rules, winner);
    if winner.Some? {
      var d := rules[winner.value].userdata;
      assert PolicyBinding.Bind(spis, d).Some?;
    }
  }
}
