/**
 * How a policy rule that names an SPI comes to mean an SA: sorting and searching under a comparator that wraps around,
 * copying the SAs, and rewriting the rules from SPIs to table positions (sa.c, sp4.c, sp6.c).
 */
module PolicyBinding {
  import opened Bytes
  import opened PacketBuffer
  import opened Common
  import opened CryptoDev
  import Traffic
  import Ipip
  import Esp

  const HALF: nat := 0x8000_0000
  const FULL: nat := 0x1_0000_0000

  /** A 32-bit key. */
  type Key = n: nat | n < 0x1_0000_0000

  /** a - b in 32 bits. */
  function Minus(a: Key, b: Key): Key
  {
    if a >= b then a - b else a + FULL - b
  }

  /** sa_cmp and sp_cmp: the difference as a signed 32-bit number. */
  function Cmp(a: Key, b: Key): int
  {
    if Minus(a, b) < HALF then Minus(a, b) else Minus(a, b) - FULL
  }

  predicate Less(a: Key, b: Key)
  {
    Cmp(a, b) < 0
  }

  /** The comparator orders these keys: never both ways round, and transitively. */
  predicate Orders(keys: set<Key>)
  {
    && (forall a, b :: a in keys && b in keys ==> !(Less(a, b) && Less(b, a)))
    && (forall a, b, c :: a in keys && b in keys && c in keys && Less(a, b) && Less(b, c) ==> Less(a, c))
  }

  /** Going up from `base`, all keys come within half the circle. */
  predicate HalfCircle(keys: set<Key>, base: Key)
  {
    forall k :: k in keys ==> Minus(k, base) < HALF
  }

  /** Within half a circle the comparator compares distances from its start. */
  lemma ComparesDistances(a: Key, b: Key, base: Key)
    requires Minus(a, base) < HALF && Minus(b, base) < HALF
    ensures Cmp(a, b) == Minus(a, base) - Minus(b, base)
  {
  }

  /** A non-empty set that is ordered has a least element. */
  lemma {:induction false} LeastKey(keys: set<Key>) returns (m: Key)
    requires keys != {} && Orders(keys)
    ensures m in keys && forall k :: k in keys && k != m ==> Less(m, k)
    decreases |keys|
  {
    var x :| x in keys;
    var rest := keys - {x};
    assert forall k :: k in keys ==> k == x || k in rest;
    if rest == {} {
      m := x;
    } else {
      var r := LeastKey(rest);
      m := if Less(x, r) then x else r;
      forall k | k in keys && k != m ensures Less(m, k) {
        if k != x && k != r {
          assert k in rest && Less(r, k);
          assert x in keys && r in keys && k in keys;
        }
      }
    }
  }

  /** The comparator is a total order on a set of keys exactly when the set fits into half of the 32-bit circle. */
  lemma OrdersIffHalfCircle(keys: set<Key>)
    ensures Orders(keys) <==> exists base: Key :: HalfCircle(keys, base)
  {
    if Orders(keys) {
      if keys == {} {
        var zero: Key := 0;
        assert HalfCircle(keys, zero);
      } else {
        var m := LeastKey(keys);
        forall k | k in keys ensures Minus(k, m) < HALF {
          assert k != m ==> Less(m, k) && !Less(k, m);
        }
        assert HalfCircle(keys, m);
      }
    }
    if base: Key :| HalfCircle(keys, base) {
      forall a, b | a in keys && b in keys ensures !(Less(a, b) && Less(b, a)) {
        ComparesDistances(a, b, base);
        ComparesDistances(b, a, base);
      }
      forall a, b, c | a in keys && b in keys && c in keys && Less(a, b) && Less(b, c) ensures Less(a, c) {
        ComparesDistances(a, b, base);
        ComparesDistances(b, c, base);
        ComparesDistances(a, c, base);
      }
    }
  }

  /** Three SPIs around the circle that the comparator puts in a cycle. */
  lemma KeysInACycle()
    ensures Less(1, 0x6000_0001) && Less(0x6000_0001, 0xC000_0001) && Less(0xC000_0001, 1)
    ensures !Orders({1, 0x6000_0001, 0xC000_0001})
  {
    var a: Key, b: Key, c: Key := 1, 0x6000_0001, 0xC000_0001;
    var keys: set<Key> := {a, b, c};
    assert a in keys && b in keys && c in keys && Less(a, b) && Less(b, c) && !Less(a, c);
  }

  /** What bsearch finds between positions lo and hi. */
  function Search(keys: seq<Key>, key: Key, lo: nat, hi: nat): Option<nat>
    requires lo <= hi <= |keys|
    decreases hi - lo
  {
    if lo == hi then None
    else
      var mid := (lo + hi) / 2;
      if Cmp(key, keys[mid]) < 0 then Search(keys, key, lo, mid)
      else if Cmp(key, keys[mid]) > 0 then Search(keys, key, mid + 1, hi)
      else Some(mid)
  }

  function Find(keys: seq<Key>, key: Key): Option<nat>
  {
    Search(keys, key, 0, |keys|)
  }

  /** bsearch, as sa_spi_present and sp4_spi_present use it. */
  method BSearch(keys: array<Key>, key: Key) returns (r: Option<nat>)
    ensures r == Find(keys[..], key)
  {
    var lo, hi := 0, keys.Length;
    while lo < hi
      invariant lo <= hi <= keys.Length && Search(keys[..], key, lo, hi) == Find(keys[..], key)
    {
      var mid := (lo + hi) / 2;
      var c := Cmp(key, keys[mid]);
      if c < 0 {
        hi := mid;
      } else if c > 0 {
        lo := mid + 1;
      } else {
        return Some(mid);
      }
    }
    r := None;
  }

  /** Whatever the array holds, what is found has the key. */
  lemma {:induction false} FoundHasKey(keys: seq<Key>, key: Key, lo: nat, hi: nat)
    requires lo <= hi <= |keys|
    ensures Search(keys, key, lo, hi).Some? ==>
      lo <= Search(keys, key, lo, hi).value < hi && keys[Search(keys, key, lo, hi).value] == key
    decreases hi - lo
  {
    if lo < hi {
      var mid := (lo + hi) / 2;
      FoundHasKey(keys, key, lo, mid);
      FoundHasKey(keys, key, mid + 1, hi);
    }
  }

  function KeySet(keys: seq<Key>): set<Key>
  {
    set k | k in keys
  }

  /** What qsort promises when the comparator is an order: no later element is less. */
  predicate Sorted(keys: seq<Key>)
  {
    forall i, j :: 0 <= i < j < |keys| ==> !Less(keys[j], keys[i])
  }

  /** In a sorted array within half a circle, a key that is there is found. */
  lemma {:induction false} PresentIsFound(keys: seq<Key>, key: Key, base: Key, lo: nat, hi: nat, at: nat)
    requires HalfCircle(KeySet(keys), base) && Sorted(keys)
    requires lo <= at < hi <= |keys| && keys[at] == key
    ensures Search(keys, key, lo, hi).Some?
    decreases hi - lo
  {
    var mid := (lo + hi) / 2;
    assert key in KeySet(keys) && keys[mid] in KeySet(keys);
    ComparesDistances(key, keys[mid], base);
    ComparesDistances(keys[mid], key, base);
    if Cmp(key, keys[mid]) < 0 {
      assert at < mid;
      PresentIsFound(keys, key, base, lo, mid, at);
    } else if Cmp(key, keys[mid]) > 0 {
      assert at > mid;
      PresentIsFound(keys, key, base, mid + 1, hi, at);
    }
  }

  /** So there the search is exact. */
  lemma FindExact(keys: seq<Key>, key: Key, base: Key)
    requires HalfCircle(KeySet(keys), base) && Sorted(keys)
    ensures Find(keys, key).Some? <==> key in keys
    ensures Find(keys, key).Some? ==> Find(keys, key).value < |keys| && keys[Find(keys, key).value] == key
  {
    FoundHasKey(keys, key, 0, |keys|);
    if key in keys {
      var at :| 0 <= at < |keys| && keys[at] == key;
      PresentIsFound(keys, key, base, 0, |keys|, at);
    }
  }

  /** The search for the key at position i, between lo and hi, is never led away from it. */
  predicate OnPath(keys: seq<Key>, lo: nat, hi: nat, i: nat)
    requires lo <= i < hi <= |keys|
    decreases hi - lo
  {
    var mid := (lo + hi) / 2;
    var c := Cmp(keys[i], keys[mid]);
    || c == 0
    || (i < mid && c < 0 && OnPath(keys, lo, mid, i))
    || (i > mid && c > 0 && OnPath(keys, mid + 1, hi, i))
  }

  /** In any array whatever, a key is found exactly when the search is not led away from one of its places. */
  lemma {:induction false} FoundIffOnPath(keys: seq<Key>, key: Key, lo: nat, hi: nat)
    requires lo <= hi <= |keys|
    ensures Search(keys, key, lo, hi).Some? <==> exists i :: lo <= i < hi && keys[i] == key && OnPath(keys, lo, hi, i)
    decreases hi - lo
  {
    if lo < hi {
      var mid := (lo + hi) / 2;
      FoundIffOnPath(keys, key, lo, mid);
      FoundIffOnPath(keys, key, mid + 1, hi);
      if Cmp(key, keys[mid]) == 0 {
        assert keys[mid] == key && OnPath(keys, lo, hi, mid);
      } else if Search(keys, key, lo, hi).Some? {
        var i :| lo <= i < hi && keys[i] == key
                 && if Cmp(key, keys[mid]) < 0 then i < mid && OnPath(keys, lo, mid, i)
                    else mid < i && OnPath(keys, mid + 1, hi, i);
        assert OnPath(keys, lo, hi, i);
      }
    }
  }

  /** No key to the left of the probed one compares above it, and none to the right below it. */
  predicate Parts(keys: seq<Key>, lo: nat, mid: nat, hi: nat)
    requires lo <= mid < hi <= |keys|
  {
    && (forall i :: lo <= i < mid ==> Cmp(keys[i], keys[mid]) <= 0)
    && (forall i :: mid < i < hi ==> Cmp(keys[i], keys[mid]) >= 0)
  }

  /** So at each probe that a search can come to. */
  predicate Partitioned(keys: seq<Key>, lo: nat, hi: nat)
    requires lo <= hi <= |keys|
    decreases hi - lo
  {
    || lo == hi
    || (Parts(keys, lo, (lo + hi) / 2, hi) && Partitioned(keys, lo, (lo + hi) / 2)
       && Partitioned(keys, (lo + hi) / 2 + 1, hi))
  }

  predicate Distinct(keys: seq<Key>)
  {
    forall i, j :: 0 <= i < j < |keys| ==> keys[i] != keys[j]
  }

  predicate AllOnPath(keys: seq<Key>, lo: nat, hi: nat)
    requires lo <= hi <= |keys|
  {
    forall i :: lo <= i < hi ==> OnPath(keys, lo, hi, i)
  }

  /** One step of the path, for a key other than the probed one. */
  lemma PathStep(keys: seq<Key>, lo: nat, hi: nat, i: nat)
    requires lo <= i < hi <= |keys| && keys[i] != keys[(lo + hi) / 2]
    ensures var mid := (lo + hi) / 2;
            (OnPath(keys, lo, hi, i)
             <==> (if i < mid then Cmp(keys[i], keys[mid]) <= 0 && OnPath(keys, lo, mid, i)
                   else mid < i && Cmp(keys[i], keys[mid]) >= 0 && OnPath(keys, mid + 1, hi, i)))
  {
    OnlyEqual(keys[i], keys[(lo + hi) / 2]);
  }

  lemma OnlyEqual(a: Key, b: Key)
    ensures Cmp(a, b) == 0 <==> a == b
  {
  }

  lemma {:induction false} PartitionedOnPath(keys: seq<Key>, lo: nat, hi: nat, i: nat)
    requires lo <= i < hi <= |keys| && Distinct(keys) && Partitioned(keys, lo, hi)
    ensures OnPath(keys, lo, hi, i)
    decreases hi - lo
  {
    var mid := (lo + hi) / 2;
    if i < mid {
      PartitionedOnPath(keys, lo, mid, i);
      PathStep(keys, lo, hi, i);
    } else if i > mid {
      PartitionedOnPath(keys, mid + 1, hi, i);
      PathStep(keys, lo, hi, i);
    }
  }

  lemma {:induction false} OnPathPartitioned(keys: seq<Key>, lo: nat, hi: nat)
    requires lo <= hi <= |keys| && Distinct(keys) && AllOnPath(keys, lo, hi)
    ensures Partitioned(keys, lo, hi)
    decreases hi - lo
  {
    if lo < hi {
      PathHalves(keys, lo, (lo + hi) / 2, hi);
      OnPathPartitioned(keys, lo, (lo + hi) / 2);
      OnPathPartitioned(keys, (lo + hi) / 2 + 1, hi);
    }
  }

  lemma PathHalves(keys: seq<Key>, lo: nat, mid: nat, hi: nat)
    requires lo < hi <= |keys| && mid == (lo + hi) / 2 && Distinct(keys) && AllOnPath(keys, lo, hi)
    ensures Parts(keys, lo, mid, hi) && AllOnPath(keys, lo, mid) && AllOnPath(keys, mid + 1, hi)
  {
    forall i | lo <= i < mid ensures Cmp(keys[i], keys[mid]) <= 0 && OnPath(keys, lo, mid, i) {
      PathStep(keys, lo, hi, i);
    }
    forall i | mid < i < hi ensures Cmp(keys[i], keys[mid]) >= 0 && OnPath(keys, mid + 1, hi, i) {
      PathStep(keys, lo, hi, i);
    }
  }

  lemma FoundThere(keys: seq<Key>, i: nat)
    requires i < |keys| && Distinct(keys)
    ensures Find(keys, keys[i]).Some? <==> OnPath(keys, 0, |keys|, i)
  {
    FoundIffOnPath(keys, keys[i], 0, |keys|);
    assert forall j :: 0 <= j < |keys| && keys[j] == keys[i] ==> j == i;
  }

  /** So every key of an array without duplicates is found exactly when the array is partitioned, sorted or not. */
  lemma AllFoundIff(keys: seq<Key>)
    requires Distinct(keys)
    ensures (forall k :: k in keys ==> Find(keys, k).Some?) <==> Partitioned(keys, 0, |keys|)
  {
    if forall k :: k in keys ==> Find(keys, k).Some? {
      forall i | 0 <= i < |keys| ensures OnPath(keys, 0, |keys|, i) {
        assert keys[i] in keys;
        FoundThere(keys, i);
      }
      OnPathPartitioned(keys, 0, |keys|);
    }
    if Partitioned(keys, 0, |keys|) {
      forall k | k in keys ensures Find(keys, k).Some? {
        var i :| 0 <= i < |keys| && keys[i] == k;
        PartitionedOnPath(keys, 0, |keys|, i);
        FoundThere(keys, i);
      }
    }
  }

  /** qsort as a top-down merge sort, which takes from the left of equals. */
  function MergeSort(keys: seq<Key>): seq<Key>
    decreases |keys|
  {
    if |keys| <= 1 then keys
    else Merge(MergeSort(keys[..|keys| / 2]), MergeSort(keys[|keys| / 2..]))
  }

  function Merge(a: seq<Key>, b: seq<Key>): seq<Key>
    decreases |a| + |b|
  {
    if a == [] then b
    else if b == [] then a
    else if Cmp(a[0], b[0]) <= 0 then [a[0]] + Merge(a[1..], b)
    else [b[0]] + Merge(a, b[1..])
  }

  /** Beyond half a circle, what such a sort makes of an array that is in order from each to the next hides a key. */
  lemma PresentButMissed()
    ensures var keys: seq<Key> := [1, 0x5000_0001, 0xA000_0001, 0xB000_0001, 0xC000_0001];
            var sorted: seq<Key> := [0xA000_0001, 0xB000_0001, 0xC000_0001, 1, 0x5000_0001];
            && (forall i :: 0 <= i < |keys| - 1 ==> Less(keys[i], keys[i + 1])) && MergeSort(keys) == sorted
            && 0x5000_0001 in sorted && Find(sorted, 0x5000_0001) == None
  {
    var a: Key, b: Key, c: Key, d: Key, e: Key := 1, 0x5000_0001, 0xA000_0001, 0xB000_0001, 0xC000_0001;
    SortFive(a, b, c, d, e);
    var sorted: seq<Key> := [c, d, e, a, b];
    assert sorted[4] == b;
    assert Find(sorted, b) == Search(sorted, b, 0, 2) == Search(sorted, b, 0, 1) == None;
  }

  lemma SortFive(a: Key, b: Key, c: Key, d: Key, e: Key)
    requires Cmp(a, b) <= 0 && Cmp(c, d) <= 0 && Cmp(d, e) <= 0
    requires Cmp(a, c) > 0 && Cmp(a, d) > 0 && Cmp(a, e) > 0
    ensures MergeSort([a, b, c, d, e]) == [c, d, e, a, b]
  {
    var keys := [a, b, c, d, e];
    assert keys[..2] == [a, b] && keys[2..] == [c, d, e];
    SortTwo(a, b);
    SortTwo(d, e);
    assert [c, d, e][..1] == [c] && [c, d, e][1..] == [d, e];
    assert Merge([c], [d, e]) == [c] + Merge([], [d, e]);
    assert MergeSort([c, d, e]) == [c, d, e];
    MergeBehind([a, b], [c, d, e]);
  }

  lemma SortTwo(a: Key, b: Key)
    requires Cmp(a, b) <= 0
    ensures MergeSort([a, b]) == [a, b]
  {
    assert [a, b][..1] == [a] && [a, b][1..] == [b];
    assert Merge([a], [b]) == [a] + Merge([], [b]);
  }

  /** Everything on the right goes first when the first on the left compares above it. */
  lemma {:induction false} MergeBehind(x: seq<Key>, y: seq<Key>)
    requires x != [] && forall i :: 0 <= i < |y| ==> Cmp(x[0], y[i]) > 0
    ensures Merge(x, y) == y + x
    decreases |y|
  {
    if y != [] {
      var rest := y[1..];
      MergeBehind(x, rest);
      assert y + x == [y[0]] + (rest + x);
    } else {
      assert y + x == x;
    }
  }

  /** A row of the SA table of a context. */
  datatype Row = Unused | Used(cfg: Esp.Config)

  /**
   * sa_add_rules: row i is a copy of entry i, so positions are kept. It may stop at any entry, whose row is written by
   * then; the caller does not look at the result, and the rows after it stay unused.
   */
  method SaAddRules(rows: array<Row>, entries: seq<Row>, fails: nat -> bool) returns (ok: bool, n: nat)
    requires rows.Length == |entries| && forall i :: 0 <= i < rows.Length ==> rows[i] == Unused
    modifies rows
    ensures n <= |entries| && rows[..n] == entries[..n] && (forall i :: n <= i < rows.Length ==> rows[i] == Unused)
    ensures ok <==> forall i :: 0 <= i < |entries| ==> !fails(i)
    ensures ok ==> rows[..] == entries
    ensures !ok ==> n > 0 && fails(n - 1) && forall i :: 0 <= i < n - 1 ==> !fails(i)
  {
    n := 0;
    while n < |entries|
      invariant n <= |entries| && rows[..n] == entries[..n]
      invariant forall i :: n <= i < rows.Length ==> rows[i] == Unused
      invariant forall i :: 0 <= i < n ==> !fails(i)
    {
      rows[n] := entries[n];
      assert rows[..n + 1] == rows[..n] + [rows[n]] && entries[..n + 1] == entries[..n] + [entries[n]];
      n := n + 1;
      if fails(n - 1) {
        return false, n;
      }
    }
    ok := true;
  }

  /**
   * A policy rule: its priority and selectors are left to the classifier, named by a number; userdata starts as
   * SPI.
   */
  datatype Rule = Rule(fields: nat, userdata: Key)

  predicate Protects(d: Key)
  {
    d != DISCARD && d != BYPASS
  }

  /** What check_spi_value makes of a rule's data: None when the SPI is not found. */
  function Bind(spis: seq<Key>, d: Key): (r: Option<Key>)
    requires |spis| < FULL - 1
    ensures r.Some? && Protects(d) ==>
      Protects(r.value) && r.value - 1 < |spis| && spis[r.value - 1] == d && Find(spis, d) == Some(r.value - 1 as nat)
    ensures !Protects(d) ==> r == Some(d)
  {
    if !Protects(d) then Some(d)
    else
      FoundHasKey(spis, d, 0, |spis|);
      if Find(spis, d).Some? then Some(Find(spis, d).value + 1) else None
  }

  function Rebind(spis: seq<Key>, rules: seq<Rule>): seq<Rule>
    requires |spis| < FULL - 1
  {
    seq(|rules|, i requires 0 <= i < |rules| => rules[i].(userdata :=
        Bind(spis, rules[i].userdata).UnwrapOr(rules[i].userdata)))
  }

  /** check_spi_value: rewrite the rules in place from SPI to position plus one; stop at the first SPI not found. */
  method CheckSpiValue(rules: array<Rule>, spis: array<Key>) returns (ok: bool)
    requires spis.Length < FULL - 1
    modifies rules
    ensures ok <==> forall i :: 0 <= i < rules.Length ==> Bind(spis[..], old(rules[i]).userdata).Some?
    ensures ok ==> rules[..] == Rebind(spis[..], old(rules[..]))
    ensures !ok ==> exists n :: 0 <= n < rules.Length && Bind(spis[..], old(rules[n]).userdata).None?
                                && rules[..n] == Rebind(spis[..], old(rules[..n])) && rules[n..] == old(rules[n..])
  {
    ghost var was, keys := rules[..], spis[..];
    for i := 0 to rules.Length
      invariant spis[..] == keys
      invariant forall j :: 0 <= j < i ==> Bind(keys, was[j].userdata).Some?
      invariant forall j :: 0 <= j < i ==>
                rules[j] == was[j].(userdata := Bind(keys, was[j].userdata).UnwrapOr(was[j].userdata))
      invariant rules[i..] == was[i..]
    {
      var d := rules[i].userdata;
      if d != DISCARD && d != BYPASS {
        var at := BSearch(spis, d);
        if at.None? {
          assert rules[..i] == Rebind(keys, was[..i]);
          return false;
        }
        FoundHasKey(keys, d, 0, |keys|);
        rules[i] := rules[i].(userdata := at.value + 1);
      }
    }
    ok := true;
  }

  /** With sorted SAs in half a circle the check passes exactly when every SPI that a rule names has an SA. */
  lemma BindsIffPresent(spis: seq<Key>, rules: seq<Rule>, base: Key)
    requires |spis| < FULL - 1 && HalfCircle(KeySet(spis), base) && Sorted(spis)
    ensures (forall i :: 0 <= i < |rules| ==> Bind(spis, rules[i].userdata).Some?)
       <==> (forall i :: 0 <= i < |rules| && Protects(rules[i].userdata) ==> rules[i].userdata in spis)
  {
    forall i | 0 <= i < |rules|
      ensures Bind(spis, rules[i].userdata).Some? <==> (Protects(rules[i].userdata) ==> rules[i].userdata in spis)
    {
      FindExact(spis, rules[i].userdata, base);
    }
  }

  /** Whatever order the SAs are in, it passes exactly when the search is led to every SPI that a rule names. */
  lemma BindsIffOnPath(spis: seq<Key>, rules: seq<Rule>)
    requires |spis| < FULL - 1
    ensures (forall i :: 0 <= i < |rules| ==> Bind(spis, rules[i].userdata).Some?)
       <==> (forall i :: 0 <= i < |rules| && Protects(rules[i].userdata) ==> Reached(spis, rules[i].userdata))
  {
    forall i | 0 <= i < |rules|
      ensures Bind(spis, rules[i].userdata).Some?
              <==> (Protects(rules[i].userdata) ==> Reached(spis, rules[i].userdata))
    {
      FoundIffOnPath(spis, rules[i].userdata, 0, |spis|);
    }
  }

  predicate Reached(spis: seq<Key>, d: Key)
  {
    exists i :: 0 <= i < |spis| && spis[i] == d && OnPath(spis, 0, |spis|, i)
  }

  /** A pass over the rules succeeds and leaves them alone. */
  predicate Stable(spis: seq<Key>, rules: seq<Rule>)
    requires |spis| < FULL - 1
  {
    (forall i :: 0 <= i < |rules| ==> Bind(spis, rules[i].userdata).Some?) && Rebind(spis, rules) == rules
  }

  /** The SPI is found at the position it is one above. */
  predicate SelfNamed(spis: seq<Key>, d: Key)
  {
    Protects(d) ==> Find(spis, d) == Some(d - 1 as nat)
  }

  /**
   * The rules are one global table, rewritten again for each further socket. Then positions are taken for SPIs: the
   * second pass passes and changes nothing exactly when every SPI a rule names is one above the position it was
   * found at.
   */
  lemma {:induction false} SecondSocketIff(spis: seq<Key>, rules: seq<Rule>)
    requires |spis| < FULL - 1
    requires forall i :: 0 <= i < |rules| ==> Bind(spis, rules[i].userdata).Some?
    ensures Stable(spis, Rebind(spis, rules)) <==> (forall i :: 0 <= i < |rules| ==> SelfNamed(spis, rules[i].userdata))
  {
    var once := Rebind(spis, rules);
    forall i | 0 <= i < |rules|
      ensures Bind(spis, once[i].userdata) == Some(once[i].userdata) <==> SelfNamed(spis, rules[i].userdata)
    {
      var d, e := rules[i].userdata, once[i].userdata;
      if Protects(d) {
        FoundHasKey(spis, d, 0, |spis|);
        FoundHasKey(spis, e, 0, |spis|);
      }
    }
    if Stable(spis, once) {
      forall i | 0 <= i < |rules| ensures SelfNamed(spis, rules[i].userdata) {
        assert Rebind(spis, once)[i] == once[i];
      }
    }
  }

  /** With SPIs 2 and 3, a second socket silently moves a rule for SPI 3 to the SA with SPI 2. */
  lemma SecondSocketMoves()
    ensures Bind([2, 3], 3) == Some(2) && Bind([2, 3], 2) == Some(1)
  {
    var spis: seq<Key> := [2, 3];
    assert Find(spis, 3) == Search(spis, 3, 0, 2) == Some(1);
    assert Find(spis, 2) == Search(spis, 2, 0, 2) == Search(spis, 2, 0, 1) == Some(0);
  }

  /** The classifier's result for a packet: the data of the winning rule, or 0 without one. */
  function Classify(rules: seq<Rule>, winner: Option<nat>): Key
    requires winner.Some? ==> winner.value < |rules|
  {
    if winner.Some? then rules[winner.value].userdata else 0
  }

  /**
   * The verdict on a packet: discarded and bypassed as the rule says, no rule discards, and a rule that names SPI s
   * leads to a position whose SA has SPI s.
   */
  lemma VerdictIsBound(spis: seq<Key>, rules: seq<Rule>, winner: Option<nat>)
    requires |spis| < FULL - 1 && (winner.Some? ==> winner.value < |rules|)
    requires forall i :: 0 <= i < |rules| ==> Bind(spis, rules[i].userdata).Some?
    ensures var d, res := Classify(rules, winner), Classify(Rebind(spis, rules), winner);
            && Traffic.PolicyLane(res) == Traffic.PolicyLane(d)
            && (Traffic.PolicyLane(d) == Traffic.Esp ==> 0 <= res - 1 < |spis| && spis[res - 1] == d)
  {
  }

  /**
   * outbound_sa_lookup and esp_outbound: the packet leaves with the SPI that its rule named when the rules were
   * read.
   */
  method Protect(m: Mbuf, sas: seq<Esp.Sa>, ghost rules: seq<Rule>, ghost winner: nat, res: Key)
    returns (rc: int, ghost front: nat)
    requires |sas| < FULL - 1 && m.Valid() && m.len >= 1 && winner < |rules| && Protects(rules[winner].userdata)
    requires forall i :: 0 <= i < |sas| ==> sas[i].cfg.spi < FULL
    requires forall i :: 0 <= i < |rules| ==> Bind(SpisOf(sas), rules[i].userdata).Some?
    requires res == Rebind(SpisOf(sas), rules)[winner].userdata
    requires sas[res - 1].Valid() && Esp.HeadNeed(sas[res - 1].cfg) <= m.off
    requires Ipip.Version(m.Data()) in {4, 6} ==> Esp.Fitting(sas[res - 1].cfg, m.Data())
    modifies m, m.buf, sas[res - 1]
    ensures m.Valid()
    ensures rc == 0 ==>
              && Esp.Fitting(sas[res - 1].cfg, old(m.Data()))
              && front == Esp.FrontLen(sas[res - 1].cfg, old(m.Data())) && front + 4 <= |m.Data()|
              && m.Data()[front..front + 4] == Be(rules[winner].userdata, 4)
  {
    rc, front := SendUnder(m, sas[res - 1]);
  }

  /** esp_outbound, and where it writes the SPI. */
  method SendUnder(m: Mbuf, sa: Esp.Sa) returns (rc: int, ghost front: nat)
    requires m.Valid() && sa.Valid() && m.len >= 1 && Esp.HeadNeed(sa.cfg) <= m.off
    requires Ipip.Version(m.Data()) in {4, 6} ==> Esp.Fitting(sa.cfg, m.Data())
    modifies m, m.buf, sa
    ensures m.Valid()
    ensures rc == 0 ==>
              && Esp.Fitting(sa.cfg, old(m.Data())) && front == Esp.FrontLen(sa.cfg, old(m.Data()))
              && front + 4 <= |m.Data()| && m.Data()[front..front + 4] == Be(sa.cfg.spi, 4)
  {
    var op;
    ghost var f;
    rc, op, f := Esp.Outbound(m, sa);
    front := |f.front|;
    if rc == 0 {
      SpiAfterFront(f);
    }
  }

  /** An SA without parameters, for rows not in use. */
  const NOTHING := Esp.Config(0, [], Esp.NoMode, NullCipher, NullAuth, NoAead, 0, 0, 4, [], [])

  function ConfigOf(row: Row): Esp.Config
  {
    if row.Used? then row.cfg else NOTHING
  }

  /** The rows of an SA table as SAs, and their SPIs. */
  method Open(rows: seq<Row>) returns (sas: seq<Esp.Sa>, spis: array<Key>)
    requires forall i :: 0 <= i < |rows| ==> ConfigOf(rows[i]).spi < FULL
    ensures |sas| == |rows| == spis.Length && fresh(spis) && forall i :: 0 <= i < |sas| ==> fresh(sas[i])
    ensures forall i :: 0 <= i < |sas| ==>
              sas[i].cfg == ConfigOf(rows[i]) && sas[i].seq_ == 0 && spis[i] == sas[i].cfg.spi
  {
    sas := [];
    spis := new Key[|rows|](_ => 0);
    for i := 0 to |rows|
      invariant |sas| == i && forall j :: 0 <= j < i ==> fresh(sas[j])
      invariant forall j :: 0 <= j < i ==>
                  sas[j].cfg == ConfigOf(rows[j]) && sas[j].seq_ == 0 && spis[j] == sas[j].cfg.spi
    {
      var sa := new Esp.Sa(ConfigOf(rows[i]));
      spis[i] := ConfigOf(rows[i]).spi;
      sas := sas + [sa];
    }
  }

  /** An entry that the codec can work with on packet m. */
  ghost predicate Usable(row: Row, m: Mbuf)
    requires m.Valid() && m.len >= 1
    reads m, m.buf
  {
    && row.Used? && Esp.WellConfigured(row.cfg) && Esp.HeadNeed(row.cfg) <= m.off
    && (Ipip.Version(m.Data()) in {4, 6} ==> Esp.Fitting(row.cfg, m.Data()))
  }

  /**
   * From the SAs read and the rules read to the wire: copy the SAs, however far that gets; bind the rules; and
   * protect a packet by the rule that wins. If the rules bind and the packet is sent, its ESP header carries the
   * SPI that its rule was read with.
   */
  method EndToEnd(entries: seq<Row>, rules: array<Rule>, fails: nat -> bool, m: Mbuf, winner: nat)
    returns (bound: bool, rc: int, ghost front: nat)
    requires |entries| < FULL - 1 && m.Valid() && m.len >= 1 && forall i :: 0 <= i < |entries| ==> Usable(entries[i], m)
    requires winner < rules.Length && Protects(rules[winner].userdata)
    modifies m, m.buf, rules
    ensures bound && rc == 0 ==> m.Valid() && front + 4 <= |m.Data()|
                                 && m.Data()[front..front + 4] == Be(old(rules[winner].userdata), 4)
  {
    rc, front := 0, 0;
    var sas;
    ghost var was := rules[..];
    bound, sas := BindAll(entries, rules, fails);
    if bound {
      BoundToUsed(was, SpisOf(sas), rules[..], winner);
      rc, front := Protect(m, sas, was, winner, rules[winner].userdata);
    }
  }

  /** sa_add_rules and then check_spi_value: the SAs of the context, and the rules bound to them. */
  method BindAll(entries: seq<Row>, rules: array<Rule>, fails: nat -> bool) returns (bound: bool, sas: seq<Esp.Sa>)
    requires |entries| < FULL - 1 && forall i :: 0 <= i < |entries| ==> ConfigOf(entries[i]).spi < FULL
    modifies rules
    ensures |sas| == |entries| && forall i :: 0 <= i < |sas| ==> fresh(sas[i]) && SaOf(sas[i], entries[i])
    ensures forall i :: 0 <= i < |sas| ==> sas[i].cfg.spi < FULL
    ensures bound ==> Bound(SpisOf(sas), old(rules[..]), rules[..])
  {
    var rows := new Row[|entries|](_ => Unused);
    var copied, n := SaAddRules(rows, entries, fails);
    forall i | 0 <= i < |entries| ensures rows[i] == Unused || rows[i] == entries[i] {
      if i < n {
        assert rows[..n][i] == entries[..n][i];
      }
    }
    var spis;
    sas, spis := Open(rows[..]);
    bound := CheckSpiValue(rules, spis);
    assert spis[..] == SpisOf(sas);
  }

  /** An SA made of an entry, or of a row that was not reached. */
  predicate SaOf(sa: Esp.Sa, entry: Row)
    reads sa
  {
    sa.cfg in {NOTHING, ConfigOf(entry)} && sa.cfg.spi < FULL && sa.seq_ == 0
  }

  predicate Bound(spis: seq<Key>, was: seq<Rule>, now: seq<Rule>)
    requires |spis| < FULL - 1
  {
    (forall i :: 0 <= i < |was| ==> Bind(spis, was[i].userdata).Some?) && now == Rebind(spis, was)
  }

  /** The SA that a rule is bound to is one that was read: its SPI is not that of an unused row. */
  lemma BoundToUsed(was: seq<Rule>, spis: seq<Key>, now: seq<Rule>, winner: nat)
    requires |spis| < FULL - 1 && winner < |was| && Protects(was[winner].userdata)
    requires Bound(spis, was, now)
    ensures var res := now[winner].userdata;
            0 <= res - 1 < |spis| && spis[res - 1] == was[winner].userdata != 0
  {
  }

  /**
   * On a second socket the SAs are entered into the database while the rules hold positions already: the transport SA
   * with SPI 5 is then named by no rule, and not entered.
   */
  lemma TransportNotEntered()
    ensures Find([5], 5).Some? && Bind([5], 5) == Some(1) && Find([1], 5).None?
  {
    assert Find([5], 5) == Search([5], 5, 0, 1) == Some(0);
    assert Find([1], 5) == Search([1], 5, 0, 1) == Search([1], 5, 1, 1) == None;
  }

  function SpisOf(sas: seq<Esp.Sa>): (r: seq<Key>)
    requires forall i :: 0 <= i < |sas| ==> sas[i].cfg.spi < FULL
    ensures |r| == |sas| && forall i :: 0 <= i < |r| ==> r[i] == sas[i].cfg.spi
  {
    seq(|sas|, i requires 0 <= i < |sas| => sas[i].cfg.spi)
  }

  lemma SpiAfterFront(f: Esp.Frame)
    requires f.pad <= 255
    ensures |f.front| + 4 <= |f.Bytes()| && f.Bytes()[|f.front|..|f.front| + 4] == Be(f.spi, 4)
  {
    var n := |f.front|;
    assert f.Bytes()[n..n + 8] == f.EspHdr();
    assert f.Bytes()[n..n + 4] == f.EspHdr()[..4];
  }
}
