/** The IPv4 header checksum and the two in-place updates of ipip.h that touch it. */
module Checksum {
  import opened Bytes

  function Le16(lo: byte, hi: byte): (w: nat)
    ensures w <= 0xffff
  {
    lo + 256 * hi
  }

  function Be16(hi: byte, lo: byte): (w: nat)
    ensures w <= 0xffff
  {
    256 * hi + lo
  }

  /** Sum of the 16-bit words as a little-endian CPU loads them. */
  function SumLe(h: seq<byte>): nat
  {
    if |h| < 2 then 0 else Le16(h[0], h[1]) + SumLe(h[2..])
  }

  /** Sum of the 16-bit words in network order. */
  function SumBe(h: seq<byte>): nat
  {
    if |h| < 2 then 0 else Be16(h[0], h[1]) + SumBe(h[2..])
  }

  /** 16-bit ones' complement addition: the carry out is added back in. */
  function OnesAdd(a: nat, b: nat): (r: nat)
    requires a <= 0xffff && b <= 0xffff
    ensures r <= 0xffff
  {
    if a + b > 0xffff then a + b - 0xffff else a + b
  }

  function OnesSum(h: seq<byte>): (r: nat)
    ensures r <= 0xffff
  {
    if |h| < 2 then 0 else OnesAdd(Le16(h[0], h[1]), OnesSum(h[2..]))
  }

  /** A receiver accepts the header when the ones' complement sum over all words is all ones. */
  predicate Verifies(h: seq<byte>)
  {
    OnesSum(h) == 0xffff
  }

  lemma {:induction false} OnesSumIsResidue(h: seq<byte>)
    ensures OnesSum(h) == if SumLe(h) == 0 then 0 else 1 + (SumLe(h) - 1) % 65535
  {
    if |h| >= 2 {
      OnesSumIsResidue(h[2..]);
      ResidueOfSum(Le16(h[0], h[1]), SumLe(h[2..]), OnesSum(h[2..]));
    }
  }

  /** One step of end-around carry, on a word and the residue of a sum. */
  lemma ResidueOfSum(w: nat, a: nat, r: nat)
    requires w <= 0xffff && r <= 0xffff && r == if a == 0 then 0 else 1 + (a - 1) % 65535
    ensures OnesAdd(w, r) == if w + a == 0 then 0 else 1 + (w + a - 1) % 65535
  {
    if a > 0 {
      var q := (a - 1) / 65535;
      assert a == q * 65535 + r;
      if w + r > 0xffff {
        ModOfSum(q + 1, 65535, w + r - 1 - 65535);
      } else {
        ModOfSum(q, 65535, w + r - 1);
      }
    }
  }

  lemma {:induction false} SumBeUpdate(h: seq<byte>, i: nat, v: byte)
    requires |h| % 2 == 0 && i < |h|
    ensures if i % 2 == 0 then SumBe(h[i := v]) + 256 * (h[i] as int) == SumBe(h) + 256 * (v as int)
            else SumBe(h[i := v]) + h[i] == SumBe(h) + v
  {
    if i >= 2 {
      SumBeUpdate(h[2..], i - 2, v);
      assert h[i := v][2..] == h[2..][i - 2 := v];
    } else {
      assert h[i := v][2..] == h[2..];
    }
  }

  function OddBytes(h: seq<byte>): nat
  {
    if |h| < 2 then 0 else h[1] + OddBytes(h[2..])
  }

  /** The two byte orders agree up to multiples of 65535, so the check is endian-neutral. */
  lemma {:induction false} ByteOrderNeutral(h: seq<byte>)
    ensures 256 * SumLe(h) == SumBe(h) + 65535 * OddBytes(h)
  {
    if |h| >= 2 {
      ByteOrderNeutral(h[2..]);
    }
  }

  /** uint8_t decrement, wrapping at zero. */
  function LessOne(b: byte): byte
  {
    if b == 0 then 255 else b - 1
  }

  /** The low byte of a 16-bit word. */
  function Low(w: nat): byte
  {
    if w < 256 then w else Low(w - 256)
  }

  /** The high byte. */
  function High(w: nat): (r: byte)
    requires w <= 0xffff
    ensures Low(w) + 256 * r == w
  {
    if w < 256 then 0 else High(w - 256) + 1
  }

  /** The patched checksum field; the addition wraps at 16 bits. */
  function TtlSum(s: nat): (t: nat)
    requires s <= 0xffff
    ensures t <= 0xffff
  {
    if s >= 0xfffe then s + 2 - 0x10000 else s + 1
  }

  /** TTL decrement with the conditional-carry checksum patch, on the field as a little-endian CPU reads it. */
  function TtlStep(p: seq<byte>): (r: seq<byte>)
    requires |p| >= 12
    ensures |r| == |p|
  {
    var t := TtlSum(Le16(p[10], p[11]));
    p[8 := LessOne(p[8])][10 := Low(t)][11 := High(t)]
  }

  /**
   * The patch is right for every header whose TTL has not run out, and only for those:
   * a TTL of zero wraps to 255 and the checksum no longer verifies.
   */
  lemma TtlStepChecksum(h: seq<byte>)
    requires |h| >= 20 && |h| % 2 == 0 && h[0] > 0
    requires Verifies(h)
    ensures Verifies(TtlStep(h)) <==> h[8] >= 1
  {
    TtlStepSum(h);
    OnesSumIsResidue(h);
    OnesSumIsResidue(TtlStep(h));
    FullResidue(SumLe(h));
    SameResidue(SumLe(h), SumLe(TtlStep(h)), if h[8] == 0 then 256 else 0);
  }

  lemma FullResidue(a: nat)
    requires a > 0 && 1 + (a - 1) % 65535 == 0xffff
    ensures a % 65535 == 0
  {
    var k := (a - 1) / 65535;
    assert a == (k + 1) * 65535 + 0;
    ModOfSum(k + 1, 65535, 0);
  }

  lemma SameResidue(a: nat, b: nat, gain: nat)
    requires a > 0 && a % 65535 == 0 && gain < 65535 && b > 0
    requires b == a + gain || b + 65535 == a + gain
    ensures b % 65535 == gain
    ensures 1 + (b - 1) % 65535 == 0xffff <==> gain == 0
  {
    var k := if b == a + gain then a / 65535 else a / 65535 - 1;
    assert b == k * 65535 + gain;
    ModOfSum(k, 65535, gain);
    if gain == 0 {
      assert b - 1 == (k - 1) * 65535 + 65534;
      ModOfSum(k - 1, 65535, 65534);
    } else {
      assert b - 1 == k * 65535 + (gain - 1);
      ModOfSum(k, 65535, gain - 1);
    }
  }

  lemma FirstByteCounts(h: seq<byte>)
    requires |h| >= 2 && (h[0] > 0 || h[1] > 0)
    ensures SumLe(h) > 0 && SumBe(h) > 0
  {
  }

  lemma {:induction false} SumLeSplit(h: seq<byte>, i: nat)
    requires i % 2 == 0 && i <= |h|
    ensures SumLe(h) == SumLe(h[..i]) + SumLe(h[i..])
  {
    if i == 0 {
      assert h[i..] == h;
    } else {
      SumLeSplit(h[2..], i - 2);
      assert h[..i][2..] == h[2..][..i - 2];
      assert h[2..][i - 2..] == h[i..];
    }
  }

  /** The sum with the two words of TTL, protocol and checksum singled out. */
  lemma TtlWords(h: seq<byte>)
    requires |h| >= 12
    ensures SumLe(h) == SumLe(h[..8]) + Le16(h[8], h[9]) + Le16(h[10], h[11]) + SumLe(h[12..])
  {
    SumLeSplit(h, 8);
    var t := h[8..];
    assert t[2..][2..] == h[12..];
    assert SumLe(t) == Le16(t[0], t[1]) + SumLe(t[2..]);
    assert SumLe(t[2..]) == Le16(t[2], t[3]) + SumLe(t[2..][2..]);
  }

  lemma TtlStepSum(h: seq<byte>)
    requires |h| >= 20 && |h| % 2 == 0 && h[0] > 0
    ensures SumLe(TtlStep(h)) > 0
    ensures SumLe(TtlStep(h)) ==
            SumLe(h) + (if h[8] == 0 then 256 else 0) - (if Le16(h[10], h[11]) >= 0xfffe then 65535 else 0)
  {
    var r := TtlStep(h);
    TtlWords(h);
    TtlWords(r);
    assert r[..8] == h[..8] && r[12..] == h[12..];
    FirstByteCounts(r);
  }

  function WithCe(tos: byte): byte
  {
    tos - tos % 4 + 3
  }

  /** Folding the carry in; the code does it twice, but of so small a sum nothing is left to fold the second time. */
  function Folded(sum: nat): (r: nat)
    requires sum <= 0x101ff
    ensures r <= 0xffff && (r == sum || r + 65535 == sum)
  {
    if sum < 0x10000 then sum else sum - 0x10000 + 1
  }

  /** ip4_ecn_setup: mark congestion experienced and patch the checksum with an 8-bit complement. */
  function EcnStep(p: seq<byte>): (r: seq<byte>)
    requires |p| >= 12
    ensures |r| == |p|
  {
    if p[1] % 4 == 0 then p
    else
      var c := EcnSum(p);
      p[1 := WithCe(p[1])][10 := High(c)][11 := Low(c)]
  }

  function EcnSum(p: seq<byte>): (c: nat)
    requires |p| >= 12
    ensures c <= 0xffff
    ensures || c + WithCe(p[1]) == p[1] + 255 + Be16(p[10], p[11])
            || c + WithCe(p[1]) + 65535 == p[1] + 255 + Be16(p[10], p[11])
  {
    Folded(p[1] as int + (255 - WithCe(p[1])) + Be16(p[10], p[11]))
  }

  /**
   * Complementing only the low byte leaves the checksum 255 out, so the marking keeps a good
   * checksum exactly on the packets it does not mark.
   */
  lemma EcnStepChecksum(h: seq<byte>)
    requires |h| >= 20 && |h| % 2 == 0
    requires Verifies(h)
    ensures Verifies(EcnStep(h)) <==> h[1] % 4 == 0
  {
    if h[1] % 4 != 0 {
      var r := EcnStep(h);
      EcnStepSum(h);
      VerifiedSums(h);
      SameResidue(SumBe(h), SumBe(r), 255);
      if Verifies(r) {
        VerifiedSums(r);
      }
    }
  }

  lemma VerifiedSums(h: seq<byte>)
    requires Verifies(h)
    ensures SumBe(h) % 65535 == 0 && SumBe(h) > 0
  {
    OnesSumIsResidue(h);
    ByteOrderNeutral(h);
    SumsVanishTogether(h);
    FullResidue(SumLe(h));
    var k := SumLe(h) / 65535;
    assert SumBe(h) == (256 * k - OddBytes(h)) * 65535 + 0;
    ModOfSum(256 * k - OddBytes(h), 65535, 0);
  }

  lemma {:induction false} SumsVanishTogether(h: seq<byte>)
    ensures SumLe(h) == 0 <==> SumBe(h) == 0
  {
    if |h| >= 2 {
      SumsVanishTogether(h[2..]);
    }
  }

  /** Replacing an odd byte, and an even one, of a header whose checksum is in bytes 10 and 11. */
  lemma TosReplaced(h: seq<byte>, v: byte)
    requires |h| >= 20 && |h| % 2 == 0
    ensures SumBe(h[1 := v]) + h[1] == SumBe(h) + v
  {
    SumBeUpdate(h, 1, v);
  }

  lemma CheckReplaced(h: seq<byte>, c: nat)
    requires |h| >= 20 && |h| % 2 == 0 && c <= 0xffff
    ensures SumBe(h[10 := High(c)][11 := Low(c)]) + Be16(h[10], h[11]) == SumBe(h) + c
  {
    var h1 := h[10 := High(c)];
    SumBeUpdate(h, 10, High(c));
    SumBeUpdate(h1, 11, Low(c));
    assert h1[11] == h[11];
  }

  lemma EcnStepSum(h: seq<byte>)
    requires |h| >= 20 && |h| % 2 == 0 && h[1] % 4 != 0
    ensures SumBe(EcnStep(h)) > 0
    ensures || SumBe(EcnStep(h)) == SumBe(h) + 255
            || SumBe(EcnStep(h)) + 65535 == SumBe(h) + 255
  {
    var tos, c := WithCe(h[1]), EcnSum(h);
    var h1 := h[1 := tos];
    TosReplaced(h, tos);
    CheckReplaced(h1, c);
    assert h1[10] == h[10] && h1[11] == h[11];
    FirstByteCounts(EcnStep(h));
  }

  /** A packet of 20 bytes that says so, with the given TOS and TTL, and the checksum that makes it verify. */
  lemma GoodHeader(tos: byte, ttl: byte, lo: byte, hi: byte) returns (h: seq<byte>)
    requires 0x45 + 256 * tos + 256 * 20 + ttl + lo + 256 * hi == 0xffff
    ensures h == [0x45, tos, 0, 20, 0, 0, 0, 0, ttl, 0, lo, hi, 0, 0, 0, 0, 0, 0, 0, 0]
    ensures Verifies(h)
  {
    var four, eight := [0, 0, 0, 0], [0, 0, 0, 0, 0, 0, 0, 0];
    h := [0x45, tos] + ([0, 20] + (four + ([ttl, 0] + ([lo, hi] + eight))));
    GoodSum(tos, four, ttl, lo, hi, eight);
  }

  lemma GoodSum(tos: byte, four: seq<byte>, ttl: byte, lo: byte, hi: byte, eight: seq<byte>)
    requires 0x45 + 256 * tos + 256 * 20 + ttl + lo + 256 * hi == 0xffff && |four| % 2 == 0
    requires (forall i :: 0 <= i < |four| ==> four[i] == 0) && forall i :: 0 <= i < |eight| ==> eight[i] == 0
    ensures Verifies([0x45, tos] + ([0, 20] + (four + ([ttl, 0] + ([lo, hi] + eight)))))
  {
    ZerosSum(eight);
    WordFirst(lo, hi, eight);
    WordFirst(ttl, 0, [lo, hi] + eight);
    ZerosFirst(four, [ttl, 0] + ([lo, hi] + eight));
    WordFirst(0, 20, four + ([ttl, 0] + ([lo, hi] + eight)));
    WordFirst(0x45, tos, [0, 20] + (four + ([ttl, 0] + ([lo, hi] + eight))));
  }

  lemma WordFirst(lo: byte, hi: byte, rest: seq<byte>)
    ensures OnesSum([lo, hi] + rest) == OnesAdd(Le16(lo, hi), OnesSum(rest))
  {
    assert ([lo, hi] + rest)[2..] == rest;
  }

  lemma {:induction false} ZerosFirst(z: seq<byte>, rest: seq<byte>)
    requires |z| % 2 == 0 && forall i :: 0 <= i < |z| ==> z[i] == 0
    ensures OnesSum(z + rest) == OnesSum(rest)
  {
    if z == [] {
      assert z + rest == rest;
    } else {
      ZerosFirst(z[2..], rest);
      assert (z + rest)[2..] == z[2..] + rest;
    }
  }

  lemma {:induction false} ZerosSum(z: seq<byte>)
    requires forall i :: 0 <= i < |z| ==> z[i] == 0
    ensures OnesSum(z) == 0
  {
    if |z| >= 2 {
      ZerosSum(z[2..]);
    }
  }

  /** An ECN-capable header with a good checksum that has a bad one once it is marked. */
  lemma MarkedHeaderFails() returns (h: seq<byte>)
    ensures h == [0x45, 1, 0, 20, 0, 0, 0, 0, 64, 0, 0x7a, 0xea, 0, 0, 0, 0, 0, 0, 0, 0]
    ensures Verifies(h) && !Verifies(EcnStep(h))
  {
    h := GoodHeader(1, 64, 0x7a, 0xea);
    EcnStepChecksum(h);
  }

  /** A header whose TTL has run out, with a good checksum that has a bad one after the step. */
  lemma ExpiredHeaderFails() returns (h: seq<byte>)
    ensures h == [0x45, 0, 0, 20, 0, 0, 0, 0, 0, 0, 0xba, 0xeb, 0, 0, 0, 0, 0, 0, 0, 0]
    ensures Verifies(h) && !Verifies(TtlStep(h))
  {
    h := GoodHeader(0, 0, 0xba, 0xeb);
    TtlStepChecksum(h);
  }
}
