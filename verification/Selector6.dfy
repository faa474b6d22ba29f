/** IPv6 policy selectors: an address and depth split into four masked 32-bit fields, and put together again (sp6.c). */
module Selector6 {
  import opened Bytes

  const ADDR_SIZE: nat := 16

  /** An ACL field of mask type: `mask` is how many of the topmost bits count. */
  datatype Field = Field(value: nat, mask: nat)

  /** The four fields of an address, with as many bits as are left of the depth. */
  method Split(a: seq<byte>, depth: nat) returns (f: seq<Field>)
    requires |a| == ADDR_SIZE
    ensures f == Fields(a, depth, 4)
  {
    f := [];
    var left := depth;
    for i := 0 to 4
      invariant f == Fields(a, depth, i) && left == Left(depth, i)
    {
      f := f + [Field(FromBe(a[4 * i..4 * i + 4]), if left > 32 then 32 else left)];
      left := if left > 32 then left - 32 else 0;
    }
  }

  /** Depth that is left for field i. */
  function Left(depth: nat, i: nat): nat
  {
    if depth > 32 * i then depth - 32 * i else 0
  }

  function Fields(a: seq<byte>, depth: nat, n: nat): (f: seq<Field>)
    requires |a| == ADDR_SIZE && n <= 4
    ensures |f| == n
    ensures forall i :: 0 <= i < n ==> f[i].value == FromBe(a[4 * i..4 * i + 4]) && f[i].mask <= 32
  {
    if n == 0 then []
    else Fields(a, depth, n - 1) + [Field(FromBe(a[4 * (n - 1)..4 * n]),
        if Left(depth, n - 1) > 32 then 32 else Left(depth, n - 1))]
  }

  /** The macros that add up the masks and put the address together. */
  function DepthFrom(f: seq<Field>): nat
    requires |f| == 4
  {
    f[0].mask + f[1].mask + f[2].mask + f[3].mask
  }

  function AddrFrom(f: seq<Field>): seq<byte>
    requires |f| == 4
  {
    Be(f[0].value, 4) + Be(f[1].value, 4) + Be(f[2].value, 4) + Be(f[3].value, 4)
  }

  lemma {:induction false} BeOfFromBe(b: seq<byte>)
    ensures Be(FromBe(b), |b|) == b && FromBe(b) < Pow256(|b|)
  {
    if b != [] {
      var rest, last := b[..|b| - 1], b[|b| - 1];
      BeOfFromBe(rest);
      assert b == rest + [last];
    }
  }

  /** Splitting and putting together gives the address back, and the depth up to 128. */
  lemma SelectorRoundTrip(a: seq<byte>, depth: nat)
    requires |a| == ADDR_SIZE
    ensures AddrFrom(Fields(a, depth, 4)) == a
    ensures DepthFrom(Fields(a, depth, 4)) == if depth > 128 then 128 else depth
  {
    var f := Fields(a, depth, 4);
    forall i | 0 <= i < 4 ensures Be(f[i].value, 4) == a[4 * i..4 * i + 4] {
      BeOfFromBe(a[4 * i..4 * i + 4]);
    }
    assert a == a[0..4] + a[4..8] + a[8..12] + a[12..16];
    assert Be(f[0].value, 4) == a[4 * 0..4 * 0 + 4] && Be(f[1].value, 4) == a[4 * 1..4 * 1 + 4];
    assert Be(f[2].value, 4) == a[4 * 2..4 * 2 + 4] && Be(f[3].value, 4) == a[4 * 3..4 * 3 + 4];
    assert Fields(a, depth, 4) == Fields(a, depth, 3) + [f[3]] && Fields(a, depth, 3) == Fields(a, depth, 2) + [f[2]];
    assert Fields(a, depth, 2) == Fields(a, depth, 1) + [f[1]] && Fields(a, depth, 1) == Fields(a, depth, 0) + [f[0]];
  }

  /** v without its k lowest bits. */
  function Shr(v: nat, k: nat): nat
  {
    if k == 0 then v else Shr(v / 2, k - 1)
  }

  /** The classifier's test of one field: the value and the input word agree in the topmost `mask` bits. */
  predicate Matches(f: Field, word: nat)
    requires f.mask <= 32
  {
    Shr(f.value, 32 - f.mask) == Shr(word, 32 - f.mask)
  }

  /** The n lowest bits of v, highest first. */
  function Bits(v: nat, n: nat): (b: seq<bool>)
    ensures |b| == n
  {
    if n == 0 then [] else Bits(v / 2, n - 1) + [v % 2 == 1]
  }

  /** The bits of an address in the order they are sent. */
  function AddrBits(a: seq<byte>): (b: seq<bool>)
    ensures |b| == 8 * |a|
  {
    if a == [] then [] else AddrBits(a[..|a| - 1]) + Bits(a[|a| - 1], 8)
  }

  lemma {:induction false} BitsSplit(v: nat, n: nat, k: nat)
    ensures Bits(v, n + k) == Bits(Shr(v, k), n) + Bits(v, k)
    decreases k
  {
    if k > 0 {
      BitsSplit(v / 2, n, k - 1);
      assert Bits(v, n + k) == Bits(v / 2, n + (k - 1)) + [v % 2 == 1];
    }
  }

  lemma {:induction false} BitsInjective(v: nat, w: nat, n: nat)
    requires v < Pow2(n) && w < Pow2(n) && Bits(v, n) == Bits(w, n)
    ensures v == w
  {
    if n > 0 {
      var b, c := Bits(v, n), Bits(w, n);
      assert b[..n - 1] == Bits(v / 2, n - 1) && c[..n - 1] == Bits(w / 2, n - 1);
      assert b[n - 1] == (v % 2 == 1) && c[n - 1] == (w % 2 == 1);
      BitsInjective(v / 2, w / 2, n - 1);
    }
  }

  lemma {:induction false} ShrBound(v: nat, n: nat, k: nat)
    requires v < Pow2(n + k)
    ensures Shr(v, k) < Pow2(n)
    decreases k
  {
    if k > 0 {
      ShrBound(v / 2, n, k - 1);
    }
  }

  /** Two numbers of n bits agree above the k lowest bits exactly when their first n - k bits are the same. */
  lemma TopBits(v: nat, w: nat, n: nat, k: nat)
    requires v < Pow2(n + k) && w < Pow2(n + k)
    ensures Shr(v, k) == Shr(w, k) <==> Bits(v, n + k)[..n] == Bits(w, n + k)[..n]
  {
    BitsSplit(v, n, k);
    BitsSplit(w, n, k);
    ShrBound(v, n, k);
    ShrBound(w, n, k);
    assert Bits(v, n + k)[..n] == Bits(Shr(v, k), n) && Bits(w, n + k)[..n] == Bits(Shr(w, k), n);
    if Bits(Shr(v, k), n) == Bits(Shr(w, k), n) {
      BitsInjective(Shr(v, k), Shr(w, k), n);
    }
  }

  /** A number made of a high part and k low bits. */
  lemma {:induction false} LowBits(x: nat, y: nat, k: nat)
    requires y < Pow2(k)
    ensures Shr(x * Pow2(k) + y, k) == x && Bits(x * Pow2(k) + y, k) == Bits(y, k)
  {
    if k > 0 {
      var half := x * Pow2(k - 1);
      Doubled(x, Pow2(k - 1));
      HalfOf(half, y);
      LowBits(x, y / 2, k - 1);
      assert Shr(2 * half + y, k) == Shr(half + y / 2, k - 1);
      assert Bits(2 * half + y, k) == Bits(half + y / 2, k - 1) + [y % 2 == 1];
    }
  }

  lemma Doubled(x: nat, p: nat)
    ensures x * (2 * p) == 2 * (x * p)
  {
  }

  lemma HalfOf(half: nat, y: nat)
    ensures (2 * half + y) / 2 == half + y / 2 && (2 * half + y) % 2 == y % 2
  {
  }

  lemma EightBits()
    ensures Pow2(8) == 256
  {
    assert Pow2(4) == 16;
  }

  /** Bytes and the number they spell have the same bits. */
  lemma {:induction false} AddrBitsOfNumber(a: seq<byte>)
    ensures AddrBits(a) == Bits(FromBe(a), 8 * |a|)
  {
    if a != [] {
      var rest, last := a[..|a| - 1], a[|a| - 1];
      AddrBitsOfNumber(rest);
      EightBits();
      LowBits(FromBe(rest), last, 8);
      BitsSplit(FromBe(a), 8 * |rest|, 8);
    }
  }

  lemma {:induction false} WordBound(a: seq<byte>)
    requires |a| == 4
    ensures FromBe(a) < Pow2(32)
  {
    BeOfFromBe(a);
    assert Pow256(4) == 256 * (256 * (256 * 256)) == 0x1_0000_0000;
    EightBits();
    PowSum(8, 8);
    PowSum(16, 16);
    assert Pow2(32) == 0x1_0000_0000;
  }

  lemma {:induction false} PowSum(m: nat, n: nat)
    ensures Pow2(m + n) == Pow2(m) * Pow2(n)
  {
    if n > 0 {
      PowSum(m, n - 1);
    }
  }

  /** One field matches exactly when the words' bits agree as far as the mask goes. */
  lemma {:induction false} FieldMatches(x: seq<byte>, y: seq<byte>, mask: nat)
    requires |x| == |y| == 4 && mask <= 32
    ensures Matches(Field(FromBe(x), mask), FromBe(y)) <==> AddrBits(x)[..mask] == AddrBits(y)[..mask]
  {
    WordBound(x);
    WordBound(y);
    TopBitsOfBytes(x, y, mask, 32 - mask);
  }

  lemma TopBitsOfBytes(x: seq<byte>, y: seq<byte>, m: nat, k: nat)
    requires 8 * |x| == 8 * |y| == m + k && FromBe(x) < Pow2(m + k) && FromBe(y) < Pow2(m + k)
    ensures Shr(FromBe(x), k) == Shr(FromBe(y), k) <==> AddrBits(x)[..m] == AddrBits(y)[..m]
  {
    AddrBitsOfNumber(x);
    AddrBitsOfNumber(y);
    TopBits(FromBe(x), FromBe(y), m, k);
  }

  function Upto(n: nat, m: nat): nat
  {
    if n > m then m else n
  }

  /** Agreement of two sequences made of two parts each. */
  lemma PrefixParts(x1: seq<bool>, x2: seq<bool>, y1: seq<bool>, y2: seq<bool>, d: nat)
    requires |x1| == |y1| && |x2| == |y2| && d <= |x1| + |x2|
    ensures (x1 + x2)[..d] == (y1 + y2)[..d]
       <==> (x1[..Upto(d, |x1|)] == y1[..Upto(d, |x1|)] && x2[..d - Upto(d, |x1|)] == y2[..d - Upto(d, |x1|)])
  {
    var m := Upto(d, |x1|);
    assert (x1 + x2)[..d] == x1[..m] + x2[..d - m] && (y1 + y2)[..d] == y1[..m] + y2[..d - m];
    if (x1 + x2)[..d] == (y1 + y2)[..d] {
      assert x1[..m] == (x1 + x2)[..d][..m] && x2[..d - m] == (x1 + x2)[..d][m..];
      assert y1[..m] == (y1 + y2)[..d][..m] && y2[..d - m] == (y1 + y2)[..d][m..];
    }
  }

  lemma {:induction false} AddrBitsConcat(a: seq<byte>, b: seq<byte>)
    ensures AddrBits(a + b) == AddrBits(a) + AddrBits(b)
  {
    if b == [] {
      assert a + b == a;
    } else {
      assert (a + b)[..|a + b| - 1] == a + b[..|b| - 1];
      AddrBitsConcat(a, b[..|b| - 1]);
    }
  }

  /** The four words of an address read from the packet. */
  function Word(a: seq<byte>, i: nat): (w: seq<byte>)
    requires |a| == ADDR_SIZE && i < 4
    ensures |w| == 4
  {
    a[4 * i..4 * i + 4]
  }

  lemma {:induction false} FourWords(a: seq<byte>)
    requires |a| == ADDR_SIZE
    ensures AddrBits(a) == AddrBits(Word(a, 0)) + (AddrBits(Word(a, 1)) + (AddrBits(Word(a, 2)) + AddrBits(Word(a, 3))))
  {
    assert a == a[..4] + a[4..] && a[4..] == a[4..8] + a[8..] && a[8..] == a[8..12] + a[12..];
    AddrBitsConcat(a[..4], a[4..]);
    AddrBitsConcat(a[4..8], a[8..]);
    AddrBitsConcat(a[8..12], a[12..]);
    assert a[..4] == Word(a, 0) && a[12..] == Word(a, 3);
  }

  /**
   * For every address and depth up to 128, the four masked fields match a packet's address exactly when the two
   * addresses agree in their first `depth` bits.
   */
  lemma SelectorIsPrefix(a: seq<byte>, p: seq<byte>, depth: nat)
    requires |a| == |p| == ADDR_SIZE && depth <= 128
    ensures MatchesAll(Fields(a, depth, 4), p) <==> AddrBits(a)[..depth] == AddrBits(p)[..depth]
  {
    FieldsAre(a, depth);
    WordMatches(a, p, depth, 0);
    WordMatches(a, p, depth, 1);
    WordMatches(a, p, depth, 2);
    WordMatches(a, p, depth, 3);
    FourWords(a);
    FourWords(p);
    PrefixFour(AddrBits(Word(a, 0)), AddrBits(Word(a, 1)), AddrBits(Word(a, 2)), AddrBits(Word(a, 3)),
               AddrBits(Word(p, 0)), AddrBits(Word(p, 1)), AddrBits(Word(p, 2)), AddrBits(Word(p, 3)), depth);
  }

  /** All four fields match the words of the packet's address. */
  predicate MatchesAll(f: seq<Field>, p: seq<byte>)
    requires |f| == 4 && |p| == ADDR_SIZE && forall i :: 0 <= i < 4 ==> f[i].mask <= 32
  {
    && Matches(f[0], FromBe(Word(p, 0))) && Matches(f[1], FromBe(Word(p, 1)))
    && Matches(f[2], FromBe(Word(p, 2))) && Matches(f[3], FromBe(Word(p, 3)))
  }

  lemma WordMatches(a: seq<byte>, p: seq<byte>, depth: nat, i: nat)
    requires |a| == |p| == ADDR_SIZE && i < 4
    ensures Matches(Field(FromBe(Word(a, i)), Part(depth, i)), FromBe(Word(p, i)))
       <==> AddrBits(Word(a, i))[..Part(depth, i)] == AddrBits(Word(p, i))[..Part(depth, i)]
  {
    FieldMatches(Word(a, i), Word(p, i), Part(depth, i));
  }

  lemma PrefixFour(x0: seq<bool>, x1: seq<bool>, x2: seq<bool>, x3: seq<bool>,
                                      y0: seq<bool>, y1: seq<bool>, y2: seq<bool>, y3: seq<bool>, d: nat)
    requires |x0| == |x1| == |x2| == |x3| == |y0| == |y1| == |y2| == |y3| == 32 && d <= 128
    ensures (x0 + (x1 + (x2 + x3)))[..d] == (y0 + (y1 + (y2 + y3)))[..d]
       <==> (x0[..Part(d, 0)] == y0[..Part(d, 0)] && x1[..Part(d, 1)] == y1[..Part(d, 1)]
             && x2[..Part(d, 2)] == y2[..Part(d, 2)] && x3[..Part(d, 3)] == y3[..Part(d, 3)])
  {
    PrefixParts(x0, x1 + (x2 + x3), y0, y1 + (y2 + y3), d);
    PrefixParts(x1, x2 + x3, y1, y2 + y3, d - Part(d, 0));
    PrefixParts(x2, x3, y2, y3, d - Part(d, 0) - Part(d, 1));
  }

  /** Bits that count in word i. */
  function Part(depth: nat, i: nat): (r: nat)
    ensures r <= 32
  {
    Upto(Left(depth, i), 32)
  }

  lemma FieldsAre(a: seq<byte>, depth: nat)
    requires |a| == ADDR_SIZE
    ensures forall i :: 0 <= i < 4 ==> Fields(a, depth, 4)[i] == Field(FromBe(Word(a, i)), Part(depth, i))
  {
    var f := Fields(a, depth, 4);
    assert Fields(a, depth, 4) == Fields(a, depth, 3) + [f[3]] && Fields(a, depth, 3) == Fields(a, depth, 2) + [f[2]];
    assert Fields(a, depth, 2) == Fields(a, depth, 1) + [f[1]] && Fields(a, depth, 1) == Fields(a, depth, 0) + [f[0]];
  }
}
