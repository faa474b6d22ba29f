/** Bytes, big-endian fields and byte-sequence surgery shared by the packet codecs. */
module Bytes {
  type byte = x: int | 0 <= x < 256

  /** n-byte big-endian image of x (htons, rte_cpu_to_be_32, rte_cpu_to_be_64). */
  function Be(x: nat, n: nat): (b: seq<byte>)
    ensures |b| == n
  {
    if n == 0 then [] else Be(x / 256, n - 1) + [x % 256]
  }

  function FromBe(b: seq<byte>): nat
  {
    if |b| == 0 then 0 else FromBe(b[..|b| - 1]) * 256 + b[|b| - 1]
  }

  function Pow256(n: nat): (p: nat)
    ensures p > 0
  {
    if n == 0 then 1 else 256 * Pow256(n - 1)
  }

  lemma {:induction false} BeRoundTrip(x: nat, n: nat)
    ensures FromBe(Be(x, n)) == x % Pow256(n)
  {
    if n == 0 {
    } else {
      var b := Be(x, n);
      assert b[..n - 1] == Be(x / 256, n - 1);
      BeRoundTrip(x / 256, n - 1);
      ModSplit(x, Pow256(n - 1));
    }
  }

  lemma ModSplit(x: nat, p: nat)
    requires p > 0
    ensures (x / 256) % p * 256 + x % 256 == x % (256 * p)
  {
    var q, r := (x / 256) / p, (x / 256) % p;
    assert x == 256 * (x / 256) + x % 256;
    assert x / 256 == q * p + r;
    var low := r * 256 + x % 256;
    assert x == q * (256 * p) + low;
    assert low < 256 * p by {
      assert r <= p - 1;
    }
    ModOfSum(q, 256 * p, low);
  }

  lemma ModOfSum(q: nat, m: nat, low: nat)
    requires low < m
    ensures (q * m + low) % m == low
  {
    var y := q * m + low;
    var d, r := y / m - q, y % m;
    assert d * m == low - r by {
      assert y == m * (y / m) + r;
    }
    SmallMultiple(d, m);
  }

  lemma SmallMultiple(d: int, m: int)
    requires -m < d * m < m
    ensures d == 0
  {
  }

  /** Distinct values that fit in n bytes have distinct images. */
  lemma BeInjective(x: nat, y: nat, n: nat)
    requires x < Pow256(n) && y < Pow256(n)
    requires Be(x, n) == Be(y, n)
    ensures x == y
  {
    BeRoundTrip(x, n);
    BeRoundTrip(y, n);
  }

  /** s with the bytes from position i on overwritten by b (a store or memcpy into a packet). */
  function Splice(s: seq<byte>, i: nat, b: seq<byte>): (r: seq<byte>)
    requires i + |b| <= |s|
    ensures |r| == |s|
  {
    seq(|s|, k requires 0 <= k < |s| => if i <= k < i + |b| then b[k - i] else s[k])
  }

  lemma SpliceMiddle(a: seq<byte>, b: seq<byte>, c: seq<byte>, x: seq<byte>)
    requires |x| == |b|
    ensures Splice(a + b + c, |a|, x) == a + x + c
  {
    assert (a + b + c)[..|a|] == a;
    assert (a + b + c)[|a| + |b|..] == c;
  }

  /** Overwriting inside the middle part of a packet leaves the outer parts alone. */
  lemma SpliceInside(a: seq<byte>, b: seq<byte>, c: seq<byte>, i: nat, x: seq<byte>)
    requires i + |x| <= |b|
    ensures Splice(a + b + c, |a| + i, x) == a + Splice(b, i, x) + c
  {
    var l, r := Splice(a + b + c, |a| + i, x), a + Splice(b, i, x) + c;
    assert |l| == |r|;
    forall k | 0 <= k < |l| ensures l[k] == r[k] {
    }
  }

  lemma SubSlice(s: seq<byte>, off: nat, len: nat, a: nat, b: nat)
    requires off + len <= |s| && a <= b <= len
    ensures s[off..off + len][a..b] == s[off + a..off + b]
  {
    var l, r := s[off..off + len][a..b], s[off + a..off + b];
    assert |l| == |r|;
    forall i | 0 <= i < |l| ensures l[i] == r[i] {
    }
  }

  /** Two stores side by side are one store. */
  lemma SpliceJoin(s: seq<byte>, at: nat, x: seq<byte>, y: seq<byte>)
    requires at + |x| + |y| <= |s|
    ensures Splice(Splice(s, at, x), at + |x|, y) == Splice(s, at, x + y)
  {
  }

  /** Growing a spliced-in run by one byte. */
  lemma SpliceGrow(s: seq<byte>, at: nat, x: seq<byte>, b: byte)
    requires at + |x| < |s|
    ensures Splice(s, at, x)[at + |x| := b] == Splice(s, at, x + [b])
  {
  }

  function Zeros(n: nat): (z: seq<byte>)
    ensures |z| == n
  {
    seq(n, i => 0)
  }

  function Pow2(n: nat): (p: nat)
    ensures p > 0
  {
    if n == 0 then 1 else 2 * Pow2(n - 1)
  }

  /** Exclusive or of the n low bits of a and b. */
  function XorBits(a: nat, b: nat, n: nat): (r: nat)
    ensures r < Pow2(n)
  {
    if n == 0 then 0 else 2 * XorBits(a / 2, b / 2, n - 1) + (if a % 2 == b % 2 then 0 else 1)
  }

  function XorByte(a: byte, b: byte): (r: byte)
  {
    assert Pow2(8) == 256;
    XorBits(a, b, 8)
  }

  lemma {:induction false} XorBitsInvolutive(a: nat, b: nat, n: nat)
    requires a < Pow2(n)
    ensures XorBits(XorBits(a, b, n), b, n) == a
  {
    if n > 0 {
      var h, bit := XorBits(a / 2, b / 2, n - 1), if a % 2 == b % 2 then 0 else 1;
      XorBitsInvolutive(a / 2, b / 2, n - 1);
      assert XorBits(a, b, n) == 2 * h + bit;
      assert (2 * h + bit) / 2 == h && (2 * h + bit) % 2 == bit;
      assert XorBits(2 * h + bit, b, n) == 2 * XorBits(h, b / 2, n - 1) + (if bit == b % 2 then 0 else 1);
    }
  }

  /** Bytewise exclusive or; the second operand must cover the first. */
  function Xor(a: seq<byte>, b: seq<byte>): (r: seq<byte>)
    requires |a| <= |b|
    ensures |r| == |a|
  {
    seq(|a|, i requires 0 <= i < |a| => XorByte(a[i], b[i]))
  }

  lemma XorInvolutive(a: seq<byte>, b: seq<byte>)
    requires |a| <= |b|
    ensures Xor(Xor(a, b), b) == a
  {
    forall i | 0 <= i < |a| ensures Xor(Xor(a, b), b)[i] == a[i] {
      assert Pow2(8) == 256;
      XorBitsInvolutive(a[i], b[i], 8);
    }
  }
}
