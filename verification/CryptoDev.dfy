/**
 * The crypto device, seen through the operations ESP hands to it: an invertible block cipher used in
 * CBC mode, a key stream, and a deterministic MAC or tag. Which bytes it works on comes from the operation.
 */
module CryptoDev {
  import opened Bytes
  import opened Common

  datatype Cipher = NullCipher | TripleDesCbc | AesCbc | AesCtr | OtherCipher
  datatype Auth = NullAuth | Sha1Hmac | Sha256Hmac | OtherAuth
  datatype Aead = NoAead | AesGcm | OtherAead

  /** The primitives under one SA's keys. */
  datatype Keys = Keys(
    enc: seq<byte> -> seq<byte>,
    dec: seq<byte> -> seq<byte>,
    stream: (seq<byte>, nat) -> seq<byte>,
    mac: seq<byte> -> seq<byte>,
    tag: (seq<byte>, seq<byte>, seq<byte>) -> seq<byte>)

  /** All that is asked of the cryptography. */
  ghost predicate Sound(k: Keys, bs: nat, digest: nat)
  {
    && bs > 0
    && (forall b :: |b| == bs ==> |k.enc(b)| == bs && k.dec(k.enc(b)) == b)
    && (forall icb, n: nat :: |k.stream(icb, n)| == n)
    && (forall x :: |k.mac(x)| == digest)
    && (forall icb, aad, x :: |k.tag(icb, aad, x)| == digest)
  }

  /** Operation fields: data range and IV, then authenticated range (or AAD) and digest position. */
  datatype Op =
    | Chain(off: nat, len: nat, iv: seq<byte>, authOff: nat, authLen: nat, digestOff: nat)
    | AeadOp(off: nat, len: nat, iv: seq<byte>, aad: seq<byte>, digestOff: nat)

  ghost predicate IsCbc(c: Cipher) { c == TripleDesCbc || c == AesCbc }

  /** n is a whole number of blocks. */
  predicate Blocks(n: nat, bs: nat)
  {
    n == 0 || (0 < bs <= n && Blocks(n - bs, bs))
  }

  lemma {:induction false} BlocksIffMultiple(n: nat, bs: nat)
    requires bs > 0
    ensures Blocks(n, bs) <==> n % bs == 0
  {
    if n >= bs {
      BlocksIffMultiple(n - bs, bs);
      var q, r := (n - bs) / bs, (n - bs) % bs;
      assert n == (q + 1) * bs + r;
      ModOfSum(q + 1, bs, r);
    } else if n > 0 {
      ModOfSum(0, bs, n);
    }
  }

  ghost function CbcEnc(k: Keys, bs: nat, digest: nat, iv: seq<byte>, p: seq<byte>): (c: seq<byte>)
    requires Sound(k, bs, digest) && |iv| >= bs && Blocks(|p|, bs)
    ensures |c| == |p|
    decreases |p|
  {
    if |p| == 0 then []
    else
      var b := k.enc(Xor(p[..bs], iv));
      b + CbcEnc(k, bs, digest, b, p[bs..])
  }

  ghost function CbcDec(k: Keys, bs: nat, iv: seq<byte>, c: seq<byte>): seq<byte>
    requires bs > 0 && |iv| >= bs
    decreases |c|
  {
    if |c| < bs then []
    else
      var d := k.dec(c[..bs]);
      (if |d| == bs then Xor(d, iv) else d) + CbcDec(k, bs, c[..bs], c[bs..])
  }

  lemma CbcOneBlock(k: Keys, bs: nat, digest: nat, iv: seq<byte>, p: seq<byte>)
    requires Sound(k, bs, digest) && |iv| >= bs && |p| == bs
    ensures |k.enc(Xor(p, iv))| == bs && k.dec(k.enc(Xor(p, iv))) == Xor(p, iv)
    ensures Xor(k.dec(k.enc(Xor(p, iv))), iv) == p
  {
    XorInvolutive(p, iv);
  }

  lemma {:induction false} CbcInverse(k: Keys, bs: nat, digest: nat, iv: seq<byte>, p: seq<byte>)
    requires Sound(k, bs, digest) && |iv| >= bs && Blocks(|p|, bs)
    ensures CbcDec(k, bs, iv, CbcEnc(k, bs, digest, iv, p)) == p
    decreases |p|
  {
    if |p| > 0 {
      var b := k.enc(Xor(p[..bs], iv));
      CbcOneBlock(k, bs, digest, iv, p[..bs]);
      var rest := CbcEnc(k, bs, digest, b, p[bs..]);
      var c := b + rest;
      assert c[..bs] == b && c[bs..] == rest;
      CbcInverse(k, bs, digest, b, p[bs..]);
      assert CbcDec(k, bs, iv, c) == p[..bs] + p[bs..];
    }
  }

  /**
   * The sender enciphers a zeroed IV field together with the payload under the counter block; the receiver
   * takes that field's ciphertext as its IV and deciphers only what follows. It gets the payload back.
   */
  lemma {:induction false} CbcThroughIvField(k: Keys, bs: nat, digest: nat, block: seq<byte>, p: seq<byte>)
    requires Sound(k, bs, digest) && |block| >= bs && Blocks(|p|, bs)
    ensures Blocks(bs + |p|, bs)
    ensures var c := CbcEnc(k, bs, digest, block, Zeros(bs) + p);
            |c| == bs + |p| && CbcDec(k, bs, c[..bs], c[bs..]) == p
  {
    var f := Zeros(bs) + p;
    var b := k.enc(Xor(f[..bs], block));
    assert f[bs..] == p;
    var rest := CbcEnc(k, bs, digest, b, p);
    var c := b + rest;
    assert CbcEnc(k, bs, digest, block, f) == c;
    assert c[..bs] == b && c[bs..] == rest;
    CbcInverse(k, bs, digest, b, p);
  }

  ghost predicate Fits(d: seq<byte>, op: Op, digest: nat)
  {
    && op.off + op.len <= |d|
    && op.digestOff + digest <= |d|
    && (op.Chain? ==> op.authOff + op.authLen <= |d|)
  }

  ghost predicate CipherOk(c: Cipher, bs: nat, op: Op)
    requires bs > 0
  {
    op.Chain? && IsCbc(c) ==> |op.iv| >= bs && Blocks(op.len, bs)
  }

  ghost function Encipher(c: Cipher, k: Keys, bs: nat, digest: nat, iv: seq<byte>, x: seq<byte>): (y: seq<byte>)
    requires Sound(k, bs, digest) && (IsCbc(c) ==> |iv| >= bs && Blocks(|x|, bs))
    ensures |y| == |x|
  {
    if IsCbc(c) then CbcEnc(k, bs, digest, iv, x)
    else if c == AesCtr then Xor(x, k.stream(iv, |x|))
    else x
  }

  ghost function Decipher(c: Cipher, k: Keys, bs: nat, digest: nat, iv: seq<byte>, x: seq<byte>): seq<byte>
    requires Sound(k, bs, digest) && (IsCbc(c) ==> |iv| >= bs)
  {
    if IsCbc(c) then CbcDec(k, bs, iv, x)
    else if c == AesCtr then Xor(x, k.stream(iv, |x|))
    else x
  }

  /** Outbound: cipher first, then authenticate the ciphertext (sa.c chains cipher before auth). */
  ghost function RunOut(c: Cipher, k: Keys, bs: nat, digest: nat, d: seq<byte>, op: Op): (r: seq<byte>)
    requires Sound(k, bs, digest) && Fits(d, op, digest) && CipherOk(c, bs, op)
    ensures |r| == |d|
  {
    var x := d[op.off..op.off + op.len];
    if op.Chain? then
      var e := Splice(d, op.off, Encipher(c, k, bs, digest, op.iv, x));
      Splice(e, op.digestOff, k.mac(e[op.authOff..op.authOff + op.authLen]))
    else
      var y := Xor(x, k.stream(op.iv, op.len));
      Splice(Splice(d, op.off, y), op.digestOff, k.tag(op.iv, op.aad, y))
  }

  /** Inbound: verify first, then decipher; None is a failed operation status. */
  ghost function RunIn(c: Cipher, k: Keys, bs: nat, digest: nat, d: seq<byte>, op: Op): Option<seq<byte>>
    requires Sound(k, bs, digest) && Fits(d, op, digest) && CipherOk(c, bs, op)
  {
    var x := d[op.off..op.off + op.len];
    var sent := d[op.digestOff..op.digestOff + digest];
    if op.Chain? then
      var y := Decipher(c, k, bs, digest, op.iv, x);
      if k.mac(d[op.authOff..op.authOff + op.authLen]) == sent && |y| == |x| then Some(Splice(d, op.off, y)) else None
    else if k.tag(op.iv, op.aad, x) == sent then Some(Splice(d, op.off, Xor(x, k.stream(op.iv, op.len))))
    else None
  }
}
