/** What esp_outbound, the crypto device and esp_inbound do to a packet between two gateways. */
module EspRoundTrip {
  import opened Bytes
  import opened Common
  import opened Checksum
  import opened CryptoDev
  import opened PacketBuffer
  import opened Esp
  import Ipip

  /** An ESP packet on the wire. */
  datatype Wire = Wire(front: seq<byte>, esp: seq<byte>, iv: seq<byte>, ct: seq<byte>, icv: seq<byte>)
  {
    function Bytes(): (b: seq<byte>)
      ensures |b| == |front| + |esp| + |iv| + |ct| + |icv|
    {
      front + esp + iv + ct + icv
    }

    function Head(): nat { |front| + |esp| }

    lemma EspRange()
      ensures Bytes()[|front|..Head()] == esp && Bytes()[..|front|] == front
    {
    }

    lemma IvRange()
      ensures Bytes()[Head()..Head() + |iv|] == iv
    {
    }

    lemma BodyRange()
      ensures Bytes()[Head() + |iv|..Head() + |iv| + |ct|] == ct
    {
    }

    lemma IvAndBodyRange()
      ensures Bytes()[Head()..Head() + |iv| + |ct|] == iv + ct
    {
    }

    lemma AuthRange()
      ensures Bytes()[|front|..Head() + |iv| + |ct|] == esp + iv + ct
    {
    }

    lemma IcvRange()
      ensures Bytes()[Head() + |iv| + |ct|..Head() + |iv| + |ct| + |icv|] == icv
    {
    }

    lemma ReplaceBody(x: seq<byte>)
      requires |x| == |ct|
      ensures Splice(Bytes(), Head() + |iv|, x) == this.(ct := x).Bytes()
    {
      SpliceMiddle(front + esp + iv, ct, icv, x);
    }

    lemma ReplaceIvAndBody(y: seq<byte>, x: seq<byte>)
      requires |y| == |iv| && |x| == |ct|
      ensures Splice(Bytes(), Head(), y + x) == this.(iv := y, ct := x).Bytes()
    {
      SpliceMiddle(front + esp, iv + ct, icv, y + x);
      assert Bytes() == front + esp + (iv + ct) + icv;
      assert this.(iv := y, ct := x).Bytes() == front + esp + (y + x) + icv;
    }

    lemma ReplaceIcv(z: seq<byte>)
      requires |z| == |icv|
      ensures Splice(Bytes(), Head() + |iv| + |ct|, z) == this.(icv := z).Bytes()
    {
      SpliceMiddle(front + esp + iv + ct, icv, [], z);
      assert Bytes() == front + esp + iv + ct + icv + [];
      assert this.(icv := z).Bytes() == front + esp + iv + ct + z + [];
    }
  }

  function AsWire(f: Frame): Wire
    requires f.pad <= 255
  {
    Wire(f.front, f.EspHdr(), f.iv, f.Plain(), f.icv)
  }

  /** A plaintext frame laid out for this SA; in CBC mode its IV field is zeroed. */
  ghost predicate Sealable(c: Config, k: Keys, a: Wire)
  {
    && TableRow(c) && Sound(k, c.blockSize, c.digestLen)
    && |a.esp| == 8 && |a.iv| == c.ivLen && |a.icv| == c.digestLen && Blocks(|a.ct|, c.blockSize)
    && (IsCbc(c.cipher) && c.aead != AesGcm ==> a.iv == Zeros(c.ivLen))
  }

  ghost function CbcImage(c: Config, k: Keys, a: Wire, block: seq<byte>): (s: seq<byte>)
    requires Sealable(c, k, a) && c.aead != AesGcm && IsCbc(c.cipher) && |block| == 16
    ensures |s| == c.ivLen + |a.ct|
  {
    assert Blocks(c.blockSize + |a.ct|, c.blockSize);
    CbcEnc(k, c.blockSize, c.digestLen, block, a.iv + a.ct)
  }

  /** The wire image of a frame under the SA's algorithms. */
  ghost function Seal(c: Config, k: Keys, a: Wire, block: seq<byte>): (w: Wire)
    requires Sealable(c, k, a) && |block| == 16
    ensures |w.iv| == |a.iv| && |w.ct| == |a.ct| && |w.icv| == |a.icv| && w.front == a.front && w.esp == a.esp
  {
    if c.aead == AesGcm then
      var ct := Xor(a.ct, k.stream(block, |a.ct|));
      a.(ct := ct, icv := k.tag(block, a.esp, ct))
    else if c.cipher == AesCtr then
      var ct := Xor(a.ct, k.stream(block, |a.ct|));
      a.(ct := ct, icv := k.mac(a.esp + a.iv + ct))
    else if IsCbc(c.cipher) then
      var s := CbcImage(c, k, a, block);
      var iv, ct := s[..c.ivLen], s[c.ivLen..];
      Wire(a.front, a.esp, iv, ct, k.mac(a.esp + iv + ct))
    else
      a.(icv := k.mac(a.esp + a.iv + a.ct))
  }

  function SendOp(c: Config, a: Wire, block: seq<byte>): Op
  {
    if c.aead == AesGcm then GcmOp(a, block)
    else if c.cipher == AesCtr then BodyOp(a, block)
    else IvAndBodyOp(a, block)
  }

  function ReceiveOp(c: Config, w: Wire, block: seq<byte>): Op
  {
    if c.aead == AesGcm then GcmOp(w, block)
    else if c.cipher == AesCtr then BodyOp(w, block)
    else BodyOp(w, w.iv)
  }

  ghost predicate DeviceReady(alg: Cipher, k: Keys, bs: nat, dl: nat, w: Wire)
  {
    Sound(k, bs, dl) && |w.icv| == dl
  }

  function BodyOp(w: Wire, iv: seq<byte>): Op
  {
    Chain(w.Head() + |w.iv|, |w.ct|, iv, |w.front|, |w.esp| + |w.iv| + |w.ct|, w.Head() + |w.iv| + |w.ct|)
  }

  function IvAndBodyOp(w: Wire, iv: seq<byte>): Op
  {
    Chain(w.Head(), |w.iv| + |w.ct|, iv, |w.front|, |w.esp| + |w.iv| + |w.ct|, w.Head() + |w.iv| + |w.ct|)
  }

  function GcmOp(w: Wire, iv: seq<byte>): Op
  {
    AeadOp(w.Head() + |w.iv|, |w.ct|, iv, w.esp, w.Head() + |w.iv| + |w.ct|)
  }

  lemma ChainSealsBody(alg: Cipher, k: Keys, bs: nat, dl: nat, a: Wire, iv: seq<byte>)
    requires DeviceReady(alg, k, bs, dl, a) && CipherOk(alg, bs, BodyOp(a, iv))
    ensures Fits(a.Bytes(), BodyOp(a, iv), dl)
    ensures var ct := Encipher(alg, k, bs, dl, iv, a.ct);
            RunOut(alg, k, bs, dl, a.Bytes(), BodyOp(a, iv))
                == Wire(a.front, a.esp, a.iv, ct, k.mac(a.esp + a.iv + ct)).Bytes()
  {
    var ct := Encipher(alg, k, bs, dl, iv, a.ct);
    var op, b := BodyOp(a, iv), a.(ct := ct);
    BodyPlace(a, iv, ct);
    RunOutOnRanges(alg, k, bs, dl, a.Bytes(), op, ct, b.Bytes());
    MacReplaced(k, b, a.esp + a.iv + ct, op.authOff, op.authLen, op.digestOff);
  }

  lemma BodyPlace(a: Wire, iv: seq<byte>, ct: seq<byte>)
    requires |ct| == |a.ct|
    ensures var op := BodyOp(a, iv);
            op.off + op.len <= |a.Bytes()| && a.Bytes()[op.off..op.off + op.len] == a.ct
            && Splice(a.Bytes(), op.off, ct) == a.(ct := ct).Bytes()
  {
    a.BodyRange();
    a.ReplaceBody(ct);
  }

  /** The ICV written over the authenticated range. */
  lemma MacReplaced(k: Keys, b: Wire, covered: seq<byte>, authOff: nat, authLen: nat, digestOff: nat)
    requires covered == b.esp + b.iv + b.ct && |k.mac(covered)| == |b.icv|
    requires authOff == |b.front| && authLen == |covered| && digestOff == b.Head() + |b.iv| + |b.ct|
    ensures authOff + authLen <= |b.Bytes()| && digestOff + |b.icv| <= |b.Bytes()|
    ensures b.Bytes()[authOff..authOff + authLen] == covered
    ensures Splice(b.Bytes(), digestOff, k.mac(covered)) == b.(icv := k.mac(covered)).Bytes()
  {
    b.AuthRange();
    b.ReplaceIcv(k.mac(covered));
  }

  lemma RunOutOnRanges(alg: Cipher, k: Keys, bs: nat, dl: nat, d: seq<byte>, op: Op, ct: seq<byte>, e: seq<byte>)
    requires Sound(k, bs, dl) && op.Chain? && Fits(d, op, dl) && CipherOk(alg, bs, op)
    requires Encipher(alg, k, bs, dl, op.iv, d[op.off..op.off + op.len]) == ct && Splice(d, op.off, ct) == e
    ensures RunOut(alg, k, bs, dl, d, op) == Splice(e, op.digestOff, k.mac(e[op.authOff..op.authOff + op.authLen]))
  {
  }

  lemma ChainSealsIvAndBody(alg: Cipher, k: Keys, bs: nat, dl: nat, a: Wire, iv: seq<byte>, y: seq<byte>, x: seq<byte>)
    requires DeviceReady(alg, k, bs, dl, a) && CipherOk(alg, bs, IvAndBodyOp(a, iv))
    requires |y| == |a.iv| && |x| == |a.ct| && Encipher(alg, k, bs, dl, iv, a.iv + a.ct) == y + x
    ensures Fits(a.Bytes(), IvAndBodyOp(a, iv), dl)
    ensures RunOut(alg, k, bs, dl, a.Bytes(), IvAndBodyOp(a, iv))
            == Wire(a.front, a.esp, y, x, k.mac(a.esp + y + x)).Bytes()
  {
    var op, b := IvAndBodyOp(a, iv), a.(iv := y, ct := x);
    assert a.Bytes()[op.off..op.off + op.len] == a.iv + a.ct by { a.IvAndBodyRange(); }
    assert b.Bytes()[op.authOff..op.authOff + op.authLen] == a.esp + y + x by { b.AuthRange(); }
    a.ReplaceIvAndBody(y, x);
    b.ReplaceIcv(k.mac(a.esp + y + x));
    RunOutOnRanges(alg, k, bs, dl, a.Bytes(), op, y + x, b.Bytes());
  }

  lemma {:induction false} GcmSeals(alg: Cipher, k: Keys, bs: nat, dl: nat, a: Wire, iv: seq<byte>)
    requires DeviceReady(alg, k, bs, dl, a)
    ensures Fits(a.Bytes(), GcmOp(a, iv), dl)
    ensures var ct := Xor(a.ct, k.stream(iv, |a.ct|));
            RunOut(alg, k, bs, dl, a.Bytes(), GcmOp(a, iv))
                == Wire(a.front, a.esp, a.iv, ct, k.tag(iv, a.esp, ct)).Bytes()
  {
    var ct := Xor(a.ct, k.stream(iv, |a.ct|));
    a.BodyRange();
    a.ReplaceBody(ct);
    a.(ct := ct).ReplaceIcv(k.tag(iv, a.esp, ct));
  }

  lemma {:induction false} ChainOpens(alg: Cipher, k: Keys, bs: nat, dl: nat, w: Wire, iv: seq<byte>, plain: seq<byte>)
    requires DeviceReady(alg, k, bs, dl, w) && CipherOk(alg, bs, BodyOp(w, iv))
    requires w.icv == k.mac(w.esp + w.iv + w.ct)
    requires |plain| == |w.ct| && Decipher(alg, k, bs, dl, iv, w.ct) == plain
    ensures Fits(w.Bytes(), BodyOp(w, iv), dl)
    ensures RunIn(alg, k, bs, dl, w.Bytes(), BodyOp(w, iv)) == Some(w.(ct := plain).Bytes())
  {
    var d, op := w.Bytes(), BodyOp(w, iv);
    assert d[op.off..op.off + op.len] == w.ct by { w.BodyRange(); }
    assert d[op.authOff..op.authOff + op.authLen] == w.esp + w.iv + w.ct by { w.AuthRange(); }
    assert d[op.digestOff..op.digestOff + dl] == w.icv by { w.IcvRange(); }
    w.ReplaceBody(plain);
    RunInOnRanges(alg, k, bs, dl, d, op, plain);
  }

  /** A chained operation succeeds when the digest over its range is the one in the packet. */
  lemma RunInOnRanges(alg: Cipher, k: Keys, bs: nat, dl: nat, d: seq<byte>, op: Op, plain: seq<byte>)
    requires Sound(k, bs, dl) && op.Chain? && Fits(d, op, dl) && CipherOk(alg, bs, op)
    requires k.mac(d[op.authOff..op.authOff + op.authLen]) == d[op.digestOff..op.digestOff + dl]
    requires Decipher(alg, k, bs, dl, op.iv, d[op.off..op.off + op.len]) == plain && |plain| == op.len
    ensures RunIn(alg, k, bs, dl, d, op) == Some(Splice(d, op.off, plain))
  {
  }

  lemma GcmOpens(alg: Cipher, k: Keys, bs: nat, dl: nat, w: Wire, iv: seq<byte>, plain: seq<byte>)
    requires DeviceReady(alg, k, bs, dl, w)
    requires w.icv == k.tag(iv, w.esp, w.ct) && |plain| == |w.ct| && w.ct == Xor(plain, k.stream(iv, |plain|))
    ensures Fits(w.Bytes(), GcmOp(w, iv), dl)
    ensures RunIn(alg, k, bs, dl, w.Bytes(), GcmOp(w, iv)) == Some(w.(ct := plain).Bytes())
  {
    w.BodyRange();
    w.IcvRange();
    XorInvolutive(plain, k.stream(iv, |plain|));
    w.ReplaceBody(plain);
  }

  ghost predicate SealsTo(c: Config, k: Keys, a: Wire, block: seq<byte>)
    requires Sealable(c, k, a) && |block| == 16
  {
    var d, op := a.Bytes(), SendOp(c, a, block);
    && Fits(d, op, c.digestLen) && CipherOk(c.cipher, c.blockSize, op)
    && RunOut(c.cipher, k, c.blockSize, c.digestLen, d, op) == Seal(c, k, a, block).Bytes()
  }

  lemma SealsCbc(c: Config, k: Keys, a: Wire, block: seq<byte>)
    requires Sealable(c, k, a) && c.aead != AesGcm && IsCbc(c.cipher) && |block| == 16
    ensures SealsTo(c, k, a, block)
  {
    var s := Seal(c, k, a, block);
    assert CbcImage(c, k, a, block) == s.iv + s.ct;
    ChainSealsIvAndBody(c.cipher, k, c.blockSize, c.digestLen, a, block, s.iv, s.ct);
  }

  lemma SealsNull(c: Config, k: Keys, a: Wire, block: seq<byte>)
    requires Sealable(c, k, a) && c.aead != AesGcm && c.cipher == NullCipher && |block| == 16
    ensures SealsTo(c, k, a, block)
  {
    ChainSealsIvAndBody(c.cipher, k, c.blockSize, c.digestLen, a, block, a.iv, a.ct);
  }

  lemma SealsCtr(c: Config, k: Keys, a: Wire, block: seq<byte>)
    requires Sealable(c, k, a) && c.aead != AesGcm && c.cipher == AesCtr && |block| == 16
    ensures SealsTo(c, k, a, block)
  {
    ChainSealsBody(c.cipher, k, c.blockSize, c.digestLen, a, block);
  }

  lemma SealsGcm(c: Config, k: Keys, a: Wire, block: seq<byte>)
    requires Sealable(c, k, a) && c.aead == AesGcm && |block| == 16
    ensures SealsTo(c, k, a, block)
  {
    GcmSeals(c.cipher, k, c.blockSize, c.digestLen, a, block);
  }

  /** The device turns the frame into the wire image: cipher range and ICV range are what the sender meant. */
  lemma DeviceSeals(c: Config, k: Keys, a: Wire, block: seq<byte>)
    requires Sealable(c, k, a) && |block| == 16
    ensures SealsTo(c, k, a, block)
  {
    if c.aead == AesGcm {
      SealsGcm(c, k, a, block);
    } else if c.cipher == AesCtr {
      SealsCtr(c, k, a, block);
    } else if IsCbc(c.cipher) {
      SealsCbc(c, k, a, block);
    } else {
      SealsNull(c, k, a, block);
    }
  }

  /** The receiver's device accepts the wire image and hands back the frame with the wire's IV field and ICV. */
  ghost predicate OpensTo(c: Config, k: Keys, a: Wire, block: seq<byte>)
    requires Sealable(c, k, a) && |block| == 16
  {
    var s := Seal(c, k, a, block);
    var w, op := s.Bytes(), ReceiveOp(c, s, block);
    && Fits(w, op, c.digestLen) && CipherOk(c.cipher, c.blockSize, op)
    && RunIn(c.cipher, k, c.blockSize, c.digestLen, w, op) == Some(s.(ct := a.ct).Bytes())
  }

  lemma OpensCbc(c: Config, k: Keys, a: Wire, block: seq<byte>)
    requires Sealable(c, k, a) && c.aead != AesGcm && IsCbc(c.cipher) && |block| == 16
    ensures OpensTo(c, k, a, block)
  {
    var s := Seal(c, k, a, block);
    CbcThroughIvField(k, c.blockSize, c.digestLen, block, a.ct);
    ChainOpens(c.cipher, k, c.blockSize, c.digestLen, s, s.iv, a.ct);
  }

  lemma OpensNull(c: Config, k: Keys, a: Wire, block: seq<byte>)
    requires Sealable(c, k, a) && c.aead != AesGcm && c.cipher == NullCipher && |block| == 16
    ensures OpensTo(c, k, a, block)
  {
    var s := Seal(c, k, a, block);
    ChainOpens(c.cipher, k, c.blockSize, c.digestLen, s, s.iv, a.ct);
  }

  lemma OpensCtr(c: Config, k: Keys, a: Wire, block: seq<byte>)
    requires Sealable(c, k, a) && c.aead != AesGcm && c.cipher == AesCtr && |block| == 16
    ensures OpensTo(c, k, a, block)
  {
    var s := Seal(c, k, a, block);
    XorInvolutive(a.ct, k.stream(block, |a.ct|));
    ChainOpens(c.cipher, k, c.blockSize, c.digestLen, s, block, a.ct);
  }

  lemma OpensGcm(c: Config, k: Keys, a: Wire, block: seq<byte>)
    requires Sealable(c, k, a) && c.aead == AesGcm && |block| == 16
    ensures OpensTo(c, k, a, block)
  {
    GcmOpens(c.cipher, k, c.blockSize, c.digestLen, Seal(c, k, a, block), block, a.ct);
  }

  /** The receiver's ranges match the sender's: the ICV verifies and the plaintext comes back. */
  lemma DeviceOpens(c: Config, k: Keys, a: Wire, block: seq<byte>)
    requires Sealable(c, k, a) && |block| == 16
    ensures OpensTo(c, k, a, block)
  {
    if c.aead == AesGcm {
      OpensGcm(c, k, a, block);
    } else if c.cipher == AesCtr {
      OpensCtr(c, k, a, block);
    } else if IsCbc(c.cipher) {
      OpensCbc(c, k, a, block);
    } else {
      OpensNull(c, k, a, block);
    }
  }

  lemma IvFieldRead(w: Wire)
    ensures w.Bytes()[|w.front|..w.Head()] == w.esp
    ensures w.Bytes()[w.Head()..w.Head() + |w.iv|] == w.iv
    ensures |w.iv| >= 8 ==> w.Bytes()[w.Head()..w.Head() + 8] == w.iv[..8]
  {
    w.EspRange();
    w.IvRange();
    if |w.iv| >= 8 {
      SubSlice(w.Bytes(), w.Head(), |w.iv|, 0, 8);
    }
  }

  /** The front of a wire packet is recognised for what it is. */
  lemma FrontParses(c: Config, p: seq<byte>, front: seq<byte>, total: nat)
    requires WellConfigured(c) && Fitting(c, p) && Ipip.Version(p) in {4, 6}
    requires |front| == FrontLen(c, p) && FrontMatches(c, p, front, total)
    ensures Ipip.WholeHeader(front) && Ipip.HeaderLen(front) == |front| && Ipip.Version(front) in {4, 6}
    ensures Tunnel(c) ==> (Ipip.Version(front) == 4 <==> c.mode == Ip4Tunnel)
    ensures Tunnel(c) ==> (Ipip.CarriesCe(front) <==> Ipip.DsEcn(p) % 4 == 3)
  {
    if c.mode == Transport {
      assert p[..Kept(c, p)][0] == p[0];
    }
  }

  function Block(c: Config, sn: nat): (b: seq<byte>)
    requires WellConfigured(c)
    ensures |b| == 16
  {
    CounterBlock(c.salt, Be(sn, 8))
  }

  /** Operation fields as esp_outbound computes them, for a packet in parts. */
  lemma SendOpMatches(c: Config, a: Wire, sn: nat)
    requires WellConfigured(c) && |a.esp| == 8 && |a.iv| == c.ivLen && |a.icv| == c.digestLen
    ensures OutOp(c, |a.front|, |a.ct|, |a.Bytes()|, sn, a.esp) == SendOp(c, a, Block(c, sn))
  {
  }

  /** The receiver measures a packet in parts correctly. */
  lemma Measured(c: Config, s: Wire)
    requires WellConfigured(c) && |s.esp| == 8 && |s.iv| == c.ivLen && |s.icv| == c.digestLen
    requires Ipip.WholeHeader(s.front) && Ipip.HeaderLen(s.front) == |s.front| && Ipip.Version(s.front) in {4, 6}
    requires |s.ct| > 0 && Blocks(|s.ct|, c.blockSize)
    ensures Receivable(c, s.Bytes()) && Payload(c, s.Bytes()) == |s.ct| && Ipip.HeaderLen(s.Bytes()) == |s.front|
  {
    assert s.Bytes()[0] == s.front[0];
  }

  /** It reads the IV it needs from the IV field. */
  lemma ReceiveOpMatches(c: Config, s: Wire, block: seq<byte>)
    requires WellConfigured(c) && |s.esp| == 8 && |s.iv| == c.ivLen && |s.icv| == c.digestLen
    requires c.aead == AesGcm || c.cipher == AesCtr ==> block == CounterBlock(c.salt, s.iv[..8])
    ensures InOpAt(c, s.Bytes(), |s.front|, |s.ct|) == ReceiveOp(c, s, block)
  {
    IvFieldRead(s);
  }

  /** The part of a frame that is enciphered has the length the sender announced. */
  lemma PlainLength(c: Config, p: seq<byte>, sn: nat, f: Frame)
    requires WellConfigured(c) && Acceptable(c, p) && Encapsulates(c, p, sn, f)
    ensures |f.Plain()| == TruePadded(c, p) > 0
    ensures |f.Bytes()| == |f.front| + 8 + |f.iv| + |f.Plain()| + |f.icv|
  {
    assert |f.body| == |p| - Kept(c, p);
  }

  /** A frame made by esp_outbound is laid out as its SA prescribes, and its operation is the sender's. */
  lemma FrameSealable(c: Config, k: Keys, p: seq<byte>, sn: nat, f: Frame)
    requires TableRow(c) && Sound(k, c.blockSize, c.digestLen)
    requires Acceptable(c, p) && TruePadded(c, p) < 0x10000 && Encapsulates(c, p, sn, f)
    ensures Sealable(c, k, AsWire(f)) && AsWire(f).Bytes() == f.Bytes()
    ensures OutOpFor(c, p, |f.Bytes()|, sn, f.EspHdr()) == SendOp(c, AsWire(f), Block(c, sn))
  {
    PlainLength(c, p, sn, f);
    SendOpMatches(c, AsWire(f), sn);
  }

  /** The receiver measures the wire packet correctly and rebuilds the sender's counter block from its bytes. */
  lemma {:induction false} WireReceivable(c: Config, k: Keys, p: seq<byte>, sn: nat, f: Frame)
    requires TableRow(c) && Sound(k, c.blockSize, c.digestLen)
    requires Acceptable(c, p) && TruePadded(c, p) < 0x10000 && Encapsulates(c, p, sn, f)
    requires Sealable(c, k, AsWire(f))
    ensures var s := Seal(c, k, AsWire(f), Block(c, sn));
            && Receivable(c, s.Bytes()) && Payload(c, s.Bytes()) == |f.Plain()|
            && InOp(c, s.Bytes()) == ReceiveOp(c, s, Block(c, sn))
  {
    PlainLength(c, p, sn, f);
    FrontParses(c, p, f.front, |f.Bytes()|);
    var s := Seal(c, k, AsWire(f), Block(c, sn));
    Measured(c, s);
    ReceiveOpMatches(c, s, Block(c, sn));
  }

  /** What the receiving gateway ends up with. */
  function Arrival(c: Config, p: seq<byte>): seq<byte>
    requires Fitting(c, p)
  {
    if c.mode == Transport then Readdress(p[..Kept(c, p)], NextProto(c, p), |p|) + p[Kept(c, p)..]
    else Ipip.Arrive(Ipip.DsEcn(p) % 4 == 3, Ipip.Hop(p))
  }

  /** A deciphered packet in parts. */
  function Parts(front: seq<byte>, head: seq<byte>, f: Frame, icv: seq<byte>): seq<byte>
    requires f.pad <= 255
  {
    front + head + f.Plain() + icv
  }

  lemma TrailerFound(c: Config, front: seq<byte>, head: seq<byte>, f: Frame, icv: seq<byte>)
    requires f.pad <= 255 && |icv| == c.digestLen
    ensures var e := Parts(front, head, f, icv);
            && |e| >= c.digestLen + 2 && e[PadAt(c, e)] == f.pad <= PadAt(c, e) && e[PadAt(c, e) + 1] == f.next
            && Stripped(c, e) == front + head + f.body
            && SequentialPad(e, PadAt(c, e))
  {
    var e := Parts(front, head, f, icv);
    var n := |front| + |head| + |f.body|;
    assert e == front + head + f.body + Padding(f.pad) + [f.pad, f.next] + icv;
    assert PadAt(c, e) == n + f.pad;
    assert e[..n] == front + head + f.body;
    assert e[n..n + f.pad] == Padding(f.pad);
    forall k | n <= k < n + f.pad ensures e[k] == k - n + 1 {
      assert e[k] == Padding(f.pad)[k - n];
    }
  }

  lemma ReaddressTwice(h: seq<byte>, a: byte, t: nat, b: byte, u: nat)
    requires Ipip.WholeHeader(h)
    ensures Readdress(Readdress(h, a, t), b, u) == Readdress(h, b, u)
  {
  }

  lemma {:induction false} UnwrapsTransport(c: Config, p: seq<byte>, front: seq<byte>, head: seq<byte>,
                                            body: seq<byte>, total: nat)
    requires WellConfigured(c) && c.mode == Transport && Ipip.WholeHeader(p) && Ipip.Version(p) in {4, 6}
    requires |front| == FrontLen(c, p) && FrontMatches(c, p, front, total) && |head| == 8 + c.ivLen
    requires body == p[Kept(c, p)..]
    ensures Unwrappable(c, front + head + body)
    ensures Unwrapped(c, front + head + body, NextProto(c, p)) == Arrival(c, p)
  {
    var d, hl := front + head + body, Kept(c, p);
    FrontParses(c, p, front, total);
    assert d[0] == front[0];
    assert d[..hl] == front && d[hl + 8 + c.ivLen..] == body;
    ReaddressTwice(p[..hl], Ipip.IPPROTO_ESP, total, NextProto(c, p), |p|);
  }

  lemma UnwrapsTunnel(c: Config, p: seq<byte>, front: seq<byte>, head: seq<byte>, total: nat)
    requires WellConfigured(c) && Tunnel(c) && Ipip.Headed(p) && Ipip.Version(p) in {4, 6}
    requires |front| == FrontLen(c, p) && FrontMatches(c, p, front, total) && |head| == 8 + c.ivLen
    ensures Unwrappable(c, front + head + Ipip.Hop(p))
    ensures Unwrapped(c, front + head + Ipip.Hop(p), 0) == Arrival(c, p)
  {
    var d := front + head + Ipip.Hop(p);
    FrontParses(c, p, front, total);
    assert d[0] == front[0] && d[1] == front[1];
    assert d[|front| + 8 + c.ivLen..] == Ipip.Hop(p);
  }

  lemma {:induction false} DeliversArrival(c: Config, p: seq<byte>, sn: nat, f: Frame, iv: seq<byte>, icv: seq<byte>)
    requires TableRow(c) && Acceptable(c, p) && Encapsulates(c, p, sn, f)
    requires |iv| == c.ivLen && |icv| == c.digestLen
    ensures var e := Wire(f.front, f.EspHdr(), iv, f.Plain(), icv).Bytes();
            Strippable(c, e) && SequentialPad(e, PadAt(c, e)) && Delivered(c, e) == Arrival(c, p)
  {
    var head := f.EspHdr() + iv;
    var e := Wire(f.front, f.EspHdr(), iv, f.Plain(), icv).Bytes();
    WireParts(f, iv, icv);
    TrailerFound(c, f.front, head, f, icv);
    Unwraps(c, p, sn, f, head);
    DeliveredFrom(c, e, f.front + head + f.body, f.next, Arrival(c, p));
  }

  lemma WireParts(f: Frame, iv: seq<byte>, icv: seq<byte>)
    requires f.pad <= 255
    ensures Wire(f.front, f.EspHdr(), iv, f.Plain(), icv).Bytes() == Parts(f.front, f.EspHdr() + iv, f, icv)
  {
  }

  lemma Unwraps(c: Config, p: seq<byte>, sn: nat, f: Frame, head: seq<byte>)
    requires TableRow(c) && Acceptable(c, p) && Encapsulates(c, p, sn, f) && |head| == 8 + c.ivLen
    ensures Unwrappable(c, f.front + head + f.body)
    ensures Unwrapped(c, f.front + head + f.body, if c.mode == Transport then f.next else 0) == Arrival(c, p)
  {
    if c.mode == Transport {
      UnwrapsTransport(c, p, f.front, head, f.body, |f.Bytes()|);
    } else {
      UnwrapsTunnel(c, p, f.front, head, |f.Bytes()|);
    }
  }

  /**
   * ESP round trip. Whatever frame esp_outbound made of a packet, under any supported algorithm, mode and
   * sequence number: its operation seals the frame; the receiver measures the sealed packet correctly, asks for
   * the matching ranges, and finds the ICV and the padding good; and what it hands on is Arrival(c, p).
   */
  lemma {:induction false} RoundTrip(c: Config, k: Keys, p: seq<byte>, sn: nat, f: Frame)
    requires TableRow(c) && Sound(k, c.blockSize, c.digestLen)
    requires Acceptable(c, p) && TruePadded(c, p) < 0x10000 && Encapsulates(c, p, sn, f)
    ensures var bs, dl := c.blockSize, c.digestLen;
            var d := f.Bytes();
            var sent := OutOpFor(c, p, |d|, sn, f.EspHdr());
            && Fits(d, sent, dl) && CipherOk(c.cipher, bs, sent)
            && var w := RunOut(c.cipher, k, bs, dl, d, sent);
               && |w| == |d| && Receivable(c, w)
               && var op := InOp(c, w);
                  && Fits(w, op, dl) && CipherOk(c.cipher, bs, op)
                  && var clear := RunIn(c.cipher, k, bs, dl, w, op);
                     && clear.Some? && Strippable(c, clear.value)
                     && SequentialPad(clear.value, PadAt(c, clear.value))
                     && Delivered(c, clear.value) == Arrival(c, p)
  {
    FrameSealable(c, k, p, sn, f);
    var a, block := AsWire(f), Block(c, sn);
    DeviceSeals(c, k, a, block);
    WireReceivable(c, k, p, sn, f);
    DeviceOpens(c, k, a, block);
    var s := Seal(c, k, a, block);
    DeliversArrival(c, p, sn, f, s.iv, s.icv);
  }

  /** The length an IP header announces for the whole packet. */
  function AnnouncedLength(p: seq<byte>): nat
    requires Ipip.WholeHeader(p)
  {
    if Ipip.Version(p) == 4 then FromBe(p[2..4]) else 40 + FromBe(p[4..6])
  }

  lemma Be2Bytes(x: nat, b: seq<byte>)
    requires x < 0x10000 && |b| == 2
    ensures Be(x, 2) == b <==> FromBe(b) == x
  {
    TwoBytes(x);
    assert FromBe(b) == (b[0] as int) * 256 + b[1] by {
      assert b[..1] == [b[0]];
      assert FromBe([b[0]]) == b[0];
    }
  }

  lemma TwoBytes(x: nat)
    requires x < 0x10000
    ensures Be(x, 2) == [x / 256, x % 256]
  {
    assert Be(x / 256, 1) == [x / 256 % 256];
  }

  /** In transport mode the packet that arrives is the packet that was sent, exactly when its length field was true. */
  lemma TransportIsExact(c: Config, p: seq<byte>)
    requires c.mode == Transport && Ipip.WholeHeader(p) && Ipip.Version(p) in {4, 6} && |p| < 0x10000
    ensures Arrival(c, p) == p <==> AnnouncedLength(p) == |p|
  {
    var hl := Kept(c, p);
    var h := p[..hl];
    var at := if Ipip.Version(p) == 4 then 2 else 4;
    var total := if Ipip.Version(p) == 4 then |p| else |p| - 40;
    var r := Arrival(c, p);
    assert h[..] == p[..hl] && h[0] == p[0];
    Be2Bytes(total, p[at..at + 2]);
    LengthPatched(c, p);
    if Be(total, 2) == p[at..at + 2] {
      assert r == p;
    } else {
      assert r[at..at + 2] != p[at..at + 2];
    }
  }

  lemma LengthPatched(c: Config, p: seq<byte>)
    requires c.mode == Transport && Ipip.WholeHeader(p) && Ipip.Version(p) in {4, 6}
    ensures var at := if Ipip.Version(p) == 4 then 2 else 4;
            Arrival(c, p) == Splice(p, at, Be(if Ipip.Version(p) == 4 then |p| else |p| - 40, 2))
  {
    if Ipip.Version(p) == 4 {
      LengthPatched4(c, p);
    } else {
      LengthPatched6(c, p);
    }
  }

  lemma {:induction false} LengthPatched4(c: Config, p: seq<byte>)
    requires c.mode == Transport && Ipip.WholeHeader(p) && Ipip.Version(p) == 4
    ensures Arrival(c, p) == Splice(p, 2, Be(|p|, 2))
  {
    var h, rest, l := p[..Kept(c, p)], p[Kept(c, p)..], Be(|p|, 2);
    assert h[0] == p[0] && p == h + rest;
    TwoBytesPatched(h, rest, 9, 2, l);
    assert Readdress(h, p[9], |p|) == Fields(h, 9, p[9], 2, l);
  }

  lemma LengthPatched6(c: Config, p: seq<byte>)
    requires c.mode == Transport && Ipip.WholeHeader(p) && Ipip.Version(p) == 6
    ensures Arrival(c, p) == Splice(p, 4, Be(Body6(|p|), 2))
  {
    var h, rest, l := p[..Kept(c, p)], p[Kept(c, p)..], Be(Body6(|p|), 2);
    assert h[0] == p[0] && p == h + rest;
    TwoBytesPatched(h, rest, 6, 4, l);
    assert Readdress(h, p[6], |p|) == Fields(h, 6, p[6], 4, l);
  }

  lemma TwoBytesPatched(h: seq<byte>, rest: seq<byte>, keep: nat, at: nat, l: seq<byte>)
    requires keep < |h| && at + 2 <= |h| && |l| == 2
    ensures Fields(h, keep, (h + rest)[keep], at, l) + rest == Splice(h + rest, at, l)
  {
    assert h[keep := (h + rest)[keep]] == h;
  }

  function LessTwo(b: byte): byte
  {
    LessOne(LessOne(b))
  }

  /** Tunnelled IPv6 arrives as sent, two hops older. */
  lemma Tunnel6Arrival(c: Config, p: seq<byte>)
    requires Tunnel(c) && Ipip.Headed(p) && Ipip.Version(p) == 6
    ensures Arrival(c, p) == p[7 := LessTwo(p[7])]
  {
    var q := Ipip.Hop(p);
    if Ipip.DsEcn(p) % 4 == 3 {
      assert q[1] / 16 % 4 == 3;
      assert Ipip.Ecn6Step(q) == q;
    }
  }

  /** Tunnelled IPv4 arrives as sent but for TTL (two hops older) and header checksum. */
  lemma Tunnel4Arrival(c: Config, p: seq<byte>)
    requires Tunnel(c) && Ipip.Headed(p) && Ipip.Version(p) == 4
    ensures var r := Arrival(c, p);
            && |r| == |p| && r[8] == LessTwo(p[8])
            && forall i :: 0 <= i < |p| && i != 8 && i != 10 && i != 11 ==> r[i] == p[i]
  {
    var q := Ipip.Hop(p);
    if p[1] % 4 == 3 {
      assert WithCe(q[1]) == p[1];
    }
  }

  lemma UpdatePrefix(s: seq<byte>, n: nat, i: nat, b: byte)
    requires i < n <= |s|
    ensures s[i := b][..n] == s[..n][i := b]
  {
  }

  /** The steps taken on a header are taken on the header part of the packet. */
  lemma TtlOnHeader(p: seq<byte>, n: nat)
    requires 20 <= n <= |p|
    ensures TtlStep(p)[..n] == TtlStep(p[..n])
  {
    var t := TtlSum(Le16(p[10], p[11]));
    var p1 := p[8 := LessOne(p[8])];
    var p2 := p1[10 := Low(t)];
    UpdatePrefix(p, n, 8, LessOne(p[8]));
    UpdatePrefix(p1, n, 10, Low(t));
    UpdatePrefix(p2, n, 11, High(t));
  }

  lemma EcnOnHeader(p: seq<byte>, n: nat)
    requires 20 <= n <= |p|
    ensures EcnStep(p)[..n] == EcnStep(p[..n])
  {
    var c := EcnSum(p);
    var p1 := p[1 := WithCe(p[1])];
    var p2 := p1[10 := High(c)];
    assert EcnSum(p[..n]) == c;
    UpdatePrefix(p, n, 1, WithCe(p[1]));
    UpdatePrefix(p1, n, 10, High(c));
    UpdatePrefix(p2, n, 11, Low(c));
  }

  function ArrivedHeader(h: seq<byte>, ce: bool): seq<byte>
    requires |h| >= 20
  {
    TtlStep(if ce then EcnStep(TtlStep(h)) else TtlStep(h))
  }

  lemma HeaderOfArrival(c: Config, p: seq<byte>)
    requires Tunnel(c) && Ipip.WholeHeader(p) && Ipip.Version(p) == 4
    ensures var n := Ipip.HeaderLen(p);
            Arrival(c, p)[..n] == ArrivedHeader(p[..n], p[1] % 4 == 3)
  {
    var n, t := Ipip.HeaderLen(p), TtlStep(p);
    TtlOnHeader(p, n);
    if p[1] % 4 == 3 {
      EcnOnHeader(t, n);
      TtlOnHeader(EcnStep(t), n);
    } else {
      TtlOnHeader(t, n);
    }
  }

  /** Multiples of 65535 aside, what the two hops and the congestion mark add to the word sum. */
  lemma {:induction false} ArrivalSums(h: seq<byte>, ce: bool) returns (j: int)
    requires |h| >= 20 && |h| % 2 == 0 && h[0] > 0 && (ce ==> h[1] % 4 == 3)
    ensures var r := ArrivedHeader(h, ce);
            SumLe(r) > 0
            && 256 * SumLe(r) == 256 * SumLe(h) + 256 * (if h[8] < 2 then 256 else 0) + (if ce then 255 else 0)
               + 65535 * j
  {
    var t := TtlStep(h);
    var e := if ce then EcnStep(t) else t;
    TtlStepSum(h);
    assert t[0] == h[0] && t[1] == h[1] && t[8] == LessOne(h[8]);
    TtlStepSum(e);
    var a := if Le16(h[10], h[11]) >= 0xfffe then 1 else 0;
    var b := if Le16(e[10], e[11]) >= 0xfffe then 1 else 0;
    assert SumLe(t) == SumLe(h) + (if h[8] == 0 then 256 else 0) - 65535 * a;
    assert SumLe(TtlStep(e)) == SumLe(e) + (if h[8] == 1 then 256 else 0) - 65535 * b;
    if ce {
      EcnStepSum(t);
      ByteOrderNeutral(t);
      ByteOrderNeutral(e);
      var m := if SumBe(e) == SumBe(t) + 255 then 0 else 1;
      assert SumBe(e) == SumBe(t) + 255 - 65535 * m;
      j := OddBytes(e) - OddBytes(t) - m - 256 * a - 256 * b;
    } else {
      j := -256 * a - 256 * b;
    }
  }

  /**
   * A tunnelled IPv4 header whose checksum was good arrives with a good checksum exactly when two hops were left
   * and the packet was not marked as having met congestion.
   */
  lemma Tunnel4Checksum(c: Config, p: seq<byte>)
    requires Tunnel(c) && Ipip.WholeHeader(p) && Ipip.Version(p) == 4
    requires Verifies(p[..Ipip.HeaderLen(p)])
    ensures Verifies(Arrival(c, p)[..Ipip.HeaderLen(p)]) <==> p[8] >= 2 && p[1] % 4 != 3
  {
    var n, ce := Ipip.HeaderLen(p), p[1] % 4 == 3;
    HeaderFacts(p);
    ArrivedChecksum(p[..n], ce);
    assert Arrival(c, p)[..n] == ArrivedHeader(p[..n], ce) by { HeaderOfArrival(c, p); }
  }

  lemma HeaderFacts(p: seq<byte>)
    requires Ipip.WholeHeader(p) && Ipip.Version(p) == 4
    ensures var h := p[..Ipip.HeaderLen(p)];
            |h| >= 20 && |h| % 2 == 0 && h[0] == p[0] > 0 && h[1] == p[1] && h[8] == p[8]
  {
  }

  lemma {:induction false} ArrivedChecksum(h: seq<byte>, ce: bool)
    requires |h| >= 20 && |h| % 2 == 0 && h[0] > 0 && (ce ==> h[1] % 4 == 3) && Verifies(h)
    ensures Verifies(ArrivedHeader(h, ce)) <==> h[8] >= 2 && !ce
  {
    var r := ArrivedHeader(h, ce);
    var j := ArrivalSums(h, ce);
    OnesSumIsResidue(h);
    OnesSumIsResidue(r);
    FullResidue(SumLe(h));
    ResidueDecides(SumLe(h), SumLe(r), if h[8] < 2 then 256 else 0, if ce then 255 else 0, j);
  }

  lemma ResidueDecides(a: nat, b: nat, g: nat, x: nat, j: int)
    requires a > 0 && b > 0 && a % 65535 == 0 && g in {0, 256} && x in {0, 255}
    requires 256 * b == 256 * a + 256 * g + x + 65535 * j
    ensures 1 + (b - 1) % 65535 == 0xffff <==> g == 0 && x == 0
  {
    var k := a / 65535;
    assert a == 65535 * k;
    if 1 + (b - 1) % 65535 == 0xffff {
      FullResidue(b);
      var l := b / 65535;
      assert b == 65535 * l;
      assert 256 * g + x == 65535 * (256 * l - 256 * k - j);
    } else if g == 0 && x == 0 {
      // 256 and 65535 have no common factor: 65535 = 255 * 257 and 256 * 256 = 65535 + 1.
      var q := 256 * k + j;
      assert 256 * b == 65535 * q;
      assert b == 65535 * (256 * q - b);
      SameResidue(a, a, 0);
      MultipleIsFull(b, 256 * q - b);
    }
  }

  lemma MultipleIsFull(b: nat, l: int)
    requires b > 0 && b == 65535 * l
    ensures 1 + (b - 1) % 65535 == 0xffff
  {
    assert b - 1 == (l - 1) * 65535 + 65534;
    ModOfSum(l - 1, 65535, 65534);
  }

  /** The cipher range covers the whole of payload and trailer exactly when the aligned length fits 16 bits. */
  lemma CipherRangeIsWhole(c: Config, p: seq<byte>, sn: nat, f: Frame)
    requires WellConfigured(c) && Acceptable(c, p) && Encapsulates(c, p, sn, f)
    ensures PadPayload(c, p) == |f.Plain()| <==> TruePadded(c, p) < 0x10000
  {
    PlainLength(c, p, sn, f);
  }

  /** The counter after n packets. */
  function SeqAfter(start: nat, n: nat): nat
  {
    if n == 0 then start else NextSeq(SeqAfter(start, n - 1))
  }

  lemma {:induction false} SeqAfterClosed(start: nat, n: nat)
    requires start < TWO_64 && n <= TWO_64
    ensures SeqAfter(start, n) == if start + n < TWO_64 then start + n else start + n - TWO_64
  {
    if n > 0 {
      SeqAfterClosed(start, n - 1);
    }
  }

  /** Over any run of at most 2^64 packets on one SA no counter block is used twice. */
  lemma CounterBlocksDistinct(salt: seq<byte>, start: nat, i: nat, j: nat)
    requires start < TWO_64 && i < j < TWO_64
    ensures CounterBlock(salt, Be(SeqAfter(start, i), 8)) != CounterBlock(salt, Be(SeqAfter(start, j), 8))
  {
    SeqAfterClosed(start, i);
    SeqAfterClosed(start, j);
    var x, y := SeqAfter(start, i), SeqAfter(start, j);
    assert Pow256(8) == TWO_64 by {
      assert Pow256(4) == 0x1_0000_0000 by { assert Pow256(2) == 0x10000; }
      assert Pow256(6) == 0x1_0000_0000_0000;
    }
    if CounterBlock(salt, Be(x, 8)) == CounterBlock(salt, Be(y, 8)) {
      var n := |salt|;
      assert CounterBlock(salt, Be(x, 8))[n..n + 8] == Be(x, 8);
      assert CounterBlock(salt, Be(y, 8))[n..n + 8] == Be(y, 8);
      BeInjective(x, y, 8);
    }
  }

  /** A tunnelled IPv4 packet with a good checksum that has met congestion: it is delivered with a bad one. */
  lemma CongestedPacketFails(c: Config) returns (p: seq<byte>)
    requires Tunnel(c)
    ensures p == [0x45, 3, 0, 20, 0, 0, 0, 0, 64, 0, 0x7a, 0xe8, 0, 0, 0, 0, 0, 0, 0, 0]
    ensures Fitting(c, p) && Verifies(p) && !Verifies(Arrival(c, p)[..20])
  {
    p := GoodHeader(3, 64, 0x7a, 0xe8);
    assert Ipip.Version(p) == 4 && Ipip.HeaderLen(p) == 20 && p[..20] == p && p[1] % 4 == 3;
    Tunnel4Checksum(c, p);
    assert !Verifies(Arrival(c, p)[..Ipip.HeaderLen(p)]);
  }

  /**
   * An IPv4 packet of 65535 bytes passes the size check of tunnel mode, and all but its beginning stays in the
   * clear.
   */
  lemma HugePacketInTheClear(c: Config)
    requires WellConfigured(c) && c.mode == Ip4Tunnel
    ensures var p := [0x45, 0, 0xff, 0xff] + Zeros(65531);
            Acceptable(c, p) && PadPayload(c, p) <= 64 && TruePadded(c, p) > 65536
  {
    var p := [0x45, 0, 0xff, 0xff] + Zeros(65531);
    assert Ipip.Version(p) == 4;
    var padded := TruePadded(c, p);
    assert 65537 <= padded < 65537 + 64;
    assert Cut16(padded) == padded - 0x10000;
  }

  /** A packet on its way to esp_outbound, in a buffer with old bytes around it. */
  datatype Input = Input(head: seq<byte>, packet: seq<byte>, tail: seq<byte>)

  ghost predicate InputOk(c: Config, i: Input)
  {
    && |i.packet| >= 1 && HeadNeed(c) <= |i.head|
    && (Ipip.Version(i.packet) in {4, 6} ==> Fitting(c, i.packet))
  }

  /** What esp_outbound returned, and the block handed to the device as IV. */
  datatype Output = Output(rc: int, block: seq<byte>)

  /** The block of a successful call is that of some number of calls after the start. */
  predicate BlockOf(o: Output, salt: seq<byte>, start: nat, n: nat)
  {
    o.rc == 0 ==> o.block == CounterBlock(salt, Be(SeqAfter(start, n), 8))
  }

  /** esp_outbound once, on a fresh mbuf; `n` numbers have been used before it. */
  method SendOne(sa: Sa, i: Input, ghost start: nat, ghost n: nat) returns (o: Output, ghost n': nat)
    requires sa.Valid() && InputOk(sa.cfg, i) && sa.seq_ == SeqAfter(start, n)
    modifies sa
    ensures sa.Valid() && n <= n' <= n + 1 && sa.seq_ == SeqAfter(start, n')
    ensures BlockOf(o, sa.cfg.salt, start, n') && (o.rc == 0 ==> n' == n + 1)
  {
    var m := new Mbuf(i.head, i.packet, i.tail);
    ghost var numbered;
    o, numbered := Send(m, sa);
    n' := if numbered then n + 1 else n;
  }

  /** esp_outbound, and the IV of the operation it made. */
  method Send(m: Mbuf, sa: Sa) returns (o: Output, ghost numbered: bool)
    requires m.Valid() && sa.Valid() && m.len >= 1 && HeadNeed(sa.cfg) <= m.off
    requires Ipip.Version(m.Data()) in {4, 6} ==> Fitting(sa.cfg, m.Data())
    modifies m, m.buf, sa
    ensures sa.Valid() && sa.seq_ == if numbered then NextSeq(old(sa.seq_)) else old(sa.seq_)
    ensures o.rc == 0 ==> numbered && o.block == CounterBlock(sa.cfg.salt, Be(sa.seq_, 8))
  {
    ghost var p := m.Data();
    numbered := Encapsulable(sa.cfg, p, m.buf.Length - m.off - m.len);
    var rc, op;
    ghost var f;
    rc, op, f := Outbound(m, sa);
    o := Output(rc, if op.Some? then op.value.iv else []);
    if rc == 0 {
      IvIsBlock(sa.cfg, p, m.len, sa.seq_, f.EspHdr());
    }
  }

  lemma IvIsBlock(c: Config, p: seq<byte>, total: nat, sn: nat, esp: seq<byte>)
    requires WellConfigured(c) && Fitting(c, p) && c.digestLen <= total
    ensures OutOpFor(c, p, total, sn, esp).iv == CounterBlock(c.salt, Be(sn, 8))
  {
  }

  /**
   * Any run of up to 2^64 - 1 calls of esp_outbound on one SA, failing ones among them: no two successful ones give the
   * device the same counter block.
   */
  method SendRun(sa: Sa, ins: seq<Input>) returns (outs: seq<Output>)
    requires sa.Valid() && |ins| < TWO_64 && forall i :: 0 <= i < |ins| ==> InputOk(sa.cfg, ins[i])
    modifies sa
    ensures |outs| == |ins|
    ensures forall i, j :: 0 <= i < j < |outs| && outs[i].rc == 0 && outs[j].rc == 0 ==> outs[i].block != outs[j].block
  {
    outs := [];
    ghost var start, n, salt := sa.seq_, 0, sa.cfg.salt;
    ghost var at: seq<nat> := [];
    for i := 0 to |ins|
      invariant sa.Valid() && sa.seq_ == SeqAfter(start, n) && n <= i && |outs| == |at| == i
      invariant Numbered(outs, at, salt, start, n)
    {
      var o;
      ghost var m := n;
      o, n := SendOne(sa, ins[i], start, n);
      OneMoreNumber(outs, at, salt, start, m, o, n);
      outs, at := outs + [o], at + [n];
    }
    BlocksOfRun(outs, at, salt, start, n);
  }

  /** Call i is the at[i]-th that took a number, if it succeeded; n have taken one. */
  predicate Numbered(outs: seq<Output>, at: seq<nat>, salt: seq<byte>, start: nat, n: nat)
    requires |outs| == |at|
  {
    && (forall i :: 0 <= i < |outs| ==> BlockOf(outs[i], salt, start, at[i]) && at[i] <= n)
    && (forall i, j :: 0 <= i < j < |outs| && outs[j].rc == 0 ==> at[i] < at[j])
  }

  lemma OneMoreNumber(outs: seq<Output>, at: seq<nat>, salt: seq<byte>, start: nat, n: nat, o: Output, n': nat)
    requires |outs| == |at| && Numbered(outs, at, salt, start, n)
    requires BlockOf(o, salt, start, n') && n <= n' && (o.rc == 0 ==> n' == n + 1)
    ensures Numbered(outs + [o], at + [n'], salt, start, n')
  {
  }

  lemma BlocksOfRun(outs: seq<Output>, at: seq<nat>, salt: seq<byte>, start: nat, n: nat)
    requires |outs| == |at| && Numbered(outs, at, salt, start, n) && start < TWO_64 && n < TWO_64
    ensures forall i, j :: 0 <= i < j < |outs| && outs[i].rc == 0 && outs[j].rc == 0 ==> outs[i].block != outs[j].block
  {
    forall i, j | 0 <= i < j < |outs| && outs[i].rc == 0 && outs[j].rc == 0 ensures outs[i].block != outs[j].block {
      CounterBlocksDistinct(salt, start, at[i], at[j]);
    }
  }
}
