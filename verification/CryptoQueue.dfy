/**
 * One crypto queue pair of a context: the staging buffer of 32 operations in front of a device queue
 * (ipsec.c, ipsec_process.c). Operations are named by numbers.
 */
module CryptoQueue {
  import opened Common
  import opened Packets

  const DIRECT := 24

  /** What became of an operation when it was offered to the device. */
  datatype Offer = Offer(op: nat, taken: bool)

  /** All operations handed in, the offers made of them, and all operations handed back, each in order. */
  datatype History = History(submitted: seq<nat>, offers: seq<Offer>, done: seq<nat>)

  function Ops(os: seq<Offer>): seq<nat>
  {
    if os == [] then [] else [os[0].op] + Ops(os[1..])
  }

  function Taken(os: seq<Offer>): seq<nat>
  {
    if os == [] then [] else (if os[0].taken then [os[0].op] else []) + Taken(os[1..])
  }

  function Refused(os: seq<Offer>): seq<nat>
  {
    if os == [] then [] else (if os[0].taken then [] else [os[0].op]) + Refused(os[1..])
  }

  lemma {:induction false} OffersConcat(a: seq<Offer>, b: seq<Offer>)
    ensures Ops(a + b) == Ops(a) + Ops(b) && Taken(a + b) == Taken(a) + Taken(b)
            && Refused(a + b) == Refused(a) + Refused(b)
  {
    if a == [] {
      assert a + b == b;
    } else {
      assert (a + b)[1..] == a[1..] + b && (a + b)[0] == a[0];
      OffersConcat(a[1..], b);
      var o, rest := a[0], a[1..] + b;
      assert a + b == [o] + rest;
      OffersStep(o, rest);
      OffersStep(o, a[1..]);
      assert a == [o] + a[1..];
    }
  }

  lemma OffersStep(o: Offer, os: seq<Offer>)
    ensures Ops([o] + os) == [o.op] + Ops(os)
    ensures Taken([o] + os) == (if o.taken then [o.op] else []) + Taken(os)
    ensures Refused([o] + os) == (if o.taken then [] else [o.op]) + Refused(os)
  {
    assert ([o] + os)[1..] == os;
  }

  /** The offers of one enqueue burst of which the first n were taken. */
  function Offered(ops: seq<nat>, n: nat): seq<Offer>
    requires n <= |ops|
  {
    if ops == [] then []
    else [Offer(ops[0], n > 0)] + Offered(ops[1..], if n > 0 then n - 1 else 0)
  }

  lemma {:induction false} OfferedPrefix(ops: seq<nat>, n: nat)
    requires n <= |ops|
    ensures Ops(Offered(ops, n)) == ops && Taken(Offered(ops, n)) == ops[..n] && Refused(Offered(ops, n)) == ops[n..]
  {
    if ops != [] {
      OfferedPrefix(ops[1..], if n > 0 then n - 1 else 0);
      if n > 0 {
        assert ops[..n] == [ops[0]] + ops[1..][..n - 1];
      }
    }
  }

  /**
   * The queue pair refines a FIFO: what was handed in is what was offered and then what is staged; what was taken is
   * what came back and then what the device holds; and in_flight counts the latter.
   */
  predicate Fifo(h: History, dev: seq<nat>, staged: seq<nat>, inFlight: nat)
  {
    && h.submitted == Ops(h.offers) + staged
    && Taken(h.offers) == h.done + dev
    && inFlight == |dev| <= CDEV_QUEUE_DESC
  }

  /** A later history goes on from an earlier one. */
  predicate Extends(h: History, h': History)
  {
    |h.offers| <= |h'.offers| && h'.offers[..|h.offers|] == h.offers
  }

  lemma {:induction false} OfferedFifo(h: History, dev: seq<nat>, ops: seq<nat>, n: nat)
    requires Fifo(h, dev, ops, |dev|) && n <= |ops| && |dev| + n <= CDEV_QUEUE_DESC
    ensures Fifo(h.(offers := h.offers + Offered(ops, n)), dev + ops[..n], [], |dev| + n)
    ensures Refused(h.offers + Offered(ops, n)) == Refused(h.offers) + ops[n..]
  {
    OffersConcat(h.offers, Offered(ops, n));
    OfferedPrefix(ops, n);
  }

  class CdevQp {
    const buf: array<nat>
    var len: nat
    var inFlight: nat
    /** The operations the device holds, oldest first. */
    var dev: seq<nat>
    ghost var h: History

    ghost predicate Shaped()
      reads this, buf
    {
      buf.Length == MAX_PKT_BURST && len <= MAX_PKT_BURST && Fifo(h, dev, buf[..len], inFlight)
    }

    /** Between calls the staging buffer has room. */
    ghost predicate Valid()
      reads this, buf
    {
      Shaped() && len < MAX_PKT_BURST
    }

    constructor ()
      ensures Valid() && fresh(buf) && h == History([], [], []) && len == 0 && dev == []
    {
      buf := new nat[MAX_PKT_BURST];
      len, inFlight, dev := 0, 0, [];
      h := History([], [], []);
    }

    /** rte_cryptodev_enqueue_burst: the device takes as many from the front as it likes and has room for. */
    method Device(ops: seq<nat>) returns (n: nat)
      requires Fifo(h, dev, ops, inFlight)
      modifies this`dev, this`inFlight, this`h
      ensures n <= |ops| && Fifo(h, dev, [], inFlight) && dev == old(dev) + ops[..n]
      ensures h == old(h).(offers := old(h).offers + Offered(ops, n))
      ensures Refused(h.offers) == Refused(old(h).offers) + ops[n..]
    {
      n :| n <= |ops| && |dev| + n <= CDEV_QUEUE_DESC;
      OfferedFifo(h, dev, ops, n);
      h := h.(offers := h.offers + Offered(ops, n));
      dev := dev + ops[..n];
      inFlight := inFlight + n;
    }

    /** enqueue_cop_burst: offer all that is staged; what the device refuses is freed. */
    method EnqueueCopBurst() returns (freed: seq<nat>)
      requires Shaped()
      modifies this
      ensures Valid() && len == 0 && h.submitted == old(h.submitted) && h.done == old(h.done) && Extends(old(h), h)
      ensures Refused(h.offers) == Refused(old(h).offers) + freed
    {
      var ret := Device(buf[..len]);
      freed := buf[..len][ret..];
      len := 0;
    }

    /** enqueue_cop. */
    method EnqueueCop(cop: nat) returns (freed: seq<nat>)
      requires Valid()
      modifies this, buf
      ensures Valid() && h.submitted == old(h.submitted) + [cop] && h.done == old(h.done) && Extends(old(h), h)
      ensures Refused(h.offers) == Refused(old(h).offers) + freed
    {
      buf[len] := cop;
      len := len + 1;
      h := h.(submitted := h.submitted + [cop]);
      freed := [];
      if len == MAX_PKT_BURST {
        freed := EnqueueCopBurst();
      }
    }

    /** The copying loop of enqueue_cop_bulk. */
    method CopyIn(cop: seq<nat>)
      requires buf.Length == MAX_PKT_BURST && len + |cop| <= MAX_PKT_BURST
      modifies buf
      ensures buf[..len + |cop|] == old(buf[..len]) + cop
    {
      for i := 0 to |cop|
        invariant buf[..len + i] == old(buf[..len]) + cop[..i]
      {
        buf[len + i] := cop[i];
        assert buf[..len + i + 1] == buf[..len + i] + [cop[i]];
        assert cop[..i + 1] == cop[..i] + [cop[i]];
      }
      assert cop[..|cop|] == cop;
    }

    method Stage(cop: seq<nat>)
      requires Shaped() && len + |cop| <= MAX_PKT_BURST
      modifies this`len, this`h, buf
      ensures Shaped() && len == old(len) + |cop|
      ensures h == old(h).(submitted := old(h).submitted + cop)
    {
      CopyIn(cop);
      len := len + |cop|;
      h := h.(submitted := h.submitted + cop);
    }

    /**
     * enqueue_cop_bulk: a big batch goes straight to the device when nothing is staged, any other is staged piece by
     * piece and offered whenever the buffer is full.
     */
    method EnqueueCopBulk(cop: seq<nat>) returns (freed: seq<nat>)
      requires Valid()
      modifies this, buf
      ensures Valid() && h.submitted == old(h.submitted) + cop && h.done == old(h.done) && Extends(old(h), h)
      ensures Refused(h.offers) == Refused(old(h).offers) + freed
    {
      if |cop| >= DIRECT && len == 0 {
        h := h.(submitted := h.submitted + cop);
        assert Fifo(h, dev, cop, inFlight);
        var n := Device(cop);
        freed := cop[n..];
        return;
      }
      freed := StageAll(cop);
    }

    /** The do-while loop of enqueue_cop_bulk. */
    method StageAll(cop: seq<nat>) returns (freed: seq<nat>)
      requires Valid()
      modifies this, buf
      ensures Valid() && h.submitted == old(h.submitted) + cop && h.done == old(h.done) && Extends(old(h), h)
      ensures Refused(h.offers) == Refused(old(h).offers) + freed
    {
      var k;
      k, freed := Piece(cop, 0);
      while k != |cop|
        invariant k <= |cop| && Valid()
        invariant h.submitted == old(h.submitted) + cop[..k] && h.done == old(h.done) && Extends(old(h), h)
        invariant Refused(h.offers) == Refused(old(h).offers) + freed
        decreases |cop| - k
      {
        var next, more := Piece(cop, k);
        Onward(old(h.submitted), cop, k, next);
        k, freed := next, freed + more;
      }
      assert cop[..k] == cop;
    }

    /** One turn of the staging loop, from position k to position k'. */
    method Piece(cop: seq<nat>, k: nat) returns (k': nat, freed: seq<nat>)
      requires Valid() && k <= |cop|
      modifies this, buf
      ensures Valid() && h.done == old(h.done) && Extends(old(h), h)
      ensures k <= k' <= |cop| && (k < |cop| ==> k < k') && h.submitted == old(h.submitted) + cop[k..k']
      ensures Refused(h.offers) == Refused(old(h).offers) + freed
    {
      var n := if MAX_PKT_BURST - len < |cop| - k then MAX_PKT_BURST - len else |cop| - k;
      k' := k + n;
      Stage(cop[k..k']);
      freed := [];
      if len == MAX_PKT_BURST {
        freed := EnqueueCopBurst();
      }
    }

    /** cqp_dequeue: the device hands back some of what it has held longest. */
    method Dequeue(num: nat) returns (out: seq<nat>)
      requires Valid()
      modifies this`dev, this`inFlight, this`h
      ensures Valid() && |out| <= num && h == old(h).(done := old(h).done + out) && old(dev) == out + dev
    {
      if inFlight == 0 {
        return [];
      }
      var n: nat :| n <= num && n <= |dev|;
      assert inFlight >= n;
      out := dev[..n];
      assert dev == out + dev[n..];
      dev, inFlight := dev[n..], inFlight - n;
      h := h.(done := h.done + out);
    }
  }

  lemma Onward(before: seq<nat>, cop: seq<nat>, k: nat, next: nat)
    requires k <= next <= |cop|
    ensures before + cop[..k] + cop[k..next] == before + cop[..next]
  {
    assert cop[..k] + cop[k..next] == cop[..next];
  }

  /** What a worker may do with a queue pair: the legacy and the library enqueue, the timed drain, the dequeue. */
  datatype Call = One(op: nat) | Bulk(ops: seq<nat>) | DrainNow | Collect(num: nat)

  /** What a run of calls hands in. */
  function HandedIn(cs: seq<Call>): seq<nat>
  {
    if cs == [] then []
    else HandedIn(cs[..|cs| - 1]) + (match cs[|cs| - 1] case One(op) => [op] case Bulk(ops) => ops case _ => [])
  }

  /** Any interleaving of the calls: `freed` and `out` are what was freed and handed back during the run. */
  method Run(q: CdevQp, cs: seq<Call>) returns (freed: seq<nat>, out: seq<nat>)
    requires q.Valid() && q.h == History([], [], [])
    modifies q, q.buf
    ensures q.Valid() && q.h.submitted == HandedIn(cs) && q.h.done == out && Refused(q.h.offers) == freed
  {
    freed, out := [], [];
    for i := 0 to |cs|
      invariant q.Valid() && q.h.submitted == HandedIn(cs[..i]) && q.h.done == out && Refused(q.h.offers) == freed
    {
      assert cs[..i + 1][..i] == cs[..i];
      var more: seq<nat> := [];
      match cs[i] {
        case One(op) => more := q.EnqueueCop(op);
        case Bulk(ops) => more := q.EnqueueCopBulk(ops);
        case DrainNow => if q.len != 0 { more := q.EnqueueCopBurst(); }
        case Collect(num) =>
          var back := q.Dequeue(num);
          out := out + back;
      }
      freed := freed + more;
    }
    assert cs[..|cs|] == cs;
  }

  /**
   * What the invariant means: operations come back in the order they were handed in, and each of them was handed
   * back, is in the device, was refused, or is staged.
   */
  lemma FifoMeaning(h: History, dev: seq<nat>, staged: seq<nat>, inFlight: nat)
    requires Fifo(h, dev, staged, inFlight)
    ensures Sub(h.done + dev + staged, h.submitted)
    ensures |h.submitted| == |h.done| + inFlight + |staged| + |Refused(h.offers)|
  {
    TakenOrder(h.offers);
    SubRight(Taken(h.offers), Ops(h.offers), staged);
  }

  lemma {:induction false} TakenOrder(os: seq<Offer>)
    ensures Sub(Taken(os), Ops(os)) && |Ops(os)| == |Taken(os)| + |Refused(os)|
  {
    if os != [] {
      var o, rest := os[0], os[1..];
      TakenOrder(rest);
      assert os == [o] + rest;
      OffersStep(o, rest);
      if o.taken {
        SubLeft([o.op], Taken(rest), Ops(rest));
      } else {
        SubSkip(Taken(rest), o.op, Ops(rest));
        assert [] + Taken(rest) == Taken(rest);
      }
    }
  }
}
