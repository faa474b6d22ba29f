/** The default event-mode configuration: eth cores, links of event ports to cores, event queues (event_helper.c). */
module EventDefaults {
  const MAX_LCORE: nat := 128
  const MAX_CONNECTIONS: nat := 16
  const MAX_LINKS: nat := 4096

  /** The enabled lcores, and those of them set aside for the eth adapters. */
  datatype Cores = Cores(enabled: set<nat>, eth: set<nat>)

  predicate CoresOk(c: Cores)
  {
    forall i :: i in c.enabled ==> i < MAX_LCORE
  }

  /** Core k counting on round the machine. */
  function Round(k: nat): (r: nat)
    requires k < 2 * MAX_LCORE
    ensures r < MAX_LCORE
  {
    if k < MAX_LCORE then k else k - MAX_LCORE
  }

  predicate IsEth(c: Cores, core: nat)
  {
    core in c.enabled && core in c.eth
  }

  /** eh_get_enabled_cores. */
  method EnabledCores(c: Cores) returns (count: nat)
    requires CoresOk(c)
    ensures count == 0 <==> forall i :: i in c.enabled ==> i !in c.eth
  {
    count := 0;
    for i: nat := 0 to MAX_LCORE
      invariant count == 0 <==> forall j :: j in c.enabled && j < i ==> j !in c.eth
    {
      if i in c.enabled && i in c.eth {
        count := count + 1;
      }
    }
  }

  /**
   * eh_get_next_eth_core: go round from the core after the last one given until an enabled core in the mask is found.
   * `from` is the core to start with. Without such a core the search is not begun, so it always ends; and it gives the
   * first one on the way, wherever it starts.
   */
  method NextEthCore(c: Cores, from: nat) returns (core: nat, ghost steps: nat)
    requires CoresOk(c) && from < MAX_LCORE
    ensures core == MAX_LCORE <==> forall i :: i in c.enabled ==> i !in c.eth
    ensures core != MAX_LCORE ==> IsEth(c, core) && steps < MAX_LCORE && core == Round(from + steps)
    ensures core != MAX_LCORE ==> forall k: nat :: from <= k < from + steps ==> !IsEth(c, Round(k))
  {
    steps := 0;
    var count := EnabledCores(c);
    if count == 0 {
      return MAX_LCORE, 0;
    }
    ghost var goal := Somewhere(c, from);
    var k := from;
    core := Round(k);
    while !(core in c.enabled && core in c.eth)
      invariant from <= k <= goal && core == Round(k)
      invariant forall i: nat :: from <= i < k ==> !IsEth(c, Round(i))
      decreases goal - k
    {
      k := k + 1;
      core := if core + 1 == MAX_LCORE then 0 else core + 1;
    }
    steps := k - from;
  }

  /** An eth core lies within one round of any start. */
  lemma Somewhere(c: Cores, from: nat) returns (goal: nat)
    requires CoresOk(c) && from < MAX_LCORE && exists i :: i in c.enabled && i in c.eth
    ensures from <= goal < from + MAX_LCORE && IsEth(c, Round(goal))
  {
    var i :| i in c.enabled && i in c.eth;
    goal := if i >= from then i else i + MAX_LCORE;
  }

  datatype Link = Link(port: nat, core: nat)

  predicate IsWorker(c: Cores, core: nat)
  {
    core in c.enabled && core !in c.eth
  }

  /** Worker cores below n, in order. */
  function Workers(c: Cores, n: nat): seq<nat>
  {
    if n == 0 then [] else Workers(c, n - 1) + (if IsWorker(c, n - 1) then [n - 1] else [])
  }

  /** eh_get_next_active_core: the next worker core after the last one, or the maximum when there is none. */
  method NextActiveCore(c: Cores, from: nat) returns (core: nat)
    requires from <= MAX_LCORE
    ensures from <= core <= MAX_LCORE && (core < MAX_LCORE ==> IsWorker(c, core))
    ensures forall i :: from <= i < core ==> !IsWorker(c, i)
  {
    core := from;
    while core < MAX_LCORE && !(core in c.enabled && core !in c.eth)
      invariant from <= core <= MAX_LCORE && forall i :: from <= i < core ==> !IsWorker(c, i)
    {
      core := core + 1;
    }
  }

  lemma {:induction false} NoWorkersBetween(c: Cores, a: nat, b: nat)
    requires a <= b && forall i :: a <= i < b ==> !IsWorker(c, i)
    ensures Workers(c, b) == Workers(c, a)
    decreases b
  {
    if a < b {
      NoWorkersBetween(c, a, b - 1);
    }
  }

  /** eh_set_default_conf_link: event port i goes to the i-th worker core, as long as there are ports and cores. */
  method DefaultLinks(c: Cores, ports: nat) returns (links: seq<Link>)
    requires ports <= MAX_LINKS
    ensures |links| == if ports < |Workers(c, MAX_LCORE)| then ports else |Workers(c, MAX_LCORE)|
    ensures forall i :: 0 <= i < |links| ==> links[i] == Link(i, Workers(c, MAX_LCORE)[i])
  {
    links := [];
    var from: nat := 0;
    var i := 0;
    WorkersGrow(c, 0, MAX_LCORE);
    while i < ports
      invariant i == |links| <= ports && from <= MAX_LCORE && |Workers(c, from)| == i
      invariant forall j :: 0 <= j < i ==> links[j] == Link(j, Workers(c, from)[j])
      invariant i <= |Workers(c, MAX_LCORE)| && Workers(c, MAX_LCORE)[..i] == Workers(c, from)
      decreases ports - i
    {
      var core := NextActiveCore(c, from);
      NoWorkersBetween(c, from, core);
      if core == MAX_LCORE {
        return;
      }
      WorkersGrow(c, core + 1, MAX_LCORE);
      links := links + [Link(i, core)];
      from, i := core + 1, i + 1;
    }
  }

  lemma {:induction false} WorkersGrow(c: Cores, a: nat, b: nat)
    requires a <= b
    ensures |Workers(c, a)| <= |Workers(c, b)| && Workers(c, b)[..|Workers(c, a)|] == Workers(c, a)
    decreases b
  {
    if a < b {
      WorkersGrow(c, a, b - 1);
    }
  }

  /**
   * The worker cores are all the enabled ones that are not eth cores, each once and in order, so links share neither
   * ports nor cores.
   */
  lemma {:induction false} WorkersDistinct(c: Cores, n: nat)
    ensures forall k: nat :: k in Workers(c, n) <==> k < n && k in c.enabled && k !in c.eth
    ensures forall i :: 0 <= i < |Workers(c, n)| ==> Workers(c, n)[i] < n
    ensures forall i, j :: 0 <= i < j < |Workers(c, n)| ==> Workers(c, n)[i] < Workers(c, n)[j]
  {
    if n > 0 {
      WorkersDistinct(c, n - 1);
    }
  }

  /** The event queues and whether all devices bring their own ports to the event device. */
  datatype EvDev = EvDev(queues: int, allInternal: bool)

  /** A connection of an eth port to an event queue. */
  datatype Conn = Conn(eth: nat, queue: int)

  /** eh_set_default_conf_eventdev and eh_do_capability_check: at most one queue per eth port and one for Tx. */
  function Configured(maxQueues: nat, ethDevs: nat, allInternal: bool): EvDev
  {
    var n := if maxQueues > ethDevs + 1 then ethDevs + 1 else maxQueues;
    EvDev(if allInternal then n - 1 else n, allInternal)
  }

  /** eh_get_tx_queue. */
  function TxQueue(d: EvDev): int
  {
    d.queues - 1
  }

  /** How many of the first n eth ports are enabled. */
  function Enabled(enabled: nat -> bool, n: nat): nat
  {
    if n == 0 then 0 else Enabled(enabled, n - 1) + (if enabled(n - 1) then 1 else 0)
  }

  lemma {:induction false} AllEnabled(enabled: nat -> bool, n: nat)
    requires forall e :: 0 <= e < n ==> enabled(e)
    ensures Enabled(enabled, n) == n
  {
    if n > 0 {
      AllEnabled(enabled, n - 1);
    }
  }

  /** Seventeen eth ports, all enabled, are one too many. */
  lemma SeventeenPorts()
    ensures Enabled(e => true, 17) > MAX_CONNECTIONS
  {
    AllEnabled(e => true, 17);
  }

  /**
   * eh_set_default_conf_rx_adapter: one connection for each enabled eth port, written one after the other. The
   * array has room for 16, so `overrun` says whether one was written past its end: exactly when more ports than
   * that are enabled.
   */
  method RxConnections(d: EvDev, ethDevs: nat, enabled: nat -> bool) returns (conns: seq<Conn>, overrun: bool)
    ensures |conns| == Enabled(enabled, ethDevs)
    ensures overrun <==> Enabled(enabled, ethDevs) > MAX_CONNECTIONS
    ensures forall i :: 0 <= i < |conns| ==> conns[i].eth < ethDevs && enabled(conns[i].eth)
                                             && conns[i].queue == RxQueue(d, ethDevs, conns[i].eth)
    ensures forall e :: 0 <= e < ethDevs && enabled(e) ==> Conn(e, RxQueue(d, ethDevs, e)) in conns
  {
    var rxQueues := if d.allInternal then d.queues else d.queues - 1;
    var single := ethDevs > rxQueues;
    conns, overrun := [], false;
    for e: nat := 0 to ethDevs
      invariant |conns| == Enabled(enabled, e) && (overrun <==> |conns| > MAX_CONNECTIONS)
      invariant forall i :: 0 <= i < |conns| ==> conns[i].eth < e && enabled(conns[i].eth)
                                                 && conns[i].queue == RxQueue(d, ethDevs, conns[i].eth)
      invariant forall f :: 0 <= f < e && enabled(f) ==> Conn(f, RxQueue(d, ethDevs, f)) in conns
    {
      if enabled(e) {
        overrun := overrun || |conns| >= MAX_CONNECTIONS;
        var was := conns;
        conns := was + [Conn(e, if single then 0 else e)];
        assert conns[|was|] == Conn(e, RxQueue(d, ethDevs, e));
        assert forall f :: f in was ==> f in conns;
      }
    }
  }

  function RxQueue(d: EvDev, ethDevs: nat, e: nat): int
  {
    if ethDevs > (if d.allInternal then d.queues else d.queues - 1) then 0 else e
  }

  /**
   * Where a Tx queue is needed, no packet is received on it exactly when the device has two queues or more: with
   * one, the queue that all eth ports are mapped to is the one reserved.
   */
  lemma TxQueueIsFreeIff(maxQueues: nat, ethDevs: nat, enabled: nat -> bool)
    requires maxQueues > 0 && exists e :: 0 <= e < ethDevs && enabled(e)
    ensures var d := Configured(maxQueues, ethDevs, false);
            (forall e :: 0 <= e < ethDevs && enabled(e) ==> RxQueue(d, ethDevs, e) != TxQueue(d)) <==> maxQueues >= 2
  {
    var d := Configured(maxQueues, ethDevs, false);
    if maxQueues < 2 {
      var e :| 0 <= e < ethDevs && enabled(e);
      assert RxQueue(d, ethDevs, e) == TxQueue(d);
    }
  }
}
