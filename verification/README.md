# Verified model of the IPsec security gateway's data path

The gateway receives IP packets on protected and unprotected ports, applies security policy, encapsulates or
decapsulates ESP through crypto devices, and routes the result to transmit ports. This project models that data path in
Dafny and proves what it is meant to guarantee. `dafny verify dfyconfig.toml` checks all of it.

DPDK itself (mbufs, crypto devices, classifiers, route tables, hashes, NICs) appears as small contracts. A device that may
accept only part of a burst, fail an operation, or answer in several ways is modelled by an arbitrary choice within its
contract, or by an argument of the call (`Traffic.World`: how much each crypto device has finished, how driver calls for a
packet come out, which packets come back good), so what is proved holds for every such behaviour.

## What is modelled

- **ESP and tunnel codec** (`Common`, `Bytes`, `Mbuf`, `Checksum`, `Ipip`, `CryptoDev`, `Esp`, `EspRoundTrip`). Packets are byte
  arrays inside an mbuf and are rewritten in place, as in the source. The methods are proved against specifications of the
  packet's bytes; the round trip is a theorem about those specifications. A block cipher is any invertible operation on
  blocks, a stream cipher any keystream, a MAC any function. The codec covers look-aside sessions.
- **Crypto queues** (`CryptoContext`, `CryptoQueue`, `LibraryMode`). Staging buffers of 32 operations in front of FIFO
  devices, legacy and library-mode enqueue and dequeue, grouping by SA.
- **Poll-mode worker** (`Packets`, `TxPorts`, `Traffic`, `Rulings`, `PollWorker`). Classification, policy, crypto, routing
  and transmission over whole runs. The worker's state keeps a history: what it received, what it freed before a policy saw
  it, by order of one and after one, and every decision of a policy; the decisions are tied to the tables, to what was
  received, and to what is at the ports. A run is followed from a point of view called `Watch`: an mbuf, and an outbound look-aside
  tunnel SA, which need not exist. `PollWorker.EveryMbufAndTunnel` shows that every mbuf can be watched in every
  configuration whose table positions and ports in use are in range, and so can every such SA; whatever other SAs there are,
  and whether or not the lcore has queue pairs on both sides.
- **SA database and cache** (`Sad`).
- **Policy** (`PolicyBinding`, `InboundPolicy`, `Selector6`). How a rule that names an SPI is bound to an SA and used.
- **Event mode** (`EventWorker`, `EventDefaults`) and **queue pairs** (`QueuePairs`).

## Where the code falls short of its intent

Each of these is a theorem: the exact condition under which the code does what it is for, or a concrete case where it does not.

- `ip4_ecn_setup` complements only the low byte of the checksum difference, so a header that is marked never verifies
  afterwards (`Checksum.EcnStepChecksum`, with a header in `Checksum.MarkedHeaderFails`). A tunnelled IPv4 header keeps a good checksum exactly if its TTL is at least 2 and it
  has not met congestion (`EspRoundTrip.Tunnel4Checksum`, with a packet in `EspRoundTrip.CongestedPacketFails`). The transmit path recomputes checksums later (ipsec-secgw.c:712-716).
- The TTL step keeps a good checksum exactly if TTL is at least 1 (`Checksum.TtlStepChecksum`, with a header in
  `Checksum.ExpiredHeaderFails`).
- `pad_payload_len` is 16 bits wide: the cipher range is whole exactly if the padded length fits (`EspRoundTrip.CipherRangeIsWhole`). An IPv4 packet
  of 65535 bytes passes the size check of tunnel mode all the same (`EspRoundTrip.HugePacketInTheClear`).
- `udp_hdr_len` is not reset within a burst: packets are looked up by their own SPI exactly if no plain ESP packet
  follows one in UDP and reads differently there (`Sad.OwnSpiIff`, with a burst in `Sad.MixedBurst`).
- A family without inbound SAs has no table, and the results of its lookup are then never written: the answers to a burst
  depend on what the stack holds unless every packet hits the cache or has a table for its family (`Sad.DeterminedIff`,
  with an IPv6 packet at an IPv4-only gateway in `Sad.NoTableForFamily`).
- The wrap-around comparator is a total order exactly on keys within half of the 32-bit circle
  (`PolicyBinding.OrdersIffHalfCircle`, with three SPIs in `PolicyBinding.KeysInACycle`). Every SPI of an array without
  duplicates is found exactly if at each probe none to the left compares above and none to the right below
  (`PolicyBinding.AllFoundIff`); `PolicyBinding.PresentButMissed` is an array as a merge sort leaves it that hides one.
- Rules are one global table rewritten for each socket: a second pass leaves the binding alone exactly if every SPI named is
  one above the position it is found at (`PolicyBinding.SecondSocketIff`); otherwise a rule can move to another SA
  (`PolicyBinding.SecondSocketMoves`), and a transport SA is not entered in the second socket's database
  (`PolicyBinding.TransportNotEntered`).
- `ctx_dequeue` always starts from queue pair 0, so a busy first queue pair starves the others (`LibraryMode.CtxRun`,
  `LibraryMode.Starved`), whereas the legacy loop is fair (`CryptoContext.DequeueRun`).
- Without a policy table the vector workers pass what the one-packet workers drop, and the inbound one trusts a stale
  security field and reads past the SAs (`EventWorker.InboundAgreesIff`, `EventWorker.OutboundAgreesIff`, with packets in
  `EventWorker.NoTableForwards`, `EventWorker.StaleFieldForwards` and `EventWorker.PastTheSasForwards`).
- Two contexts can share a queue pair, or be given one that is not configured, when hash inserts fail. The assignment is
  exclusive exactly if between any two calls of `add_cdev_mapping` that gave a context the device one reported a mapping
  (`QueuePairs.ExclusiveIff`, `QueuePairs.CryptodevsInit`); `QueuePairs.FailedInsertShares` is a case of sharing.
- More than 16 enabled eth ports are written past the end of the connection array (`EventDefaults.RxConnections`, with 17
  ports in `EventDefaults.SeventeenPorts`).
- With a single event queue all packets are received on the queue reserved for Tx (`EventDefaults.TxQueueIsFreeIff`).

## Model

| member | source | states |
|---|---|---|
| Bytes.BeRoundTrip | esp.c:299-301 | Writing a number in n bytes, big-endian, and reading it back gives the number modulo 256^n. |
| PacketBuffer.Mbuf.Prepend | ipip.h:43-61 | Growing at the front, where the code asserts headroom, uncovers exactly the bytes before the packet. |
| PacketBuffer.Mbuf.Append | esp.c:267-271 | Growing at the back fails without tailroom and otherwise leaves the packet as it was in front. |
| PacketBuffer.Mbuf.Move | esp.c:285-286 | An overlapping move inside the packet gives the bytes that were there before it began. |
| Checksum.TtlStepChecksum | ipip.h:28-32 | A header with a good ones' complement sum (section 3 of RFC 1624) keeps it through the TTL step exactly if TTL is at least 1. |
| Checksum.ExpiredHeaderFails | ipip.h:28-32 | A header with TTL 0 that verifies and does not after the step. |
| Checksum.EcnStepChecksum | ipip.h:95-108 | Marking congestion keeps a good checksum exactly on headers that are not marked. |
| Checksum.MarkedHeaderFails | ipip.h:95-108 | A header that verifies and does not once it is marked. |
| Checksum.OnesSumIsResidue | ipip.h:28-32 | Folding carries computes the word sum modulo 65535, with 65535 for a non-zero multiple. |
| Checksum.ByteOrderNeutral | ipip.h:29-32 | Little-endian word sums are big-endian ones times 256 modulo 65535, so verifying does not depend on the byte order. |
| Ipip.StepTtl | ipip.h:26-33 | In place: TTL one less and the checksum field as the little-endian field arithmetic has it, nothing else changed. |
| Ipip.SetEcn4 | ipip.h:95-108 | In place: ECN bits set to 3 and checksum patched exactly when the packet is ECN-capable; all other bytes and bits stay. |
| Ipip.SetEcn6 | ipip.h:110-114 | In place: the two ECN bits of the IPv6 traffic class become 3 exactly when they were not 0; all other bytes and bits stay. |
| Ipip.Outbound | ipip.h:15-81 | Byte by byte: in the outer header the version, the DSCP and ECN bits of the inner one, length, hop limit 64, protocol 50, source and then destination (section 5.1.2.1 of RFC 4301); in the inner one TTL or hop limit one less and only the checksum besides. |
| Ipip.Inbound | ipip.h:116-164 | Strips the outer header and extra bytes; byte by byte, the inner packet has TTL or hop limit one less, its ECN bits set to 3 exactly if the outer header carries the mark and they were not 0, and only the IPv4 checksum besides. |
| CryptoDev.CbcInverse | esp.c:84-97 | CBC deciphering undoes CBC enciphering for every invertible block cipher and number of blocks. |
| CryptoDev.CbcThroughIvField | esp.c:303-321 | Enciphering a zeroed IV field before the payload and deciphering after that field with its ciphertext as IV recovers the payload. |
| Esp.PadLenIn16Bits | esp.c:241-243 | The pad length is computed in 16 bits and comes out right even when the padded length itself is cut to 16 bits. |
| Esp.Plan | esp.c:222-261 | Version, mode and size checks in the order of the code with their error codes; pad length and padded length of section 2.4 of RFC 4303; the next header is 4 for IPv4 and 41 for IPv6 in a tunnel, and in transport mode the protocol byte of the packet. |
| Esp.Outbound | esp.c:203-414 | Exact return codes and sequence counter. On success the bytes of the packet, at their offsets: outer header, or own header with protocol 50 and new length; SPI and low 32 bits of the sequence number; IV field; payload; padding 1, 2, 3, ... as short as the block size allows, its length, and a next header that names what the payload is (section 2 of RFC 4303). The operation enciphers and authenticates up to the ICV from the right places, with salt, IV field and block counter 1. Tunnel mode asks only for the header fields it touches. |
| Esp.FrameOnTheWire | esp.c:244-411 | Whatever frame a successful call describes has these bytes at these offsets, in every mode and for every algorithm. |
| Esp.Inbound | esp.c:24-128 | Rejects exactly packets of no version, no positive or an unaligned payload or unsupported algorithms; else requests the ranges and IV of the received bytes. |
| Esp.InboundPost | esp.c:130-201 | For any pad length whose reads stay in the mbuf: succeeds exactly if the device did and the padding counts up from 1 inside the packet; then the packet is the payload rebuilt under its header, otherwise it is untouched. |
| Esp.UnwrapTunnel | esp.c:197-198 | In place: the outer header and ESP fields go and the inner packet takes its hop. |
| Esp.UnwrapTransport | esp.c:183-196 | In place: the IP header slides over the ESP fields and gets protocol and length back. |
| EspRoundTrip.DeviceSeals | esp.c:303-411 | Under the chaining set up in sa.c, the sender's cipher and ICV ranges turn the frame into header, enciphered trailer and payload, and a MAC over both. |
| EspRoundTrip.DeviceOpens | esp.c:60-125 | The receiver's ranges on that image verify the ICV and give the frame back. |
| EspRoundTrip.WireReceivable | esp.c:37-125 | Receiving a sealed packet with a padded length below 2^16, the code computes the sender's payload length, ranges and counter block from its bytes. |
| EspRoundTrip.RoundTrip | esp.c:24-414 | For every packet that outbound accepts with a padded length below 2^16, every mode, supported algorithm and sequence number: inbound accepts the wire packet, verification succeeds, and the delivered packet is Arrival of the original. |
| EspRoundTrip.TransportIsExact | esp.c:183-196 | In transport mode the delivered packet is the original exactly if the length in its IP header was true. |
| EspRoundTrip.Tunnel6Arrival | ipip.h:34-39 | A tunnelled IPv6 packet is delivered unchanged but for a hop limit two less. |
| EspRoundTrip.Tunnel4Arrival | ipip.h:143-151 | A tunnelled IPv4 packet is delivered unchanged but for TTL two less and the checksum field. |
| EspRoundTrip.Tunnel4Checksum | ipip.h:143-151 | Its checksum is still good exactly if TTL was at least 2 and it was not marked as having met congestion. |
| EspRoundTrip.CongestedPacketFails | ipip.h:143-151 | A packet with a good checksum that is delivered with a bad one. |
| EspRoundTrip.CipherRangeIsWhole | esp.c:241-243 | The cipher range covers payload and trailer exactly if the padded length is below 2^16. |
| EspRoundTrip.HugePacketInTheClear | esp.c:241-261 | A packet that passes the size check and whose cipher range is cut to at most 64 bytes. |
| EspRoundTrip.SeqAfterClosed | esp.c:299-300 | After n packets the 64-bit counter is start plus n modulo 2^64. |
| EspRoundTrip.CounterBlocksDistinct | esp.c:299-316 | The counter blocks for the i-th and j-th number after any start differ, for i < j < 2^64 (section 4 of RFC 3686, section 3.1 of RFC 4106). |
| EspRoundTrip.SendRun | esp.c:203-414 | Over any run of fewer than 2^64 calls of esp_outbound on one SA, failing ones among them, no two successful ones give the device the same (salt, IV, counter) block. |
| Packets.SubIncreasing | ipsec.c:637-687 | What is left of an increasing sequence after removals is increasing. |
| CryptoContext.CopBurst | ipsec.c:477-494 | The device takes a prefix of the staged operations behind what it holds, the rest is freed; no other queue pair is touched; nothing is lost, doubled or reordered. |
| CryptoContext.Cop | ipsec.c:496-502 | Stages one operation behind the others, on its queue pair only; nothing else happens unless that fills the buffer, which is then submitted; the buffer is never full between calls. |
| CryptoContext.Drain | ipsec-secgw.c:1547-1565 | Empties every staging buffer, of which its own device takes a prefix behind what it holds; every mbuf is accounted for and order kept. |
| CryptoContext.Finish | ipsec.c:646-687 | Finished operations come out in order, inbound with version and destination of the inner header in front and otherwise unchanged, outbound as they are; only those that went well come out, and only those that failed are freed. |
| CryptoContext.Dequeue | ipsec.c:637-687 | The queue pairs visited are those from last_qp on, in turn, none twice; each gives up the front of what it holds and at least one operation if one is finished, the others are untouched; it stops only when full or all are visited; nothing is lost or reordered, only what went well is handed on and only what failed is freed. |
| CryptoContext.PollingIsFair | ipsec.c:637-687 | In a run of calls that each want something, every queue pair is visited within as many calls as it is ahead of last_qp, whatever happens to the queues in between. |
| CryptoContext.DequeueRun | ipsec.c:637-687 | For the loop itself over any run with last_qp carried on: any nb_qps calls in a row visit every queue pair. |
| CryptoQueue.CdevQp.EnqueueCopBurst | ipsec.c:477-494 | Offers the staged operations; history grows by these offers, freed ones are exactly the refused ones. |
| CryptoQueue.CdevQp.EnqueueCop | ipsec.c:496-502 | Submits one operation behind all earlier ones. |
| CryptoQueue.CdevQp.EnqueueCopBulk | ipsec_process.c:32-73 | Submits a batch in order, directly or through the buffer; buffer below 32 afterwards; freed operations are exactly the refused ones. |
| CryptoQueue.CdevQp.Dequeue | ipsec_process.c:335-347 | Returns the oldest of what the device holds; the assertion that in_flight is large enough holds. |
| CryptoQueue.Run | ipsec_process.c:32-347 | For any interleaving of the calls, the queue pair refines a FIFO: submitted = offered then staged, accepted = returned then in the device. |
| CryptoQueue.FifoMeaning | ipsec_process.c:32-73 | Operations come back in submission order, and submitted = returned + in flight + staged + refused. |
| LibraryMode.SaGroup | ipsec_process.c:106-132 | Fills the group array in place with the maximal runs of equal SA entries. |
| LibraryMode.OneGrouping | ipsec_process.c:106-132 | There is only one such grouping. |
| LibraryMode.GroupsCover | ipsec_process.c:106-132 | At most as many groups as packets, none empty, together the burst. |
| LibraryMode.PutCounts | ipsec_process.c:137-169 | Handing a list on adds it to one output only. |
| LibraryMode.WayLeads | ipsec_process.c:137-169 | Look-aside sessions lead to the SA's queue pair; the others to the output of the version in front afterwards: the inner one when decapsulated or in transport mode, else the tunnel's. |
| LibraryMode.Process | ipsec_process.c:284-333 | Every packet ends in exactly one of crypto queue, IPv4 output, IPv6 output or freed: where its own SA's session leads if there is a session for its group and the library processes it, else freed. The counts are exact for each way. |
| LibraryMode.SweptAt | ipsec_process.c:349-363 | A sweep takes from each queue pair the share those before it leave. |
| LibraryMode.CtxDequeue | ipsec_process.c:349-363 | What is taken is all there is or all that is asked; exact shares of both sweeps; last_qp never grows, and is 0 after a first sweep that fills the call. |
| LibraryMode.CtxRun | ipsec_process.c:349-363 | Over a whole run a queue pair is served in a call exactly if those below it cannot fill the call. |
| LibraryMode.Starved | ipsec_process.c:349-363 | With enough ready on queue pair 0, no other is served. |
| TxPorts.SendBurst | ipsec-secgw.c:747-769 | The NIC takes a prefix of what is buffered and given, the rest is freed; no other port is touched, order and count kept. |
| TxPorts.SendSingle | ipsec-secgw.c:812-841 | Buffers a packet behind the others, sends the buffer when that makes 32; over-long packets are freed and nothing else happens. |
| TxPorts.DrainTx | ipsec-secgw.c:1533-1545 | All tx buffers are empty afterwards; each NIC has taken a prefix of its own buffer behind what it took before, and every mbuf is accounted for. |
| TxPorts.ChooseHops | ipsec-secgw.c:1119-1160 | Though lookups are made in bulk on a shorter array, every packet gets its own hop: its SA's port if marked for offload, else its route. |
| TxPorts.Route | ipsec-secgw.c:1119-1167 | Packet by packet: one marked for offload goes to its SA's port, another to the port of its own route; without one, or longer than the MTU, it is freed and nothing else happens; otherwise it is buffered at that port, and freed only if a full buffer is sent and the NIC refuses it. As long as no tx buffer can fill up, nothing else of the list is freed. Order per SA kept. |
| Traffic.PickAll | ipsec-secgw.c:888-916 | Sorting deals each packet to exactly one list. |
| Traffic.SplitOrder | ipsec-secgw.c:888-916 | Splitting by version keeps one tunnel SA's packets together and in order. |
| Traffic.DealOut | ipsec-secgw.c:553-695 | One pass gives each list its packets in arrival order. |
| Traffic.Decide | ipsec.c:504-610 | A packet is freed exactly if its session cannot be created, its queue pair is missing, its transform fails, it came over a NAT-T port its look-aside protocol SA is not for, or the session is a CPU one, whichever its session type asks; else it is set aside or staged as that type has it. It is then behind the tunnel's own header where there is one, carries the SA's port, and has the next number of the SA's counter exactly where the gateway encapsulates; it is staged only on the SA's queue pair. The counter never falls behind. |
| Traffic.Enqueue | ipsec.c:504-610 | A burst is queued, set aside or freed with nothing lost; what is queued or set aside is a packet of the burst as the SA found for it sends it on; as long as no staging buffer can fill up, only packets are freed that have no SA or that their SA does not take; new numbers go in behind all earlier ones. |
| Traffic.InlineDequeue | ipsec.c:612-635 | Packets set aside come back or are freed, none lost; those with a good status come back last one first, decapsulated or marked for Tx offload, and only those with a bad one are freed. |
| PollWorker.OutboundDrained | ipsec-secgw.c:1600-1624 | Collecting from outbound devices keeps books and order; no policy decides anew; what reaches a port came off a queue pair with a good status, by the earlier decision to protect it; what is freed failed, is no IP packet, is too long or has no route, unless what was collected may fill a tx buffer. |
| PollWorker.InboundDrained | ipsec-secgw.c:1567-1598 | Collecting from inbound devices keeps books and order; the inbound tables decide only about packets that came off a queue pair verified and with the inner header in front, as not in the clear, by the version of that header; only those that pass reach a port; what is freed otherwise failed, is no IP packet, is too long or has no route, unless what was collected may fill a tx buffer. |
| PollWorker.BuffersDrained | ipsec-secgw.c:1533-1565 | The timed drain keeps books and order and leaves every tx and staging buffer empty. |
| PollWorker.InPolicy | ipsec-secgw.c:843-886 | Where there is a table, exactly the packets it passes go on; without one, all do. |
| PollWorker.OutPolicy | ipsec-secgw.c:943-974 | Where there is a table, bypassed packets stay, discarded ones are freed, and the others carry their result less one as SA index; without one, all stay. |
| PollWorker.InboundBurst | ipsec-secgw.c:918-941 | A burst from an unprotected port keeps books and order; every packet in the clear, and not ESP, is decided about by its family's table as in the clear; besides these, only packets that the inline session of their own SA took and verified are, as not in the clear. Those refused are freed, and what reaches a port does so by such a decision. What is freed otherwise is of no type, has no SA or one that does not take it, failed, is too long or has no route, unless a buffer may fill up. |
| PollWorker.OutboundSorted | ipsec-secgw.c:976-989 | The packets of a burst from a protected port that stay are just those whose rule says bypass, those freed by the policy just those it discards, those to protect carry the SA their rule names; ESP is freed. |
| PollWorker.OutboundBurst | ipsec-secgw.c:976-1013 | A burst from a protected port keeps books and order; every packet but ESP is decided about by its family's table; to the ports go only bypassed packets as they came, and protected ones with a good status marked for Tx offload under the SA their rule names; to the crypto queues only packets that SA took. What is freed before the policy is ESP or of no type, and after it refused by its SA, failed, too long or without a route, unless a buffer may fill up. |
| PollWorker.Turn | ipsec-secgw.c:1717-1766 | Each turn of the main loop keeps books and order, decisions true to the tables, and every packet at a port there by a decision. |
| PollWorker.Turns | ipsec-secgw.c:1717-1767 | After any run from the idle worker, for every mbuf and every look-aside tunnel SA: books and order hold; every packet that came in the clear has been decided about, each decision is the one its table gives, mbufs are freed by policy just as often as decided against and go on just as often as decided for; and each packet at a port, sent or buffered, is there by a decision that lets it go to that port. |
| PollWorker.Lcore.Run | ipsec-secgw.c:1671-1768 | The same for the worker object. |
| PollWorker.ClearVerdict | ipsec-secgw.c:843-974 | An mbuf received once, in the clear, from either side, has been freed by policy exactly if its family's table refuses it, and is then in no buffer, device or sent list; otherwise it has not been freed by policy, nor before it. |
| PollWorker.ProtectedNeverBare | ipsec-secgw.c:943-1013 | A packet received once from a protected port whose rule names an SA is at a port only as that SA sends it: behind its header and with its number, or marked for Tx offload at its port. |
| PollWorker.EveryMbufAndTunnel | ipsec-secgw.c:1671-1768 | Every mbuf and every look-aside tunnel SA can be watched, in every configuration with table positions and used ports in range. |
| PollWorker.OnePlace | ipsec-secgw.h:143-182 | An mbuf received once is in exactly one of: freed before, by or after a policy, sent, tx buffer, staging buffer, crypto device. |
| PollWorker.CountersAddUp | ipsec-secgw.h:143-182 | rx = tx + dropped + tx-buffered + the sum over queue pairs of len + in_flight. |
| PollWorker.InOrderOnTheWire | esp.c:299-301 | Below 2^32 packets, a tunnel SA's packets leave through one port with strictly increasing ESP numbers (section 3.3.3 of RFC 4303). |
| Sad.AndAtMost | sad.h:11 | A cache index is at most the mask. |
| Sad.Align32Pow2 | sad.c:82 | The number of cache slots: a power of two at least the request and below twice it, or 0 for no cache. |
| Sad.Cache.constructor | sad.c:74-98 | A cache of any size starts in agreement with every database. |
| Sad.FirstPass | sad.h:80-126 | Hits get the slot's SA; misses are noted in order by family and not answered yet. |
| Sad.SecondPass | sad.h:128-148 | Each noted packet gets the table's answer, or without a table what the stack holds if it fits; others are left alone; the cache goes on agreeing with the tables there are, and holds an answer of the pass in the slot of every SA found. |
| Sad.SadLookup | sad.h:56-149 | Every answer of a burst, exactly, from the tables, the cache before it and the stack; where the family has a table, an SA is the answer exactly if the table holds it under the SPI read and it is transport, or a tunnel of that family from the packet's source to its destination. |
| Sad.AnswersAreOwed | sad.h:28-42 | So it is for any burst and any cache that agrees with the tables; the SPI read is behind a UDP header exactly from the first encapsulated packet of the burst on. |
| Sad.CacheIsTransparent | sad.h:94-119 | With a cache that agrees with the tables, the answer to a packet whose family has a table is that table's. |
| Sad.DeterminedIff | sad.h:128-148 | The answers do not depend on the stack exactly if every packet hits the cache or has a table for its family. |
| Sad.NoTableForFamily | sad.c:121-137 | An IPv6 packet at a gateway with IPv4 SAs only is accepted or not by what the stack holds. |
| Sad.CacheRun | sad.h:56-149 | Over any sequence of bursts, from an empty cache of any size, every packet whose family has a table gets exactly that answer. |
| Sad.OwnSpiIff | sad.h:75-87 | Answers are by the packets' own SPIs, for every database, exactly if no plain packet suffers from an encapsulated one before it. |
| Sad.MixedBurst | sad.h:85-87 | A plain packet behind one in UDP, whose SA is not found. |
| Sad.UniformBurst | sad.h:85-87 | Bursts of uniform encapsulation are always read right. |
| Sad.Database.Add | sad.c:17-68 | Entries are never replaced; success enters the SA in every family it serves; EEXIST exactly for an SPI already in one, unless the other failed first. |
| PolicyBinding.OrdersIffHalfCircle | sa.c:1478-1484 | The comparator is a total order on a set of SPIs exactly if they lie within half of the 32-bit circle. |
| PolicyBinding.KeysInACycle | sa.c:1478-1484 | Three SPIs that an SA can have and that it puts in a cycle. |
| PolicyBinding.BSearch | sa.c:1489-1509 | Binary search as a loop finds what its specification finds. |
| PolicyBinding.FoundHasKey | sa.c:1489-1509 | Whatever is found has the SPI asked for, sorted or not. |
| PolicyBinding.FoundIffOnPath | sa.c:1489-1509 | In any array, an SPI is found exactly if the search is not led away from one of its places. |
| PolicyBinding.AllFoundIff | sa.c:1489-1509 | Every SPI of an array without duplicates is found exactly if, at each probe and recursively, none to the left compares above it and none to the right below it. |
| PolicyBinding.FindExact | sa.c:1489-1509 | On a sorted array within half a circle an SPI is found exactly if it is there. |
| PolicyBinding.PresentButMissed | sa.c:1489-1509 | An array in order from each to the next, beyond half a circle; what a top-down merge sort makes of it; and an SPI in it that is missed. |
| PolicyBinding.SaAddRules | sa.c:1128-1285 | SAs are copied position by position; after a failure the entries up to the failing one are there and the rest unused. |
| PolicyBinding.CheckSpiValue | sp4.c:495-523 | In place: succeeds exactly if every named SPI is found and then every rule holds position plus one; on failure exactly the rules before the first bad one are rewritten. |
| PolicyBinding.BindsIffPresent | sp4.c:495-523 | With sorted SPIs in half a circle the check passes exactly if every named SPI has an SA. |
| PolicyBinding.BindsIffOnPath | sp4.c:495-523 | In whatever order the SAs are, it passes exactly if the search is led to every SPI that a rule names. |
| PolicyBinding.SecondSocketIff | ipsec-secgw.c:3757-3767 | Rewriting once more succeeds and changes nothing exactly if every named SPI is one above the position it was found at, for SA tables in any order and with duplicates. |
| PolicyBinding.SecondSocketMoves | ipsec-secgw.c:3757-3767 | SPIs 2 and 3: the second pass moves a rule for 3 to the SA with SPI 2. |
| PolicyBinding.TransportNotEntered | sad.c:45-56 | With the rules rewritten, the rule for a transport SA is no longer found by its SPI. |
| PolicyBinding.VerdictIsBound | ipsec-secgw.c:943-974 | Discard and bypass survive the rewriting, and a rule that names SPI s leads to the SA with SPI s; an index plus one is never taken for discard or bypass. |
| PolicyBinding.Protect | sa.c:1622-1628 | A packet whose winning rule named SPI s leaves esp_outbound with s in the SPI field of its ESP header. |
| PolicyBinding.BindAll | sa.c:1511-1574 | Copying the SAs, however far that gets, and binding the rules: every SA is an entry or an unused row, and if the check passes the rules are bound to these SAs. |
| PolicyBinding.EndToEnd | sa.c:1128-1628 | From the SAs and rules read to the wire: if the rules bind and the packet is sent, its ESP header carries the SPI its winning rule was read with, even if copying the SAs stopped early. |
| InboundPolicy.InboundSpSa | ipsec-secgw.c:843-886 | In place: the array keeps exactly the passing packets in order, the others are freed in order, and the counters account for each packet. |
| InboundPolicy.ChosenByRank | ipsec-secgw.c:843-886 | The packets kept are at the places their ranks give; none lost, doubled or reordered. |
| InboundPolicy.OneFilter | ipsec-secgw.c:843-886 | That determines the result. |
| InboundPolicy.EnforcesPolicy | sa.c:1576-1588 | With bound rules, a packet stays exactly if its rule says bypass or it was processed under an SA with the SPI its rule named (section 5.2 of RFC 4301). |
| Selector6.Split | sp6.c:320-338 | The token loop fills four fields with the words of the address and what is left of the depth. |
| Selector6.SelectorRoundTrip | sp6.c:20-41 | The macros rebuild the address, and the depth up to 128. |
| Selector6.SelectorIsPrefix | sp6.c:320-338 | For every address and depth up to 128 the four masked fields match a packet's address exactly if the first depth bits agree. |
| EventWorker.Vector.Put | ipsec_worker.c:70-85 | The attribute update keeps: valid exactly if all ports so far are equal. |
| EventWorker.InboundVector | ipsec_worker.c:555-585 | The vector afterwards holds what each packet comes to, the right number of times: just the packets that are let in, each with the port of its route and its Tx flag as it was; the attributes are those of the ports in it. |
| EventWorker.OutboundVector | ipsec_worker.c:587-612 | The same outbound, over three lists and the SA positions kept beside them: bypassed packets with the port of their route, protected ones with the port of the SA named and the Tx offload flag. |
| EventWorker.WorkerMeans | ipsec_worker.c:266-458 | What each of the four workers does with a packet, in terms of its fields: bypass, or a security field with the SPI of the SA named, sends it by its route; a rule that names an inline protocol SA in range sends it from that SA's port with the Tx offload flag; nothing else is sent. |
| EventWorker.InboundAgreesIff | ipsec_worker.c:266-358 | A packet fares the same in a vector as on its own exactly outside three guards: no table, a security field that no processing set, a position past the SAs. |
| EventWorker.OutboundAgreesIff | ipsec_worker.c:360-458 | Outbound, exactly unless there is no table and yet a route. |
| EventWorker.NoTableForwards | ipsec_worker.c:144-208 | A packet with a route and no table, dropped on its own and forwarded in a vector, inbound and outbound. |
| EventWorker.StaleFieldForwards | ipsec_worker.c:171-208 | An unprocessed packet with an SA left in its security field, dropped on its own and forwarded in a vector. |
| EventWorker.PastTheSasForwards | ipsec_worker.c:171-208 | A processed packet whose rule names a position past the SAs, dropped on its own and forwarded in a vector if it finds its SPI there. |
| EventWorker.VectorProcess | ipsec_worker.c:460-612 | With tables present, SA indices in range and the security field only on processed packets, the vector worker sends the same packets, with the same ports and flags, as the one-packet worker; those left in the vector are exactly what the policy says each leaves as; attr_valid is 1 exactly if all ports are equal. |
| QueuePairs.AddMapping | ipsec-secgw.c:2456-2505 | The search loop and both inserts, as a function of the state and of whether the hash takes the key. |
| QueuePairs.MappedVisits | ipsec-secgw.c:2507-2557 | Over the mappings of one call only its own context changes, its table grows by the queue pair at most once and not if it has the device, and while inserts succeed growth is reported. |
| QueuePairs.AddCdevMapping | ipsec-secgw.c:2507-2557 | Map entries stay; new ones are for what the device offers and lead to it; unless an insert fails or the table is full without the device, every AEAD and every pair of a cipher and an authentication algorithm has one; a mapping is reported exactly if there is a new entry; the device comes into the table exactly with a new entry or a failed insert. |
| QueuePairs.AssignDevice | ipsec-secgw.c:2610-2623 | One device's round over the receive queues, in turn from where the last one stopped until all are asked or its queue pairs are used up: each context's table is as before or longer by the queue pair of the one call that grew it, numbered by the reports before it; with no failed insert every context asked has all the device offers, and a call reports exactly if it is the first for a context that wants something. |
| QueuePairs.ExclusiveIff | ipsec-secgw.c:2610-2623 | A device leaves an assignment exclusive exactly if it was and, between any two of its calls that grew a table, one was reported. |
| QueuePairs.ConfiguredIff | ipsec-secgw.c:2625-2632 | All that a device was handed out gets configured exactly if each call that grew a table was reported or followed by a reported one, or more queue pairs are asked for. |
| QueuePairs.CryptodevsInit | ipsec-secgw.c:2568-2660 | Over all devices: exclusive, and configured, exactly under these conditions on every device's log, so both if inserts succeed, and then every context asked has all that the device offers; every map entry leads to an enabled device that offers its algorithms; each device is configured with what was handed out, or more if asked for, and the total is theirs. |
| QueuePairs.FailedInsertShares | ipsec-secgw.c:2490-2502 | One failed insert and two lcores share a queue pair. |
| EventDefaults.NextEthCore | event_helper.c:35-63 | The wrapping search ends, gives the first eth core on its way, and gives none exactly if there is none. |
| EventDefaults.DefaultLinks | event_helper.c:250-310 | Port i is linked to the i-th worker core, as long as both last. |
| EventDefaults.WorkersDistinct | event_helper.c:65-83 | The worker cores are exactly the enabled cores that are not eth cores, each once and in order. |
| EventDefaults.RxConnections | event_helper.c:312-412 | Exactly the enabled eth ports are connected, each to its queue; the array of 16 is overrun exactly if more than 16 are enabled. |
| EventDefaults.SeventeenPorts | event_helper.h:31 | Seventeen enabled ports overrun it. |
| EventDefaults.TxQueueIsFreeIff | event_helper.c:1751-1782 | No packet is received on the Tx queue exactly if the device has at least two queues. |

## Left out

- Inline crypto in the ESP codec (esp.c:329-330, 139-141): the codec is for look-aside sessions; the pipeline does move inline packets.
- Fragmentation and reassembly: done by a library; the original mbuf is also counted as dropped there (ipsec-secgw.c:807).
- Single-SA mode (`process_pkts_inbound_nosp`, `process_pkts_outbound_nosp`): same shape as the modelled functions; the outbound one reads packet 0 of an empty list.
- IKE packets handed to the kernel interface before they are counted (`filter_ike_packets`), ARP replies, packet dumps and statistics.
- MongoDB, NATS and the NETSTAT tables: plumbing, shared by threads without synchronisation.
- Session and flow creation, port setup, telemetry: driver calls. They appear as steps that may fail.
- Several lcores sharing an SA: its counter is not synchronised, so each SA is taken to be used by one context.
- The driver-mode event worker, which makes no policy decision.
- Command line and rule parsing other than the IPv6 selector fields.
- qsort: taken to return its input sorted where the comparator is an order; elsewhere it promises nothing, and the merge sort of `PolicyBinding.PresentButMissed` is one of the ways it can be written.
- Ethernet headers, and the checksum offload of the transmit path (ipsec-secgw.c:697-744).
- PollWorker.Turns: the poll worker's queues, ports and state are values that its methods replace; aliasing between the C structures is not modelled there. `CryptoQueue` has the queue pair as an object with its buffer array.
- PollWorker.InOrderOnTheWire: for look-aside tunnel SAs. Packets set aside for inline processing leave each burst in reverse (ipsec.c:612-635); transport-mode packets may take several ports.
- EventWorker.InboundVector: the traffic arrays on the stack are sequences; the vector itself is rewritten in place.
- Esp.InboundPost: a pad length that makes the padding loop read in front of the mbuf's buffer is not modelled; one that stays in the buffer but not in the packet is.
- Esp.Outbound: transport mode takes the IP header length at its word (esp.c:222-224, 285-286); packets shorter than the header they announce, or announcing one below 20 bytes, are not modelled there.
- Esp.UnwrapTunnel: a packet with no room for the headers it is stripped of makes rte_pktmbuf_adj fail, which the code does not check; not modelled, nor in `Esp.UnwrapTransport`.
- Sad.SadLookup: an unwritten result is any SA or none; that reading it may also fault is not modelled, nor that stack slots of one family are reused in an order of their own.
- QueuePairs.CryptodevsInit: the two hash maps are one map keyed by direction as well.
- LibraryMode.CtxDequeue: a device gives all it has ready and there is room for.
- TxPorts.Route: the port number is cut to 8 bits (ipsec-secgw.c:1165); there are at most 32 ports.
- Traffic.Decide: the length of an encapsulated packet is left open here; `Esp.Outbound` determines it.
- CryptoContext.Dequeue: what a device has finished is an argument of the call; it hands over all of it that there is room for.
