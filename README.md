# Network layer of the 0.56b game server, in Dafny

This project models the connection-slot and packet-queue bookkeeping of the server's
network layer, `0.56.b/network/network.cpp`, and proves properties of that model.

- `wire.dfy` (module `Wire`) holds the shared values:
  - bytes and the five packet priorities (`PRI_IDLE` = 0 up to `PRI_HIGHEST` = 4);
  - outbound packets and connection kinds;
  - `Config`, which gathers the build constants and `g_Cfg` settings the layer reads.
- `netstate.dfy` (module `NetStates`) models one connection slot, `NetState`:
  - `Slot` is its value;
  - the class `NetState` holds the same fields and updates them in place (`clear`,
    `init`, `markClosed`, `setAsyncMode`, `hasPendingData`).
  - The queries `isValid` and `canReceive` are the predicates `IsValid`, `IsValidFor` and
    `CanReceive`.
- `history.dfy` (module `History`) models `NetworkIn::HistoryIP`:
  - the per-address record and `update`, `checkPing`, `setBlocked`;
  - the table rules of `getHistoryForIP`, of the admission test in `acceptConnection` and
    of the decay and purge passes in `periodic`.
- `dispatch.dfy` (module `Dispatch`):
  - the three handler tables and their registration and lookup;
  - the message-dispatch loop of `NetworkIn::tick`, with a reference definition of the
    walk it makes over a decrypted buffer.
- `handshake.dfy` (module `Handshakes`):
  - the classifier that decides what the first reads of an unclassified connection are,
    across HTTP, new seed, legacy seed, the KR sentinel and pings;
  - the routing of the first payload of a classified connection.
- `networkin.dfy` (module `NetworkIns`) has the class `NetworkIn`:
  - its slots, history table and handler tables;
  - `getStateSlot`, `acceptConnection`, the three `register*` methods and `periodic`,
    with its connecting-limit pass;
  - the `iPeriodic` cadence of `tick`;
  - `ClientIterator`.
- `networkout.dfy` (module `NetworkOuts`) has the class `NetworkOut`:
  - `scheduleOnce`, `sendPacket`, `sendPacketNow`, both `proceedQueue` overloads,
    `proceedQueueAsync`, `onAsyncSendComplete`, `flush` and `tick`;
  - each is proved against a function on slot values (`Scheduled`, `Routed`, `SentNow`,
    `Drained`, `AsyncStepCorrected`, `Flushed`, `Ticked`), and the properties are lemmas
    about those functions.
  - `NetworkIn::tick` and `NetworkOut::tick` both return at once unless the server is
    running; that test is the `running` parameter of `TickPeriodic` and `Tick`.

Several things outside the layer become parameters:

- the socket and the packet's own send trigger (`Transport`);
- the answers of client hooks (`hookOk`, the packet filter, the handlers' `checkLength`
  and `onReceive`);
- the connecting test of the client (`isConnecting`);
- the script hook of `setBlocked`;
- the current time.

In these places the model follows the code, which does less than its names and comments
suggest:

- With the async option set to anything but 0 or 2, async mode is on for every client,
  whatever its version (`NetStates.AsyncDecision`).
- `checkPing` on a blocked entry does not count the ping.
- A synchronous send that would block is queued again through `scheduleOnce`: at the tail
  of its queue, and possibly demoted. It is not put back at the front.
- On Windows, a send error other than would-block, reset or abort is ignored, and the send
  counts as a success.
- At most one asynchronous send is in flight only once the flag that should say so is
  actually set. The code never sets it (the second finding below).

Where the code has a defect (the findings at the end), the operations run the corrected
version, and the version as written sits beside it with the input that shows the defect:

- the classifier `Handshakes.Classify` against `Handshakes.ClassifyAsWritten`;
- the async step `NetworkOuts.AsyncStepCorrected` against `NetworkOuts.AsyncStepAsWritten`;
- the drain pass `NetworkOuts.Drained` against `NetworkOuts.DrainedAsWritten`;
- the tick counter of `NetworkOuts.NetworkOut.Tick`, which steps modulo 256, against the
  signed char of `NetworkOuts.CountAsWritten`.

For each pair, lemmas relate the two versions on every input and show a concrete input
where they part. For the drain pass these are `NetworkOuts.DrainedAsWrittenPrefix` and
`NetworkOuts.DrainedAgreeWithoutDrops`. The list of what is left out names every operation
that runs a corrected version.

## Model

| member | source | states |
|---|---|---|
| NetStates.AsyncDecision | 0.56.b/network/network.cpp:220-243 | async mode is off when the option is 0 and on when it is any value but 0 or 2; with 2 it is on exactly for a non-web client of version 4.0.0 or later or a KR client |
| NetStates.ClearedIsUnused | 0.56.b/network/network.cpp:97-166 | after clear the slot equals a never-used slot except for its peer address: no socket, closed, no client, empty queues, async off with an empty queue, handshake fields and exception count reset; it is not valid |
| NetStates.ClearIdempotent | 0.56.b/network/network.cpp:97-166 | clearing twice is clearing once, and the second clear does not change the client statistic |
| NetStates.ClearedHasNoPendingData | 0.56.b/network/network.cpp:245-268 | hasPendingData answers false on a cleared slot |
| NetStates.OpenedIsFresh | 0.56.b/network/network.cpp:168-201 | after init the slot is valid for its new client, has empty queues, is unseeded, has no exceptions, has the new peer address, and is in async mode exactly when the option is neither 0 nor 2 |
| NetStates.Emptied | 0.56.b/network/network.cpp:132-136 | popping a queue until it is empty deletes every packet it held, once each and front first, and leaves it empty |
| NetStates.EmptyAll | 0.56.b/network/network.cpp:130-145 | the loop over the priorities leaves all five queues empty |
| NetStates.NetState.constructor | 0.56.b/network/network.cpp:83-91 | a new slot has its id and is in the never-used state |
| NetStates.NetState.MarkClosed | 0.56.b/network/network.cpp:215-218 | only the closed flag changes, and it becomes true |
| NetStates.NetState.Clear | 0.56.b/network/network.cpp:97-166 | the slot becomes `Cleared` of the old slot, and the statistic drops by one exactly when there was a client |
| NetStates.NetState.SetAsyncMode | 0.56.b/network/network.cpp:220-243 | only the async flag changes, to the `AsyncDecision` for the slot's connect type, version and client kind |
| NetStates.NetState.Init | 0.56.b/network/network.cpp:168-201 | the slot becomes `Opened`: cleared, then socket, new client and async mode set, then reopened; the statistic loses the old client, if any, and gains the new one |
| NetStates.NetState.HasPendingData | 0.56.b/network/network.cpp:245-268 | the answer is true exactly when the socket is open and either some queue at or above the floor is non-empty (the floor is the disconnect priority for a closed slot) or the slot is in async mode with queued packets |
| Dispatch.LookupRegistered | 0.56.b/network/network.cpp:995-1026 | after a registration the opcode answers the new handler exactly when it lies in [0, NETWORK_PACKETCOUNT), and every other opcode answers what it did before |
| Dispatch.RegisteredInRange | 0.56.b/network/network.cpp:995-1011 | registration never stores an opcode outside [0, NETWORK_PACKETCOUNT) |
| Dispatch.ProcessMessage | 0.56.b/network/network.cpp:796-840 | the `len`/`offset` loop, with `offset + len` equal to the buffer length throughout, produces exactly the walk `Dispatched` defines |
| Dispatch.ExplainsEachEvent | 0.56.b/network/network.cpp:798-840 | a tiling, spelled out: every event is justified by the tables, each starts where the previous one ends, the first starts at 0 and the last ends at the stop offset |
| Dispatch.RunFromTiles | 0.56.b/network/network.cpp:798-840 | from any offset the loop keeps the events a gapless tiling of the buffer up to where it stops |
| Dispatch.RunFromStops | 0.56.b/network/network.cpp:798-840 | the loop stops only for one of its four reasons, and each is the case at the stop offset: buffer exhausted, slot closed by the last delivered handler, filter veto, or a non-positive claimed length |
| Dispatch.RunFromHeeds | 0.56.b/network/network.cpp:798-840 | from any offset on, no message is taken where the packet filter vetoes the rest of the buffer, and none after a delivered handler closed the slot |
| Dispatch.DispatchExplained | 0.56.b/network/network.cpp:796-840 | over a whole buffer, an unknown opcode takes exactly one byte, a known one exactly the positive length its handler claimed, messages are consecutive from offset 0, and the loop ends only for one of the four reasons; conversely no message is taken at an offset the filter vetoes and none follows a handler that closed the slot |
| History.CheckPing | 0.56.b/network/network.cpp:331-336 | the ttl is always refreshed; a blocked entry answers true and keeps its ping count; an unblocked one counts the ping and answers whether the old count had reached the limit; nothing else changes |
| History.SetBlocked | 0.56.b/network/network.cpp:338-354 | only the blocked flag and the expiry change; the expiry is set, to now plus the hook's timeout, exactly when blocking with a non-negative timeout |
| History.Decayed | 0.56.b/network/network.cpp:1113-1127 | a blocked entry keeps ttl and pings and is unblocked exactly when its ban has expired; an unblocked entry loses one ttl and loses one ping exactly when it had pings and its ttl went negative |
| History.DecayedAll | 0.56.b/network/network.cpp:1111-1128 | the decay pass applies `Decayed` to every entry, in place |
| History.FirstExpired | 0.56.b/network/network.cpp:1131-1138 | the index found is the first entry with a negative ttl, or the table size when there is none |
| History.IndexOf | 0.56.b/network/network.cpp:1032-1036 | the index found is the first entry for the address, or the table size when there is none |
| History.WithHistory | 0.56.b/network/network.cpp:1028-1045 | after getHistoryForIP the address has an entry |
| History.WithHistoryUnique | 0.56.b/network/network.cpp:1028-1045 | getHistoryForIP keeps addresses unique: the old entries keep their order, and the table grows by one exactly when the address was unseen |
| History.PurgedErasesFirstExpired | 0.56.b/network/network.cpp:1131-1138 | the purge keeps the table exactly when no ttl is negative; otherwise it erases exactly the first expired entry and keeps the order of the others |
| History.PurgedKeepsKeysUnique | 0.56.b/network/network.cpp:1131-1138 | erasing an entry keeps addresses unique |
| History.PeriodicKeepsKeysUnique | 0.56.b/network/network.cpp:1111-1138 | neither the decay pass nor the purge makes two entries share an address |
| History.AdmissionKeepsKeysUnique | 0.56.b/network/network.cpp:942-956 | the history step of acceptConnection, find or add and then ping, never makes two entries share an address |
| History.AdmissionRule | 0.56.b/network/network.cpp:942-956 | a connection is rejected exactly when the existing or new entry for its address is blocked, has reached the ping limit, or is over a non-zero per-address connecting or connected limit; the entry's ttl is refreshed either way |
| Handshakes.BigEndian32 | 0.56.b/network/network.cpp:660 | the legacy seed is below 2^32 and is zero exactly when its four bytes are zero |
| Handshakes.Classify | 0.56.b/network/network.cpp:607-716 | whatever the read, the seed consumes no more than was received; every hook is handed exactly the bytes after the seed, at least one; a slot it seeds never has a zero seed |
| Handshakes.SplitSeedOverconsumesAsWritten | 0.56.b/network/network.cpp:633-674 | as written, a 4-byte read after a lone new-seed marker is consumed as a 20-byte continuation, and the ping hook gets a length of -16 |
| Handshakes.SplitSeedGuarded | 0.56.b/network/network.cpp:633-674 | with the length test the same read is a legacy seed of 4 bytes and nothing is overread |
| Handshakes.ClassifyAgreesAsWritten | 0.56.b/network/network.cpp:607-716 | the guarded classifier gives the code's outcome on every read except an unseeded non-HTTP read of 4 to 19 bytes after the lone marker; there, with a non-zero seed, the code consumes 20 bytes and the guarded one 4 |
| Handshakes.HttpRequestIsNeverSeeded | 0.56.b/network/network.cpp:611-629 | a first read of 4 bytes or more starting `GET /` or `POST /` leaves the handshake fields alone; with HTTP on it becomes a web connection handed the whole read, and it is closed when the hook refuses; otherwise it is closed |
| Handshakes.LegacySeed | 0.56.b/network/network.cpp:657-675 | any other read of 4 bytes or more carries the big-endian seed in its first four bytes; zero closes the slot; any other value seeds it, consumes 4 bytes and keeps the version |
| Handshakes.NewSeed | 0.56.b/network/network.cpp:633-656 | a new-seed read takes seed and version quad from the packet and consumes all 21 bytes, or 20 when the marker came alone first |
| Handshakes.ZeroSeedCloses | 0.56.b/network/network.cpp:664-669 | a zero seed of either format closes the slot unseeded, with no further action |
| Handshakes.KRSentinel | 0.56.b/network/network.cpp:692-703 | a seed equal to 0xFFFFFFFF that fills the read makes a crypt connection of kind KR and starts the KR encryption handshake |
| Handshakes.ShortReadBeforeSeed | 0.56.b/network/network.cpp:676-689 | a read of 1 to 3 bytes before the seed is remembered as the lone marker when it starts with 0xEF; otherwise it is a ping that closes the slot exactly when the hook refuses |
| Handshakes.SeededRead | 0.56.b/network/network.cpp:692-716 | on a seeded, unclassified slot, fewer than 5 bytes are a ping; 5 or more are the setup packet, and the connection becomes a crypt connection |
| Handshakes.SetupRoute | 0.56.b/network/network.cpp:721-785 | a setup call happens only on a crypt connection and gets a positive byte count ending at the end of the read; the slot is closed exactly when a short crypt read or a web or console read is refused by its hook, or on an unknown type |
| Handshakes.ReceiveUnclassified | 0.56.b/network/network.cpp:607-717 | the slot's connect type, closed flag and handshake fields become the classifier's outcome, and nothing else changes |
| NetworkIns.FirstFree | 0.56.b/network/network.cpp:1060-1066 | the index found is the first slot at or after the start that is not valid, or the slot count |
| NetworkIns.StateSlotRoundRobin | 0.56.b/network/network.cpp:1054-1074 | getStateSlot answers -1 exactly when every slot is valid; otherwise it answers a slot that is not valid, the first at or after the start if there is one, else the first from 0 |
| NetworkIns.LimitConnecting | 0.56.b/network/network.cpp:1086-1107 | the pass keeps the number of slots |
| NetworkIns.LimitConnectingBound | 0.56.b/network/network.cpp:1086-1107 | after the pass the number of live connecting clients is the old number, capped at the limit |
| NetworkIns.ClientIterator.constructor | 0.56.b/network/network.cpp:293-298 | the iterator starts before slot 0 and bounds its scan by the slot count |
| NetworkIns.ClientIterator.Next | 0.56.b/network/network.cpp:305-315 | it moves forward to the next slot with a live client and returns that client, skipping only slots without one; at the end it returns NULL |
| NetworkIns.PeriodicEvery21Ticks | 0.56.b/network/network.cpp:555-563 | from a fresh start the counter after n ticks is n mod 21, so periodic runs exactly on ticks 0, 21, 42 and so on |
| NetworkIns.NetworkIn.constructor | 0.56.b/network/network.cpp:421-546 | empty handler tables and history, no slot handed out yet, and the configured number of never-used slots |
| NetworkIns.NetworkIn.NextClient | 0.56.b/network/network.cpp:305-315 | the scan of next: the first later slot below the bound with a live client and its client, or the end and NULL |
| NetworkIns.NetworkIn.RegisterPacket | 0.56.b/network/network.cpp:995-999 | the game table becomes `Registered`, and nothing else changes |
| NetworkIns.NetworkIn.RegisterExtended | 0.56.b/network/network.cpp:1001-1005 | the extended table becomes `Registered`, and nothing else changes |
| NetworkIns.NetworkIn.RegisterEncoded | 0.56.b/network/network.cpp:1007-1011 | the encoded table becomes `Registered`, and nothing else changes |
| NetworkIns.NetworkIn.GetStateSlot | 0.56.b/network/network.cpp:1054-1074 | it answers `StateSlot` and records the slot as the last one handed out, unless it answers -1; nothing else changes |
| NetworkIns.NetworkIn.GetHistoryForIP | 0.56.b/network/network.cpp:1028-1045 | the table becomes `WithHistory`, and the answer is the index of the address's entry |
| NetworkIns.NetworkIn.CheckAddress | 0.56.b/network/network.cpp:942-956 | the table and the verdict are `Admission` of the old table, and unique addresses stay unique |
| NetworkIns.NetworkIn.OpenSlot | 0.56.b/network/network.cpp:976-990 | without a free slot nothing changes; otherwise exactly the slot getStateSlot hands out is initialised and recorded, and the clients statistic changes by what init's clear and increment make of that slot; the history, the handler tables and the periodic counter are kept |
| NetworkIns.NetworkIn.AcceptConnection | 0.56.b/network/network.cpp:932-993 | without a socket nothing changes; a rejected address changes only the history; an admitted one also gets exactly the slot getStateSlot hands out, initialised, with the clients statistic changed by init, or none when every slot is valid; the statistic is kept without a socket or on refusal, and the handler tables and periodic counter are always kept |
| NetworkIns.NetworkIn.DecayHistory | 0.56.b/network/network.cpp:1111-1128 | the history becomes `DecayedAll` of the old one, and nothing else changes |
| NetworkIns.NetworkIn.PurgeHistory | 0.56.b/network/network.cpp:1131-1138 | the history becomes `Purged` of the old one, and nothing else changes |
| NetworkIns.NetworkIn.Periodic | 0.56.b/network/network.cpp:1076-1138 | the slots go through the connecting-limit pass when the limit is positive, then the history is decayed and purged, keeping one entry per address |
| NetworkIns.NetworkIn.TickPeriodic | 0.56.b/network/network.cpp:549-563 | nothing changes while the server is not running; otherwise periodic runs exactly when the counter is 0, and the counter steps through 0..20 |
| NetworkIns.NetworkIn.LimitConnectingClients | 0.56.b/network/network.cpp:1086-1107 | walking the live clients in slot order, the slots become `LimitConnecting` of the old slots |
| NetworkIns.NetworkIn.LimitStep | 0.56.b/network/network.cpp:1092-1101 | one client of the pass keeps the pass invariant one slot further on |
| NetworkIns.NetworkIn.LimitScan | 0.56.b/network/network.cpp:1090 | the scan to the next live client keeps the pass invariant; the slots it skips are unchanged |
| NetworkIns.LimitSlot | 0.56.b/network/network.cpp:1092-1101 | a connecting client is counted, and its slot is closed exactly when the limit had already been reached |
| NetworkOuts.Scheduled | 0.56.b/network/network.cpp:1263-1306 | scheduleOnce changes only the queues, and only by appending |
| NetworkOuts.Landing | 0.56.b/network/network.cpp:1276-1299 | the landing priority is at most the packet's own, its queue is not full, and every level skipped is full |
| NetworkOuts.ScheduledLands | 0.56.b/network/network.cpp:1263-1306 | a slot that is not valid is left unchanged; otherwise the packet is never dropped, and goes to the tail of the queue of its landing priority |
| NetworkOuts.ScheduledUncappedIsFifo | 0.56.b/network/network.cpp:1301-1305 | without NETWORK_MAXQUEUESIZE every packet joins the tail of its own queue |
| NetworkOuts.SentNow | 0.56.b/network/network.cpp:1538-1669 | sendPacketNow never removes anything from the queues |
| NetworkOuts.SentNowOutcome | 0.56.b/network/network.cpp:1538-1669 | it fails exactly on a socket error off Windows or a reset or aborted connection on Windows; the packet reaches the wire exactly when it was written or its asynchronous write is pending; only a Windows write that would block touches the queues |
| NetworkOuts.Routed | 0.56.b/network/network.cpp:1503-1522 | sendPacket never removes anything from the queues |
| NetworkOuts.RoutedThreeWays | 0.56.b/network/network.cpp:1503-1522 | a packet the slot cannot receive is refused and changes nothing; in async mode it joins the tail of the async queue and nothing is written; otherwise it reaches the wire exactly when onSend accepts it and the write succeeds, and the answer is false exactly when sendPacketNow fails |
| NetworkOuts.Popped | 0.56.b/network/network.cpp:1391-1394 | popping removes the front of that queue and changes no other queue |
| NetworkOuts.NextBound | 0.56.b/network/network.cpp:1401-1406 | after a dropped packet the bound grows by one or stays as it was |
| NetworkOuts.Handed | 0.56.b/network/network.cpp:1415-1418 | handing a packet to sendPacket never removes anything from a queue, and changes none when no write is re-queued |
| NetworkOuts.DrainCount | 0.56.b/network/network.cpp:1389-1408 | the loop hands at most as many packets to sendPacket as its bound allows |
| NetworkOuts.DrainLength | 0.56.b/network/network.cpp:1412-1428 | every packet handed on before the last keeps the running length within NETWORK_MAXPACKETLEN |
| NetworkOuts.DrainLeavesSuffix | 0.56.b/network/network.cpp:1389-1435 | with no write re-queued, the loop only pops the front of its queue |
| NetworkOuts.DrainFifo | 0.56.b/network/network.cpp:1389-1435 | with no write re-queued, the packets handed to sendPacket are taken from the popped front of the queue, in queue order |
| NetworkOuts.DrainKeepsOthers | 0.56.b/network/network.cpp:1389-1435 | with no write re-queued, the loop changes no other priority queue |
| NetworkOuts.DrainedBudget | 0.56.b/network/network.cpp:1365-1441 | as written or corrected, a pass hands on no more packets than the queue held and, for a non-negative limit, no more than NETWORK_MAXPACKETS, within the byte budget; with no write re-queued it pops in order, hands on a subsequence of what it popped, and leaves the other queues alone |
| NetworkOuts.DrainComplete | 0.56.b/network/network.cpp:1389-1435 | with the corrected bound and no write re-queued, the loop ends only once it has handed on as many packets as its bound has left, emptied its queue, or spent its byte budget; with a bound covering the whole queue only the byte budget keeps it from emptying it |
| NetworkOuts.DrainedComplete | 0.56.b/network/network.cpp:1365-1441 | with the corrected bound and no write re-queued, a dropped packet never costs a place: a pass ends only when it has handed on NETWORK_MAXPACKETS packets, emptied its queue, or gone over NETWORK_MAXPACKETLEN |
| NetworkOuts.DropCostsPlaceAsWritten | 0.56.b/network/network.cpp:1389-1406 | as written, with NETWORK_MAXPACKETS 2 and three queued packets of which onSend refuses the first, the pass hands on only the second and leaves the third queued, within the byte budget |
| NetworkOuts.DropKeepsPlaceCorrected | 0.56.b/network/network.cpp:1389-1406 | with the corrected bound the same queue hands on the second and the third packet and is left empty |
| NetworkOuts.NextBoundAsWrittenBelow | 0.56.b/network/network.cpp:1401-1406 | after a drop the bound as written is never above the corrected one, and is one below it exactly when the queue holds at most one packet beyond the iterations left |
| NetworkOuts.DrainAsWrittenPrefix | 0.56.b/network/network.cpp:1389-1436 | from the same state and a bound no larger, the loop as written hands to sendPacket a prefix of what the corrected loop hands on |
| NetworkOuts.DrainedAsWrittenPrefix | 0.56.b/network/network.cpp:1365-1441 | every proceedQueue pass as written hands on a prefix of what the corrected pass hands on |
| NetworkOuts.DrainsAgreeWithoutDrops | 0.56.b/network/network.cpp:1389-1436 | when no popped packet is dropped, the loop as written and the corrected loop give the same slot and the same packets |
| NetworkOuts.DrainedAgreeWithoutDrops | 0.56.b/network/network.cpp:1365-1441 | a proceedQueue pass that drops nothing is the same as written and corrected |
| NetworkOuts.DrainedFifo | 0.56.b/network/network.cpp:1365-1441 | with no write re-queued, a pass leaves a suffix of its queue and changes no other queue |
| NetworkOuts.AsyncPop | 0.56.b/network/network.cpp:1463-1480 | the packet found is the first one the slot can take and whose send trigger accepts it; what is left is the queue after it; all packets before it were dropped for failing one of the two tests |
| NetworkOuts.TwoSendsInFlightAsWritten | 0.56.b/network/network.cpp:1443-1501 | as written, two calls with no completion between them start two overlapped sends on one slot, and the in-flight flag is never raised |
| NetworkOuts.AsyncStepSendsOne | 0.56.b/network/network.cpp:1443-1492 | the corrected step puts at most one packet on the wire, and raises the flag when it starts a Windows send |
| NetworkOuts.AtMostOneSendInFlight | 0.56.b/network/network.cpp:1443-1501 | corrected, a slot with a send in flight is left alone, and two calls with no completion between them put at most one packet on the wire |
| NetworkOuts.CompletionReleasesFlag | 0.56.b/network/network.cpp:1494-1501 | completion lowers the flag before trying the next send, and until then nothing is sent |
| NetworkOuts.AsyncStepsAgreeButFlag | 0.56.b/network/network.cpp:1443-1492 | the corrected async step is the code's step except for the in-flight flag, which the code never changes and the corrected step raises only on Windows when it puts a packet on the wire |
| NetworkOuts.AsyncStepKeepsQueues | 0.56.b/network/network.cpp:1443-1492 | the async step never touches the priority queues |
| NetworkOuts.FlushedFromSuffix | 0.56.b/network/network.cpp:1310-1311 | with no write re-queued, the passes from one priority upwards leave every queue a suffix of what it held |
| NetworkOuts.FlushedSuffix | 0.56.b/network/network.cpp:1308-1314 | with no write re-queued, flush only pops: each queue afterwards is a suffix of what it held |
| NetworkOuts.Period | 0.56.b/network/network.cpp:1207-1247 | every priority's period is one of 1, 2, 4, 8 or 16 |
| NetworkOuts.TickPlanSingle | 0.56.b/network/network.cpp:1207-1225 | the single-threaded tick drains HIGHEST, HIGH and NORMAL, then LOW when the counter is odd and IDLE when it is 3 mod 4 |
| NetworkOuts.TickPlanServes | 0.56.b/network/network.cpp:1207-1247 | a tick drains exactly the priorities whose cadence test passes, each once, HIGHEST first |
| NetworkOuts.CountAsWrittenWraps | 0.56.b/network/network.cpp:1204-1205 | the signed char counter after n ticks is n wrapped into [-128, 127] |
| NetworkOuts.CharWrapNegative | 0.56.b/network/network.cpp:1204-1205 | on ticks 128 to 255 mod 256 the wrapped counter is negative |
| NetworkOuts.CountCorrectedIsModular | 0.56.b/network/network.cpp:1204-1205 | an unsigned counter after n ticks is n mod 256 |
| NetworkOuts.NegativeCountServesOnlyEveryTick | 0.56.b/network/network.cpp:1220-1246 | a negative counter passes no `iCount % k == k - 1` test, so only the every-tick levels are drained |
| NetworkOuts.ThrottledStarvedAsWritten | 0.56.b/network/network.cpp:1204-1246 | as written, on ticks 128 to 255 of every 256 no throttled priority is drained |
| NetworkOuts.SkippedTicksAsWritten | 0.56.b/network/network.cpp:1204-1225 | as written, tick 129 is odd yet LOW is skipped, and tick 255 is 3 mod 4 yet IDLE is skipped |
| NetworkOuts.CadenceCorrected | 0.56.b/network/network.cpp:1204-1247 | with an unsigned counter, tick n drains a priority exactly when n is one short of a multiple of its period |
| NetworkOuts.HigherServedWheneverLower | 0.56.b/network/network.cpp:1207-1247 | under either build a higher priority is drained whenever a lower one is, and HIGHEST on every tick |
| NetworkOuts.ProceededAll | 0.56.b/network/network.cpp:1355-1363 | proceedQueue(priority) services each slot independently: a live client's queue is drained, then its async queue, in slot order |
| NetworkOuts.TickedSkipsDeadSlots | 0.56.b/network/network.cpp:1355-1363 | a slot without a live client is left alone by every pass of a tick |
| NetworkOuts.TickedSnoc | 0.56.b/network/network.cpp:1207-1225 | running one more pass after a sequence of passes is running the longer sequence |
| NetworkOuts.NetworkOut.constructor | 0.56.b/network/network.cpp:1204 | the tick counter starts at 0 |
| NetworkOuts.NetworkOut.ScheduleOnce | 0.56.b/network/network.cpp:1263-1306 | the slot becomes `Scheduled` of the old slot |
| NetworkOuts.NetworkOut.SendPacketNow | 0.56.b/network/network.cpp:1538-1669 | the slot and the answer are `SentNow` of the old slot |
| NetworkOuts.NetworkOut.SendPacket | 0.56.b/network/network.cpp:1503-1522 | the slot and the answer are `Routed` of the old slot |
| NetworkOuts.NetworkOut.ProceedQueue | 0.56.b/network/network.cpp:1365-1441 | the slot becomes the `Drained` pass of the old slot, with the corrected bound |
| NetworkOuts.NetworkOut.ProceedOne | 0.56.b/network/network.cpp:1389-1435 | when one iteration stops, the slot is where the whole loop ends; otherwise the loop from the next iteration ends where it would have, and the iteration measure decreases |
| NetworkOuts.NetworkOut.ProceedQueueAsync | 0.56.b/network/network.cpp:1443-1492 | the slot becomes `AsyncStepCorrected` of the old slot |
| NetworkOuts.NetworkOut.OnAsyncSendComplete | 0.56.b/network/network.cpp:1494-1501 | the slot becomes `AsyncCompleted` of the old slot |
| NetworkOuts.NetworkOut.Flush | 0.56.b/network/network.cpp:1308-1314 | the slot becomes `Flushed` of the old slot |
| NetworkOuts.NetworkOut.ProceedQueueAll | 0.56.b/network/network.cpp:1355-1363 | the slots become `ProceededAll` of the old slots, and the slot objects stay the same |
| NetworkOuts.NetworkOut.ProceedStep | 0.56.b/network/network.cpp:1357-1362 | one client of the pass keeps the pass invariant up to the next live client |
| NetworkOuts.NetworkOut.Tick | 0.56.b/network/network.cpp:1197-1250 | nothing happens while the server is not running; otherwise the counter steps on modulo 256 and the slots go through the passes of `TickPlan` for the new counter, in plan order |
| NetworkOuts.NetworkOut.ServeQueues | 0.56.b/network/network.cpp:1207-1225 | the single-threaded passes for one counter value produce `Ticked` of the plan |
| NetworkOuts.NetworkOut.ServeIf | 0.56.b/network/network.cpp:1219-1225 | a throttled pass runs exactly when its cadence test holds, and is then recorded |
| NetworkOuts.NetworkOut.Serve | 0.56.b/network/network.cpp:1210-1217 | one pass is recorded after the passes already run |

## Left out

- Sockets and polling are not modelled: `Accept`, `Receive`, `Send`, `CLOSESOCKET`, `select` in `checkForData`, and the socket options. Reads arrive as byte sequences, and writes answer through `Transport`.
- Windows overlapped I/O and Linux event registration are not modelled: the completion callback `SendCompleted`, the `WSAOVERLAPPED` setup, and `g_NetworkEvent`. These are operating-system callbacks. A started overlapped write is only a flag on the slot.
- The `NETWORK_MULTITHREADED` build is not modelled: its locks, `m_isReady`, the holding queues and `pushHoldingQueues`. These exist for thread safety. Only its drain cadence is modelled (`Period` with `multithreaded`). `NetworkOut.Tick` models the single-threaded build.
- Packet dump logging (`xRecordPacket`) is not modelled. It is file I/O and text formatting.
- The handler construction in `onStart`, the roughly 110 `register*` calls, is not modelled. The packet classes are not part of this model. Handlers are reduced to a length function and a receive action.
- Decryption, encryption and compression are not modelled. They are foreign byte transforms. Bytes go to the dispatcher as given, and a packet's bytes reach the wire unchanged.
- Client hooks, script hooks and globals are parameters, not models: `OnRxWebPageRequest`, `OnRxPing`, `OnRxConsole`, `xProcessClientSetup`, `xPacketFilter`, `IsConnecting`, `f_onserver_blockip`, `g_Log`, `g_World`, `CServTime`. The server's own statistic is the object `ServerStats`.
- The exception handling around dispatch is not modelled: the catch block that counts `m_packetExceptions` and kicks the client. It is C++ exception control flow. Handlers here do not throw.
- The slot-array resize at the end of `periodic` is not modelled. When it grows, it copies the slot pointers but constructs no slots for the new indices. Its shrink loop runs from the old count up to a smaller maximum, so it never deletes anything. `NetworkIn.Periodic` keeps the slot array as it is.
- The frozen-connection timeout of `tick` is not modelled, nor the upkeep of `m_timeLastEvent` and `m_timeLastSend`. They depend on the clock and on fields of the client.
- The rest of `tick`'s receive loop is not modelled: the readiness test, `Receive`, closing on a failed read, decryption, and the call into dispatch. The model covers the classifier, the setup routing and the dispatch loop themselves.
- `CCrypt::GetVerFromVersion` is not part of this model. The new-seed packet's four version parts are kept as they were read.
- `m_sequence` and the crypt state are not fields of the slot. The network layer only resets them.
- The model reads both seed formats and the four version parts as big-endian 32-bit numbers. The layout of the new-seed packet is taken as opcode 0xEF followed by a seed and four version parts. network.h, which defines it, is not part of this model.
- The build constants from network.h are fields of `Config`: NETWORK_DISCONNECTPRI, NETWORK_MAXPACKETS, NETWORK_MAXPACKETLEN, NETWORK_MAXQUEUESIZE, NETHISTORY_TTL, NETHISTORY_MAXPINGS and NETWORK_PACKETCOUNT. network.h is not part of this model.
- NetStates.IsClientVersion, NetStates.IsClientKR: `isClientVersion` and `isClientKR` are defined in network.h, which is not part of this model. The model takes them as the client's version being at least the one asked for, and the client's type being KR.
- src/common/sphere_library/CSObjCont.h is not part of this model. It is a thin wrapper over a vector, and its mutators are defined elsewhere.
- A packet's send trigger is a function of the packet. `proceedQueue` and `sendPacketNow` each call it, and the model takes both calls to give the same answer.
- A write that sends fewer bytes than the packet holds still counts as a success, as the code treats it. The model does not track partial writes.
- The `packet == NULL` break in `proceedQueue` is not modelled. Queued packets are never null here.
- Warning and error logs are not modelled.
- NetworkOuts.NetworkOut.Tick: the counter is a field of the object rather than a function-local static, and it steps modulo 256. The code's signed char wraps to negative values instead (the third finding). Its passes also run the corrected async step and the corrected drain bound, as `NetworkOut.ProceedQueueAll` does.
- NetworkOuts.NetworkOut.ProceedQueueAsync: a started Windows send raises the in-flight flag, which the code never sets (the second finding). As written, a second call with a send pending starts another send, and the model's call does nothing. `NetworkOuts.AsyncStepsAgreeButFlag` states that this flag is the only difference in one call.
- NetworkOuts.NetworkOut.OnAsyncSendComplete: the step it runs after lowering the flag is the corrected async step of `ProceedQueueAsync`, not the code's.
- NetworkOuts.NetworkOut.Flush: its passes use the corrected drain bound (the fourth finding), and its async step is the corrected one. `NetworkOuts.Flushed` is defined the same way.
- NetworkOuts.NetworkOut.ProceedQueueAll: each live client gets the corrected drain pass and the corrected async step.
- NetworkOuts.ProceededAll: each live slot's step is `AsyncStepCorrected` after `Drained`, both corrected versions. `NetworkOuts.ProceededSlot` and `NetworkOuts.Ticked` are built on it.
- NetworkOuts.NetworkOut.ProceedQueue: a dropped packet's extra place is granted whenever the queue still holds a packet for it. The code grants it only when two packets more remain (the fourth finding). `NetworkOuts.DrainedAsWritten` is the pass as written.
- NetworkOuts.NetworkOut.ProceedOne: it raises the bound by the corrected test, as `ProceedQueue` does.
- Handshakes.ReceiveUnclassified: it applies the length-guarded `Classify`. After a lone 0xEF, an unseeded read of 4 to 19 bytes is a legacy seed here, while the code consumes 20 bytes (the first finding). `Handshakes.ClassifyAgreesAsWritten` states that this read is the only difference.
- Dispatch.Frame: a handler's claimed length that runs past the end of the buffer is cut to the bytes that remain. The code copies with `readByte`, whose behaviour past the end belongs to the packet class, which is not part of this model.
- Handshakes.SetupRoute: the length of a KR encryption reply is the parameter `encKrLen`. The code reads it from the reply's length field, whose layout is defined in a header that is not part of this model.
- NetworkOuts.DrainFifo: the FIFO properties of a pass are stated only when no write is re-queued. A Windows write that would block puts the packet back into a queue through `scheduleOnce`.
- NetworkOuts.DrainedComplete: stated only when no write is re-queued. A Windows write that would block goes back into a queue, and the pass may then end with that queue not empty.
- NetworkIns.LimitConnecting: its own contract states only that the slot count is kept. Which slots the pass closes is stated by `NetworkIns.LimitConnectingBound` and `NetworkIns.LimitSlot`.

## Findings

| source | as written | input that shows it | evidently intended | confidence | as-written member | corrected member |
|---|---|---|---|---|---|---|
| 0.56.b/network/network.cpp:633-674 | after a lone new-seed marker, the next read of 4 bytes or more is taken as the 20-byte continuation, whatever its length | an unseeded slot that has just seen the lone 0xEF reads 4 bytes `00 00 00 07`: 20 bytes are consumed, and the ping hook is called at offset 20 with a count of -16 | the continuation is taken only when at least 20 bytes arrived, as the unsplit packet is checked against its 21 | not executed | Handshakes.SplitSeedOverconsumesAsWritten | Handshakes.SplitSeedGuarded |
| 0.56.b/network/network.cpp:1443-1501 | `m_isSendingAsync` is only ever cleared, so the guard of `proceedQueueAsync` never stops a second overlapped send | a Windows async-mode slot with two queued packets, on a socket where every write stays pending: two calls with no completion between them put both packets in flight | a started overlapped send raises the flag, and the completion lowers it | not executed | NetworkOuts.TwoSendsInFlightAsWritten | NetworkOuts.AtMostOneSendInFlight |
| 0.56.b/network/network.cpp:1204-1225 | `static char iCount` wraps to -128 after 127, and C's `%` of a negative value is never positive | tick 129 is odd but the counter is -127, so LOW is skipped; tick 255 is 3 mod 4 but the counter is -1, so IDLE is skipped | the counter cycles through 0..255, so LOW runs on every odd tick and IDLE on every tick that is 3 mod 4 | not executed | NetworkOuts.SkippedTicksAsWritten | NetworkOuts.CadenceCorrected |
| 0.56.b/network/network.cpp:1401-1406 | the extra place for a dropped packet is granted only when `packets + 1 - i` is below the size of the queue after the pop, two more than the remaining iterations need | NETWORK_MAXPACKETS 2, three packets queued, onSend refusing the first: only the second is handed on and the third stays queued, with the byte budget not spent | a dropped packet does not count towards the limit, so its place goes to the next packet whenever the queue still holds one | not executed | NetworkOuts.DropCostsPlaceAsWritten | NetworkOuts.DrainedComplete |
