/**
 * NetworkIn: the table of connection slots, the per-address history, the handler
 * tables, and the bookkeeping of NetworkIn::tick, acceptConnection and periodic;
 * ClientIterator, which walks the slots that have a live client.
 */
module NetworkIns {
  import opened Wire
  import opened NetStates
  import opened Dispatch
  import opened History

  /** The first slot at or after `from` that is not valid, or the slot count if there is none. */
  function FirstFree(vs: seq<Slot>, from: nat): (k: nat)
    ensures k <= |vs|
    ensures k < |vs| ==> from <= k && !IsValid(vs[k])
    ensures forall j :: from <= j < k ==> IsValid(vs[j])
    decreases |vs| - from
  {
    if from >= |vs| then |vs|
    else if !IsValid(vs[from]) then from
    else FirstFree(vs, from + 1)
  }

  /** Where getStateSlot starts: right after the last slot it handed out, by default. */
  function SlotSearchStart(lastGivenSlot: int, startFrom: int): int
  {
    if startFrom == -1 then lastGivenSlot + 1 else startFrom
  }

  /** getStateSlot(startFrom): a free slot from the start onwards, else one from 0, else -1. */
  function StateSlot(vs: seq<Slot>, lastGivenSlot: int, startFrom: int): int
    requires lastGivenSlot >= -1 && startFrom >= -1
  {
    var start := SlotSearchStart(lastGivenSlot, startFrom);
    var k := FirstFree(vs, start);
    if k < |vs| then k
    else if start > 0 then (if FirstFree(vs, 0) < |vs| then FirstFree(vs, 0) else -1)
    else -1
  }

  /**
   * getStateSlot answers -1 only when every slot is valid. Otherwise it answers a slot that
   * is not valid: the first one at or after the start if there is one, else the first one.
   */
  lemma StateSlotRoundRobin(vs: seq<Slot>, lastGivenSlot: int, startFrom: int)
    requires lastGivenSlot >= -1 && startFrom >= -1
    ensures var r := StateSlot(vs, lastGivenSlot, startFrom);
      var start := SlotSearchStart(lastGivenSlot, startFrom);
      (r == -1 <==> forall j :: 0 <= j < |vs| ==> IsValid(vs[j])) &&
      (r != -1 ==> 0 <= r < |vs| && !IsValid(vs[r]) &&
                   ((exists j :: start <= j < |vs| && !IsValid(vs[j])) ==>
                      start <= r && forall j :: start <= j < r ==> IsValid(vs[j])) &&
                   ((forall j :: start <= j < |vs| ==> IsValid(vs[j])) ==>
                      forall j :: 0 <= j < r ==> IsValid(vs[j])))
  {
    var start := SlotSearchStart(lastGivenSlot, startFrom);
    var k := FirstFree(vs, start);
    if k == |vs| && start > 0 {
      var k0 := FirstFree(vs, 0);
      if k0 == |vs| {
        assert forall j :: 0 <= j < |vs| ==> IsValid(vs[j]);
      }
    }
  }

  /** The slot has a live client whose CClient::IsConnecting answers true. */
  predicate Connecting(s: Slot, isConnecting: ClientId -> bool)
  {
    HasLiveClient(s) && isConnecting(s.client.value.id)
  }

  /** How many slots have a live, connecting client. */
  function CountConnecting(vs: seq<Slot>, isConnecting: ClientId -> bool): nat
  {
    if vs == [] then 0
    else CountConnecting(vs[..|vs| - 1], isConnecting) +
         (if Connecting(vs[|vs| - 1], isConnecting) then 1 else 0)
  }

  /**
   * The connecting-limit pass of periodic: in slot order, every connecting client after the
   * first `connectingMax` has its slot marked closed.
   */
  function LimitConnecting(vs: seq<Slot>, isConnecting: ClientId -> bool, connectingMax: int): (r: seq<Slot>)
    ensures |r| == |vs|
  {
    seq(|vs|, k requires 0 <= k < |vs| => LimitedSlot(vs, k, isConnecting, connectingMax))
  }

  /** Slot `k` after the pass: closed when it is connecting and the limit is already reached. */
  function LimitedSlot(vs: seq<Slot>, k: nat, isConnecting: ClientId -> bool, connectingMax: int): Slot
    requires k < |vs|
  {
    if Connecting(vs[k], isConnecting) && CountConnecting(vs[..k], isConnecting) >= connectingMax
    then MarkedClosed(vs[k]) else vs[k]
  }

  lemma LimitConnectingPrefix(vs: seq<Slot>, isConnecting: ClientId -> bool, connectingMax: int, n: nat)
    requires n <= |vs|
    ensures LimitConnecting(vs, isConnecting, connectingMax)[..n] == LimitConnecting(vs[..n], isConnecting, connectingMax)
  {
    var a := LimitConnecting(vs, isConnecting, connectingMax)[..n];
    var b := LimitConnecting(vs[..n], isConnecting, connectingMax);
    forall k | 0 <= k < n
      ensures a[k] == b[k]
    {
      assert vs[..n][..k] == vs[..k];
    }
  }

  /**
   * After the pass at most `connectingMax` slots still have a live connecting client: as many
   * as before when that is within the limit, and exactly the limit otherwise.
   */
  lemma {:induction false} LimitConnectingBound(vs: seq<Slot>, isConnecting: ClientId -> bool, connectingMax: int)
    requires connectingMax > 0
    ensures var n := CountConnecting(vs, isConnecting);
      CountConnecting(LimitConnecting(vs, isConnecting, connectingMax), isConnecting) ==
        if n <= connectingMax then n else connectingMax
    decreases |vs|
  {
    if vs != [] {
      var m := |vs| - 1;
      var r := LimitConnecting(vs, isConnecting, connectingMax);
      LimitConnectingPrefix(vs, isConnecting, connectingMax, m);
      assert vs[..m][..m] == vs[..m];
      LimitConnectingBound(vs[..m], isConnecting, connectingMax);
      assert r[..m] == r[..|r| - 1];
    }
  }

  function Min(a: int, b: int): int
  {
    if a < b then a else b
  }

  lemma CountConnectingSnoc(vs: seq<Slot>, isConnecting: ClientId -> bool, k: nat)
    requires k < |vs|
    ensures CountConnecting(vs[..k + 1], isConnecting) ==
            CountConnecting(vs[..k], isConnecting) + if Connecting(vs[k], isConnecting) then 1 else 0
  {
    assert vs[..k + 1][..k] == vs[..k];
  }

  /** Slots without a live client add nothing to the count of connecting clients. */
  lemma {:induction false} CountConnectingGap(vs: seq<Slot>, isConnecting: ClientId -> bool, a: int, b: int)
    requires 0 <= a <= b <= |vs|
    requires forall j :: a <= j < b ==> !HasLiveClient(vs[j])
    ensures CountConnecting(vs[..b], isConnecting) == CountConnecting(vs[..a], isConnecting)
    decreases b - a
  {
    if a < b {
      assert vs[..b][..b - 1] == vs[..b - 1];
      CountConnectingGap(vs, isConnecting, a, b - 1);
    }
  }

  /** ClientIterator: yields the clients of live slots in ascending slot order. */
  class ClientIterator {
    var id: int
    const network: NetworkIn
    const max: int

    /** ClientIterator(network): positioned before the first slot. */
    constructor (network: NetworkIn)
      ensures this.network == network && id == -1 && max == |network.states|
    {
      id := -1;
      this.network := network;
      max := |network.states|;
    }

    /** ClientIterator::next: the client of the next slot with a live client, or NULL. */
    method Next() returns (c: Option<ClientId>)
      requires -1 <= id && max <= |network.states|
      modifies this
      ensures old(id) < id && (id >= max ==> id == if old(id) + 1 >= max then old(id) + 1 else max)
      ensures forall j :: old(id) < j < id && j < max ==> !HasLiveClient(network.states[j].View())
      ensures id < max ==> HasLiveClient(network.states[id].View()) &&
                           c == Some(network.states[id].client.value.id)
      ensures id >= max ==> c == None
    {
      id, c := network.NextClient(id, max);
    }
  }

  /** The values of the slots, in slot order. */
  function ViewsOf(states: seq<NetState>): (vs: seq<Slot>)
    reads states
    ensures |vs| == |states| && forall k :: 0 <= k < |states| ==> vs[k] == states[k].View()
  {
    seq(|states|, k reads states requires 0 <= k < |states| => states[k].View())
  }

  /** periodic runs on the ticks where the counter of NetworkIn::tick is 0. */
  predicate PeriodicDue(counter: int)
  {
    counter == 0
  }

  /** The counter of NetworkIn::tick after one tick. */
  function NextPeriodicCounter(counter: int): int
  {
    if counter + 1 > 20 then 0 else counter + 1
  }

  /** The counter after `n` ticks from `counter`. */
  function PeriodicCounterAfter(counter: int, n: nat): int
  {
    if n == 0 then counter else NextPeriodicCounter(PeriodicCounterAfter(counter, n - 1))
  }

  /**
   * From a fresh start the counter after `n` ticks is `n` modulo 21, so periodic runs on
   * the first tick and then on every 21st tick, and on no other.
   */
  lemma {:induction false} PeriodicEvery21Ticks(n: nat)
    ensures PeriodicCounterAfter(0, n) == n % 21
    ensures PeriodicDue(PeriodicCounterAfter(0, n)) <==> n % 21 == 0
  {
    if n > 0 {
      PeriodicEvery21Ticks(n - 1);
    }
  }

  /** What acceptConnection did with an incoming connection. */
  datatype AcceptOutcome =
    | NoSocket          // accept gave no valid socket
    | Refused           // the address history rejected it; the socket is closed
    | NoSlot            // no free slot; the socket is closed
    | Accepted(slot: nat)

  class NetworkIn {
    var states: seq<NetState>     // m_states, m_stateCount of them
    var lastGivenSlot: int        // m_lastGivenSlot
    var ips: seq<HistoryIP>       // m_ips
    var handlers: Table           // m_handlers
    var extended: Table           // m_extended
    var encoded: Table            // m_encoded
    var periodicCounter: int      // iPeriodic of NetworkIn::tick

    /**
     * Each slot knows its own index, so the slots are distinct objects, the search
     * position is a slot index or -1, and the history has one entry per address.
     */
    ghost predicate Valid()
      reads this
    {
      (forall i :: 0 <= i < |states| ==> states[i].id == i) &&
      lastGivenSlot >= -1 && UniqueKeys(ips)
    }

    /** NetworkIn() followed by onStart: empty tables and `clientsMax` unused slots. */
    constructor (clientsMax: nat)
      ensures Valid() && fresh(states) && lastGivenSlot == -1 && ips == []
      ensures handlers == map[] && extended == map[] && encoded == map[] && periodicCounter == 0
      ensures ViewsOf(states) == seq(clientsMax, _ => Unused)
    {
      lastGivenSlot := -1;
      ips := [];
      handlers, extended, encoded := map[], map[], map[];
      periodicCounter := 0;
      var made: seq<NetState> := [];
      var l := 0;
      while l < clientsMax
        invariant 0 <= l <= clientsMax && |made| == l
        invariant forall k :: 0 <= k < l ==> fresh(made[k]) && made[k].View() == Unused && made[k].id == k
      {
        var state := new NetState(l);
        made := made + [state];
        l := l + 1;
      }
      states := made;
    }

    /**
     * The scan of ClientIterator::next from slot `from`: the first later slot below `max`
     * that has a live client, with its client, or the end of the scan and NULL; the slots
     * skipped have no live client.
     */
    method NextClient(from: int, max: int) returns (id: int, c: Option<ClientId>)
      requires -1 <= from && max <= |states|
      ensures from < id && (id >= max ==> id == if from + 1 >= max then from + 1 else max)
      ensures forall j :: from < j < id && j < max ==> !HasLiveClient(states[j].View())
      ensures id < max ==> HasLiveClient(states[id].View()) && c == Some(states[id].client.value.id)
      ensures id >= max ==> c == None
    {
      id := from + 1;
      while id < max
        invariant 0 <= id && from < id && (id <= max || id == from + 1)
        invariant forall j :: from < j < id && j < max ==> !HasLiveClient(states[j].View())
        decreases max - id
      {
        var state := states[id];
        if IsValid(state.View()) && state.client.Some? &&
           IsValidFor(state.View(), state.client.value.id) {
          return id, Some(state.client.value.id);
        }
        id := id + 1;
      }
      return id, None;
    }

    method RegisterPacket(packetId: int, handler: Handler, packetCount: int)
      modifies this
      ensures handlers == Registered(old(handlers), packetId, handler, packetCount)
      ensures unchanged(this`states, this`extended, this`encoded, this`ips, this`lastGivenSlot)
    {
      if 0 <= packetId < packetCount {
        handlers := handlers[packetId := handler];
      }
    }

    method RegisterExtended(packetId: int, handler: Handler, packetCount: int)
      modifies this
      ensures extended == Registered(old(extended), packetId, handler, packetCount)
      ensures unchanged(this`states, this`handlers, this`encoded, this`ips, this`lastGivenSlot)
    {
      if 0 <= packetId < packetCount {
        extended := extended[packetId := handler];
      }
    }

    method RegisterEncoded(packetId: int, handler: Handler, packetCount: int)
      modifies this
      ensures encoded == Registered(old(encoded), packetId, handler, packetCount)
      ensures unchanged(this`states, this`handlers, this`extended, this`ips, this`lastGivenSlot)
    {
      if 0 <= packetId < packetCount {
        encoded := encoded[packetId := handler];
      }
    }

    /** getStateSlot(startFrom): the loop over the slots, then one rescan from 0. */
    method GetStateSlot(startFrom: int) returns (r: int)
      requires Valid() && startFrom >= -1
      modifies this
      ensures r == StateSlot(old(ViewsOf(states)), old(lastGivenSlot), startFrom)
      ensures lastGivenSlot == if r == -1 then old(lastGivenSlot) else r
      ensures Valid() && states == old(states) && ips == old(ips) && handlers == old(handlers)
      ensures extended == old(extended) && encoded == old(encoded) && periodicCounter == old(periodicCounter)
      decreases if startFrom == 0 then 0 else 1
    {
      var start := SlotSearchStart(lastGivenSlot, startFrom);
      var l := start;
      while l < |states|
        invariant start <= l
        invariant FirstFree(ViewsOf(states), start) == FirstFree(ViewsOf(states), l)
        decreases |states| - l
      {
        if !IsValid(states[l].View()) {
          lastGivenSlot := l;
          return l;
        }
        l := l + 1;
      }
      if start > 0 {
        r := GetStateSlot(0);
        return;
      }
      return -1;
    }

    /** getHistoryForIP(ip): the entry for the address, appended first if there is none. */
    method GetHistoryForIP(ip: Addr, historyTtl: int) returns (k: nat)
      modifies this
      ensures ips == WithHistory(old(ips), ip, historyTtl) && k == IndexOf(ips, ip) && k < |ips|
      ensures states == old(states) && lastGivenSlot == old(lastGivenSlot) && handlers == old(handlers)
      ensures extended == old(extended) && encoded == old(encoded) && periodicCounter == old(periodicCounter)
    {
      var i := 0;
      while i < |ips|
        invariant 0 <= i <= |ips| && IndexOf(ips, ip) >= i
      {
        if ips[i].ip == ip {
          return i;
        }
        i := i + 1;
      }
      ips := ips + [Fresh(ip, historyTtl)];
      k := |ips| - 1;
    }

    /** The history step of acceptConnection: find or add the entry, ping it, and judge it. */
    method CheckAddress(addr: Addr, cfg: Config) returns (rejected: bool)
      modifies this
      ensures (ips, rejected) == Admission(old(ips), addr, cfg)
      ensures UniqueKeys(old(ips)) ==> UniqueKeys(ips)
      ensures states == old(states) && lastGivenSlot == old(lastGivenSlot) && handlers == old(handlers)
      ensures extended == old(extended) && encoded == old(encoded) && periodicCounter == old(periodicCounter)
    {
      var k := GetHistoryForIP(addr, cfg.historyTtl);
      var ping := CheckPing(ips[k], cfg.historyTtl, cfg.historyMaxPings);
      ips := ips[k := ping.0];
      rejected := Rejected(ping.1, ping.0, cfg.connectingMaxIp, cfg.clientsMaxIp);
      if UniqueKeys(old(ips)) {
        AdmissionKeepsKeysUnique(old(ips), addr, cfg);
      }
    }

    /** The slot step of acceptConnection: getStateSlot, then init on the slot it hands out. */
    method OpenSlot(h: SocketHandle, addr: Addr, c: ClientId, cfg: Config, stats: ServerStats)
      returns (o: AcceptOutcome)
      requires Valid()
      modifies this, states, stats
      ensures Valid() && states == old(states) && ips == old(ips) && handlers == old(handlers)
      ensures extended == old(extended) && encoded == old(encoded) && periodicCounter == old(periodicCounter)
      ensures var slot := StateSlot(old(ViewsOf(states)), old(lastGivenSlot), -1);
        stats.clients == old(stats.clients) + if slot == -1 then 0 else ClearStatDelta(old(ViewsOf(states))[slot]) + 1
      ensures var slot := StateSlot(old(ViewsOf(states)), old(lastGivenSlot), -1);
        (slot == -1 ==> o == NoSlot && ViewsOf(states) == old(ViewsOf(states)) && lastGivenSlot == old(lastGivenSlot)) &&
        (slot != -1 ==> (o == Accepted(slot) && 0 <= slot < |states| && lastGivenSlot == slot &&
           ViewsOf(states) == old(ViewsOf(states))[slot := Opened(old(ViewsOf(states))[slot], h, addr, c, cfg.useAsyncNetwork)]))
    {
      var slot := GetStateSlot(-1);
      if slot == -1 {
        return NoSlot;
      }
      StateSlotRoundRobin(old(ViewsOf(states)), old(lastGivenSlot), -1);
      states[slot].Init(h, addr, c, cfg.useAsyncNetwork, stats);
      o := Accepted(slot);
    }

    /**
     * acceptConnection for an accepted socket `h` from `addr`, with `c` the client a new
     * slot gets: a connection that passes admission takes the slot getStateSlot hands out.
     */
    method AcceptConnection(h: Option<SocketHandle>, addr: Addr, c: ClientId, cfg: Config, stats: ServerStats)
      returns (o: AcceptOutcome)
      requires Valid()
      modifies this, states, stats
      ensures Valid() && states == old(states) && handlers == old(handlers)
      ensures extended == old(extended) && encoded == old(encoded) && periodicCounter == old(periodicCounter)
      ensures h.None? ==> o == NoSocket && ips == old(ips) && ViewsOf(states) == old(ViewsOf(states)) &&
                          lastGivenSlot == old(lastGivenSlot) && stats.clients == old(stats.clients)
      ensures h.Some? ==> ips == Admission(old(ips), addr, cfg).0
      ensures h.Some? && Admission(old(ips), addr, cfg).1 ==>
                o == Refused && ViewsOf(states) == old(ViewsOf(states)) && lastGivenSlot == old(lastGivenSlot) &&
                stats.clients == old(stats.clients)
      ensures h.Some? && !Admission(old(ips), addr, cfg).1 ==>
                var slot := StateSlot(old(ViewsOf(states)), old(lastGivenSlot), -1);
                stats.clients == old(stats.clients) + if slot == -1 then 0 else ClearStatDelta(old(ViewsOf(states))[slot]) + 1
      ensures h.Some? && !Admission(old(ips), addr, cfg).1 ==>
                var slot := StateSlot(old(ViewsOf(states)), old(lastGivenSlot), -1);
                (slot == -1 ==> o == NoSlot && ViewsOf(states) == old(ViewsOf(states)) && lastGivenSlot == old(lastGivenSlot)) &&
                (slot != -1 ==> (o == Accepted(slot) && 0 <= slot < |states| && lastGivenSlot == slot &&
                   ViewsOf(states) == old(ViewsOf(states))[slot := Opened(old(ViewsOf(states))[slot], h.value, addr, c, cfg.useAsyncNetwork)]))
    {
      if h.None? {
        return NoSocket;
      }
      var rejected := CheckAddress(addr, cfg);
      if rejected {
        return Refused;
      }
      o := OpenSlot(h.value, addr, c, cfg, stats);
    }

    /** The decay pass of periodic: each entry of the history in turn, in place. */
    method DecayHistory(now: int)
      modifies this
      ensures ips == DecayedAll(old(ips), now)
      ensures states == old(states) && lastGivenSlot == old(lastGivenSlot) && handlers == old(handlers)
      ensures extended == old(extended) && encoded == old(encoded) && periodicCounter == old(periodicCounter)
    {
      var i := 0;
      while i < |ips|
        invariant 0 <= i <= |ips| == |old(ips)|
        invariant forall j :: 0 <= j < i ==> ips[j] == Decayed(old(ips)[j], now)
        invariant forall j :: i <= j < |ips| ==> ips[j] == old(ips)[j]
        invariant states == old(states) && lastGivenSlot == old(lastGivenSlot) && handlers == old(handlers)
        invariant extended == old(extended) && encoded == old(encoded) && periodicCounter == old(periodicCounter)
      {
        var ip := ips[i];
        if ip.blocked {
          if ip.blockExpire.Some? && now > ip.blockExpire.value {
            ip := SetBlocked(ip, false, -1, t => t, now);
          }
        } else {
          ip := ip.(ttl := ip.ttl - 1);
          if ip.pings > 0 && ip.ttl < 0 {
            ip := ip.(pings := ip.pings - 1);
          }
        }
        ips := ips[i := ip];
        i := i + 1;
      }
    }

    /** The purge of periodic: erases the first entry whose ttl has run out, if any. */
    method PurgeHistory()
      modifies this
      ensures ips == Purged(old(ips))
      ensures states == old(states) && lastGivenSlot == old(lastGivenSlot) && handlers == old(handlers)
      ensures extended == old(extended) && encoded == old(encoded) && periodicCounter == old(periodicCounter)
    {
      var i := 0;
      while i < |ips|
        invariant 0 <= i <= FirstExpired(ips)
      {
        if ips[i].ttl < 0 {
          ips := ips[..i] + ips[i + 1..];
          return;
        }
        i := i + 1;
      }
    }

    /**
     * NetworkIn::periodic without the resize: the connecting-limit pass when a positive
     * limit is configured, then the decay pass and the purge of the history.
     */
    method Periodic(isConnecting: ClientId -> bool, connectingMax: int, now: int)
      requires Valid()
      modifies this, states
      ensures Valid() && states == old(states) && lastGivenSlot == old(lastGivenSlot)
      ensures ViewsOf(states) == if connectingMax > 0
                                 then LimitConnecting(old(ViewsOf(states)), isConnecting, connectingMax)
                                 else old(ViewsOf(states))
      ensures ips == Purged(DecayedAll(old(ips), now))
      ensures handlers == old(handlers) && extended == old(extended) && encoded == old(encoded)
      ensures periodicCounter == old(periodicCounter)
    {
      if connectingMax > 0 {
        LimitConnectingClients(isConnecting, connectingMax);
      }
      DecayHistory(now);
      PurgeHistory();
      PeriodicKeepsKeysUnique(old(ips), now);
    }

    /**
     * The periodic part of NetworkIn::tick: nothing while the server is not running (the
     * exit flag is set or the mode is not SERVMODE_Run); otherwise periodic runs when the
     * counter is 0, and the counter then steps through 0..20.
     */
    method TickPeriodic(running: bool, isConnecting: ClientId -> bool, connectingMax: int, now: int)
      requires Valid()
      modifies this, states
      ensures Valid() && states == old(states) && lastGivenSlot == old(lastGivenSlot)
      ensures !running ==> periodicCounter == old(periodicCounter) && ips == old(ips) &&
                           ViewsOf(states) == old(ViewsOf(states))
      ensures running ==> periodicCounter == NextPeriodicCounter(old(periodicCounter))
      ensures running && PeriodicDue(old(periodicCounter)) ==>
                (ips == Purged(DecayedAll(old(ips), now)) &&
                 ViewsOf(states) == if connectingMax > 0
                                    then LimitConnecting(old(ViewsOf(states)), isConnecting, connectingMax)
                                    else old(ViewsOf(states)))
      ensures running && !PeriodicDue(old(periodicCounter)) ==> ips == old(ips) && ViewsOf(states) == old(ViewsOf(states))
      ensures handlers == old(handlers) && extended == old(extended) && encoded == old(encoded)
    {
      if !running {
        return;
      }
      if periodicCounter == 0 {
        Periodic(isConnecting, connectingMax, now);
      }
      periodicCounter := periodicCounter + 1;
      if periodicCounter > 20 {
        periodicCounter := 0;
      }
    }

    /**
     * The slots before `k` are as the connecting-limit pass leaves them, the others are
     * untouched, and `connecting` counts the connecting clients before `k`: `vs` holds the
     * slots before the pass.
     */
    ghost predicate LimitedBefore(vs: seq<Slot>, k: int, connecting: int, isConnecting: ClientId -> bool,
                                  connectingMax: int)
      reads this, states
    {
      Valid() && |vs| == |states| && 0 <= k &&
      (forall j :: k <= j < |states| ==> states[j].View() == vs[j]) &&
      (forall j :: 0 <= j < k && j < |states| ==>
         states[j].View() == LimitedSlot(vs, j, isConnecting, connectingMax)) &&
      connecting == CountConnecting(vs[..Min(k, |vs|)], isConnecting)
    }

    /** The invariant of the pass at slot `id`, where `c` is the live client found there, if any. */
    ghost predicate Limiting(vs: seq<Slot>, id: int, c: Option<ClientId>, connecting: int,
                             isConnecting: ClientId -> bool, connectingMax: int)
      reads this, states
    {
      LimitedBefore(vs, id, connecting, isConnecting, connectingMax) &&
      (c.Some? ==> id < |states| && HasLiveClient(vs[id]) && c.value == vs[id].client.value.id) &&
      (c.None? ==> id >= |states|)
    }

    /** The connecting-limit pass of periodic, walking the live clients in slot order. */
    method LimitConnectingClients(isConnecting: ClientId -> bool, connectingMax: int)
      requires Valid() && connectingMax > 0
      modifies states
      ensures ViewsOf(states) == LimitConnecting(old(ViewsOf(states)), isConnecting, connectingMax)
    {
      ghost var vs := ViewsOf(states);
      var connecting := 0;
      assert vs[..0] == [];
      var id, c := LimitScan(vs, -1, connecting, isConnecting, connectingMax);
      while c.Some?
        invariant states == old(states)
        invariant Limiting(vs, id, c, connecting, isConnecting, connectingMax)
        decreases |states| - id
      {
        connecting := LimitStep(vs, id, c, connecting, isConnecting, connectingMax);
        id, c := LimitScan(vs, id, connecting, isConnecting, connectingMax);
      }
    }

    /** One client of the pass. */
    method LimitStep(ghost vs: seq<Slot>, id: int, c: Option<ClientId>, connecting: int,
                     isConnecting: ClientId -> bool, connectingMax: int)
      returns (connecting': int)
      requires c.Some? && Limiting(vs, id, c, connecting, isConnecting, connectingMax)
      modifies states
      ensures LimitedBefore(vs, id + 1, connecting', isConnecting, connectingMax)
    {
      CountConnectingSnoc(vs, isConnecting, id);
      assert Min(id, |vs|) == id;
      connecting' := LimitSlot(states[id], c.value, connecting, isConnecting, connectingMax);
      assert forall j :: 0 <= j < |states| && j != id ==> states[j].View() == old(states[j].View()) by {
        forall j | 0 <= j < |states| && j != id
          ensures states[j].View() == old(states[j].View())
        {
          assert old(states[j].id) == j;
        }
      }
    }

    /** The scan from slot `from` to the next live client: the slots it skips stay as they are. */
    method LimitScan(ghost vs: seq<Slot>, from: int, connecting: int, isConnecting: ClientId -> bool,
                     connectingMax: int) returns (id: int, c: Option<ClientId>)
      requires -1 <= from && LimitedBefore(vs, from + 1, connecting, isConnecting, connectingMax)
      ensures from < id && Limiting(vs, id, c, connecting, isConnecting, connectingMax)
    {
      id, c := NextClient(from, |states|);
      CountConnectingGap(vs, isConnecting, Min(from + 1, |vs|), Min(id, |vs|));
      forall j | 0 <= j < id && j < |states|
        ensures states[j].View() == LimitedSlot(vs, j, isConnecting, connectingMax)
      {
        if from < j {
          assert !HasLiveClient(vs[j]);
        }
      }
    }
  }

  /**
   * One client of the connecting-limit pass: a connecting client is counted, and its slot is
   * closed once the count goes over the limit.
   */
  method LimitSlot(state: NetState, c: ClientId, connecting: int, isConnecting: ClientId -> bool,
                   connectingMax: int) returns (counted: int)
    requires HasLiveClient(state.View()) && c == state.client.value.id
    modifies state
    ensures counted == connecting + (if Connecting(old(state.View()), isConnecting) then 1 else 0)
    ensures state.View() == if Connecting(old(state.View()), isConnecting) && connecting >= connectingMax
                            then MarkedClosed(old(state.View())) else old(state.View())
  {
    counted := connecting;
    if isConnecting(c) {
      counted := counted + 1;
      if counted > connectingMax {
        state.MarkClosed();
      }
    }
  }
}
