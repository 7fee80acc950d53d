/**
 * One connection slot (NetState): its socket, its client, the handshake
 * fields and the five priority queues plus the asynchronous queue.
 *
 * `Slot` is the value of a slot at one moment; the predicates below are
 * NetState's queries stated on that value, and the class `NetState` holds
 * the same fields and updates them in place.
 */
module NetStates {
  import opened Wire

  type SocketHandle = nat

  datatype Slot = Slot(
    peer: Addr,                     // m_peerAddress
    socket: Option<SocketHandle>,   // None when m_socket is not open
    closed: bool,                   // m_isClosed
    client: Option<ClientRec>,      // m_client, None for NULL
    queues: Queues,                 // m_queue[PRI_QTY]
    async: AsyncState,              // the asynchronous sending state
    hs: Handshake,                  // the handshake fields
    packetExceptions: nat,          // m_packetExceptions
    wire: seq<Packet>               // packets the socket has accepted, in order
  )

  /** The part of the slot's CClient that the network layer reads and sets. */
  datatype ClientRec = ClientRec(id: ClientId, connectType: ConnectType)

  /** Asynchronous sending: whether the slot uses it, its queue, and whether a send is in flight. */
  datatype AsyncState = AsyncState(
    enabled: bool,                  // m_useAsync, what isAsyncMode() answers
    queue: seq<Packet>,             // m_asyncQueue
    sending: bool                   // m_isSendingAsync
  )

  const NoAsync := AsyncState(false, [], false)

  /** The fields the first payloads of a connection set: seed, versions and client kind. */
  datatype Handshake = Handshake(
    seeded: bool,                   // m_seeded
    newseed: bool,                  // m_newseed: the new-seed marker has been seen
    seed: nat,                      // m_seed
    clientVersion: nat,             // m_clientVersion
    reportedVersion: VersionQuad,   // m_reportedVersion
    clientType: ClientType          // m_clientType
  )

  /** The handshake fields as clear leaves them. */
  const NoHandshake := Handshake(false, false, 0, 0, NoVersion, TwoD)

  /** The state of a slot that has never been used. */
  const Unused := Slot(0, None, true, None, EmptyQueues, NoAsync, NoHandshake, 0, [])

  /** NetState::isValid(NULL). */
  predicate IsValid(s: Slot)
  {
    s.socket.Some? && !s.closed
  }

  /** NetState::isValid(client) for a non-NULL client. */
  predicate IsValidFor(s: Slot, c: ClientId)
  {
    s.socket.Some? && s.client.Some? && s.client.value.id == c
  }

  /** The test ClientIterator::next applies before it yields a slot's client. */
  predicate HasLiveClient(s: Slot)
  {
    IsValid(s) && s.client.Some? && IsValidFor(s, s.client.value.id)
  }

  /**
   * NetState::canReceive for a packet whose target is this slot: the socket is open,
   * a closed slot only takes packets at or above the disconnect priority, and the
   * slot still has its client.
   */
  predicate CanReceive(s: Slot, p: Packet, disconnectPri: Priority)
  {
    s.socket.Some? && !(s.closed && p.priority < disconnectPri) && s.client.Some?
  }

  /** The lowest queue hasPendingData looks at. */
  function PendingFloor(s: Slot, disconnectPri: Priority): Priority
  {
    if s.closed then disconnectPri else PriIdle
  }

  /**
   * What NetState::hasPendingData answers: the socket is open and some queue at or
   * above the floor is non-empty, or the slot is in async mode with queued data.
   */
  ghost predicate PendingData(s: Slot, disconnectPri: Priority)
  {
    s.socket.Some? &&
    ((exists i :: PendingFloor(s, disconnectPri) <= i < PriQty && s.queues[i] != []) ||
     (s.async.enabled && s.async.queue != []))
  }

  predicate IsClientVersion(s: Slot, version: nat)
  {
    s.hs.clientVersion >= version
  }

  predicate IsClientKR(s: Slot)
  {
    s.hs.clientType == KR
  }

  /** The client version from which the version-gated async mode applies (4.0.0). */
  const AsyncMinVersion: nat := 0x400000

  /**
   * The case table of NetState::setAsyncMode: off when the option is off, on when the
   * option is on without version gating, and otherwise off for web clients and on only
   * for clients from 4.0.0 or KR clients.
   */
  function AsyncDecision(useAsyncNetwork: int, isHttp: bool, versionOk: bool, isKR: bool): (r: bool)
    ensures useAsyncNetwork == 0 ==> !r
    ensures useAsyncNetwork != 0 && useAsyncNetwork != 2 ==> r
    ensures useAsyncNetwork == 2 ==> (r <==> !isHttp && (versionOk || isKR))
  {
    if useAsyncNetwork == 0 then false
    else if useAsyncNetwork != 2 then true
    else if isHttp then false
    else versionOk || isKR
  }

  /** setAsyncMode applied to a slot. */
  function WithAsyncMode(s: Slot, useAsyncNetwork: int): Slot
  {
    var enabled := AsyncDecision(useAsyncNetwork, s.client.Some? && s.client.value.connectType == Http,
                                 IsClientVersion(s, AsyncMinVersion), IsClientKR(s));
    s.(async := s.async.(enabled := enabled))
  }

  /** The slot after NetState::clear: everything but the peer address and the wire is reset. */
  function Cleared(s: Slot): Slot
  {
    s.(socket := None, closed := true, client := None, queues := EmptyQueues, async := NoAsync,
       hs := NoHandshake, packetExceptions := 0)
  }

  /** How much NetState::clear changes the connected-clients statistic. */
  function ClearStatDelta(s: Slot): int
  {
    if s.client.Some? then -1 else 0
  }

  /** The slot after NetState::init(socket, addr), with `c` the CClient it creates. */
  function Opened(s: Slot, h: SocketHandle, addr: Addr, c: ClientId, useAsyncNetwork: int): Slot
  {
    var t := Cleared(s.(peer := addr)).(socket := Some(h), client := Some(ClientRec(c, Unknown)));
    WithAsyncMode(t, useAsyncNetwork).(closed := false)
  }

  /** markClosed applied to a slot. */
  function MarkedClosed(s: Slot): Slot
  {
    s.(closed := true)
  }

  /** After clear the slot is back to its unused state apart from its peer address and wire. */
  lemma ClearedIsUnused(s: Slot)
    ensures Cleared(s) == Unused.(peer := s.peer, wire := s.wire)
    ensures !IsValid(Cleared(s)) && Cleared(s).client.None?
  {
  }

  /**
   * Clearing twice is clearing once, and the second clear leaves the client statistic
   * alone, because the first one already dropped the client.
   */
  lemma ClearIdempotent(s: Slot)
    ensures Cleared(Cleared(s)) == Cleared(s)
    ensures ClearStatDelta(Cleared(s)) == 0
  {
  }

  /** A cleared slot has nothing pending: its socket is gone and every queue is empty. */
  lemma ClearedHasNoPendingData(s: Slot, disconnectPri: Priority)
    ensures !PendingData(Cleared(s), disconnectPri)
  {
  }

  /**
   * A freshly initialised slot is valid, has empty queues, and decides async mode as a
   * client of unknown version: only the version-independent setting turns it on.
   */
  lemma OpenedIsFresh(s: Slot, h: SocketHandle, addr: Addr, c: ClientId, flag: int)
    ensures var t := Opened(s, h, addr, c, flag);
      IsValid(t) && IsValidFor(t, c) && t.queues == EmptyQueues && t.async.queue == [] &&
      !t.hs.seeded && t.packetExceptions == 0 && t.peer == addr &&
      (t.async.enabled <==> flag != 0 && flag != 2)
  {
  }

  /**
   * Pops a queue until it is empty, as clear does, deleting the front packet before each
   * pop: every packet of the queue is deleted once, in queue order.
   */
  method Emptied(q: seq<Packet>) returns (e: seq<Packet>, deleted: seq<Packet>)
    ensures e == [] && deleted == q
  {
    e, deleted := q, [];
    while e != []
      invariant deleted + e == q
      decreases |e|
    {
      assert e == [e[0]] + e[1..];
      deleted := deleted + [e[0]];
      e := e[1..];
    }
  }

  /** Empties every priority queue in turn, from PRI_IDLE upwards. */
  method EmptyAll(qs: Queues) returns (e: Queues)
    ensures e == EmptyQueues
  {
    e := qs;
    var i := 0;
    while i < PriQty
      invariant 0 <= i <= PriQty
      invariant forall k :: 0 <= k < i ==> e[k] == []
    {
      var q, _ := Emptied(e[i]);
      e := e[i := q];
      i := i + 1;
    }
  }

  /** The server's connected-clients statistic (SERV_STAT_CLIENTS). */
  class ServerStats {
    var clients: int

    constructor ()
      ensures clients == 0
    {
      clients := 0;
    }
  }

  class NetState {
    const id: int
    var peer: Addr
    var socket: Option<SocketHandle>
    var closed: bool
    var client: Option<ClientRec>
    var queues: Queues
    var async: AsyncState
    var hs: Handshake
    var packetExceptions: nat
    var wire: seq<Packet>

    /** The slot's fields as one value. */
    function View(): Slot
      reads this
    {
      Slot(peer, socket, closed, client, queues, async, hs, packetExceptions, wire)
    }

    /** NetState(id): no client, then clear(). */
    constructor (id: int)
      ensures this.id == id && View() == Unused
    {
      this.id := id;
      peer, socket, closed, client := 0, None, true, None;
      queues, async, hs, packetExceptions, wire := EmptyQueues, NoAsync, NoHandshake, 0, [];
    }

    /** From this point on the slot only accepts packets at the disconnect priority. */
    method MarkClosed()
      modifies this
      ensures View() == MarkedClosed(old(View()))
    {
      closed := true;
    }

    /** Drops the client and the socket and empties every queue, one packet at a time. */
    method Clear(stats: ServerStats)
      modifies this, stats
      ensures View() == Cleared(old(View()))
      ensures stats.clients == old(stats.clients) + ClearStatDelta(old(View()))
    {
      if client.Some? {
        stats.clients := stats.clients - 1;
      }
      closed, socket, client := true, None, None;
      queues := EmptyAll(queues);
      var emptiedAsync, _ := Emptied(async.queue);
      async := AsyncState(false, emptiedAsync, false);
      hs, packetExceptions := NoHandshake, 0;
    }

    /** NetState::setAsyncMode with the current configuration flag. */
    method SetAsyncMode(useAsyncNetwork: int)
      modifies this
      ensures View() == WithAsyncMode(old(View()), useAsyncNetwork)
    {
      var enabled;
      if useAsyncNetwork == 0 {
        enabled := false;
      } else if useAsyncNetwork != 2 {
        enabled := true;
      } else if client.Some? && client.value.connectType == Http {
        enabled := false;
      } else if hs.clientVersion >= AsyncMinVersion || hs.clientType == KR {
        enabled := true;
      } else {
        enabled := false;
      }
      async := async.(enabled := enabled);
    }

    /** NetState::init: takes over the accepted socket `h` and a new client `c`. */
    method Init(h: SocketHandle, addr: Addr, c: ClientId, useAsyncNetwork: int, stats: ServerStats)
      modifies this, stats
      ensures View() == Opened(old(View()), h, addr, c, useAsyncNetwork)
      ensures stats.clients == old(stats.clients) + ClearStatDelta(old(View())) + 1
    {
      peer := addr;
      Clear(stats);
      stats.clients := stats.clients + 1;
      socket, client := Some(h), Some(ClientRec(c, Unknown));
      SetAsyncMode(useAsyncNetwork);
      closed := false;
    }

    /** NetState::hasPendingData: scans the queues from the floor upwards. */
    method HasPendingData(disconnectPri: Priority) returns (b: bool)
      ensures b == PendingData(View(), disconnectPri)
    {
      if socket.None? {
        return false;
      }
      var i: nat := if closed then disconnectPri else PriIdle;
      while i < PriQty
        invariant PendingFloor(View(), disconnectPri) <= i <= PriQty
        invariant forall k :: PendingFloor(View(), disconnectPri) <= k < i ==> queues[k] == []
      {
        if queues[i] != [] {
          return true;
        }
        i := i + 1;
      }
      b := async.enabled && async.queue != [];
    }
  }
}
