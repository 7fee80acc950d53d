/**
 * Values shared by the inbound and outbound halves of the network layer:
 * bytes, packet priorities, outbound packets, connection kinds and the
 * configuration values the layer reads.
 */
module Wire {

  newtype byte = x: int | 0 <= x < 256

  datatype Option<T> = None | Some(value: T)

  /** Number of priority levels, PacketSend::PRI_QTY. */
  const PriQty: nat := 5

  /** The five outbound priorities, lowest first. */
  const PriIdle: nat := 0
  const PriLow: nat := 1
  const PriNormal: nat := 2
  const PriHigh: nat := 3
  const PriHighest: nat := 4

  type Priority = p: nat | p < PriQty

  /** One FIFO queue per priority. */
  type Queues = q: seq<seq<Packet>> | |q| == PriQty witness [[], [], [], [], []]

  const EmptyQueues: Queues := [[], [], [], [], []]

  /** An outbound packet: its current priority and its serialised bytes. */
  datatype Packet = Packet(priority: Priority, data: seq<byte>)
  {
    function Length(): nat { |data| }
  }

  /** CClient::GetConnectType values that the network layer tests. */
  datatype ConnectType = Unknown | Crypt | Http | Telnet | Game

  /** NetState::m_clientType. */
  datatype ClientType = TwoD | KR | SA

  /** The four parts of a client version as reported in the new-seed handshake. */
  datatype VersionQuad = VersionQuad(major: nat, minor: nat, revision: nat, patch: nat)

  const NoVersion := VersionQuad(0, 0, 0, 0)

  /** Identity of a CClient object. */
  type ClientId = nat

  /** A peer address (CSocketAddressIP). */
  type Addr = nat

  /** Configuration values the network layer reads from g_Cfg and the build defines. */
  datatype Config = Config(
    disconnectPri: Priority,     // NETWORK_DISCONNECTPRI
    maxPackets: int,             // NETWORK_MAXPACKETS
    maxPacketLen: int,           // NETWORK_MAXPACKETLEN
    maxQueueSize: Option<int>,   // NETWORK_MAXQUEUESIZE, None when the macro is not defined
    useAsyncNetwork: int,        // m_fUseAsyncNetwork: 0 off, 2 version-gated, other on
    useHttp: int,                // m_fUseHTTP: only 2 accepts web requests
    historyTtl: int,             // NETHISTORY_TTL
    historyMaxPings: int,        // NETHISTORY_MAXPINGS
    connectingMaxIp: int,        // m_iConnectingMaxIP, 0 for no limit
    clientsMaxIp: int,           // m_iClientsMaxIP, 0 for no limit
    connectingMax: int,          // m_iConnectingMax
    packetCount: int             // NETWORK_PACKETCOUNT
  )

  /** Sum of the lengths of a sequence of packets. */
  function TotalLength(ps: seq<Packet>): nat
  {
    if ps == [] then 0 else ps[0].Length() + TotalLength(ps[1..])
  }
}
