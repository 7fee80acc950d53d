/**
 * The handshake part of NetworkIn::tick: what the first reads of a connection
 * whose type is still unknown do to the slot, and where the first payload of a
 * classified connection goes before its encryption is set up.
 *
 * The receive buffer is NETWORK_BUFFERSIZE bytes long and `received` of them
 * were just read; the source's prefix tests and its realigned new-seed read look
 * at buffer bytes past `received`, so the functions take the whole buffer.
 */
module Handshakes {
  import opened Wire
  import opened NetStates

  /** XCMD_NewSeed, the opcode that starts a new-style seed packet. */
  const NewSeedCmd: byte := 0xEF
  /** XCMD_EncryptionReply, the KR client's answer to the server's encryption request. */
  const EncryptionReplyCmd: byte := 0xE3
  /** NETWORK_SEEDLEN_OLD: a bare 4-byte seed. */
  const SeedLenOld: nat := 4
  /** NETWORK_SEEDLEN_NEW: opcode, 4-byte seed and four 4-byte version parts. */
  const SeedLenNew: nat := 21
  /** A KR client opens with the seed 255.255.255.255. */
  const KRSeed: nat := 0xFFFF_FFFF
  /** Fewer bytes than this cannot be a client setup packet and are treated as a ping. */
  const MinSetupLen: int := 5

  /** "GET /" and "POST /" in ASCII. */
  const HttpGet: seq<byte> := [0x47, 0x45, 0x54, 0x20, 0x2F]
  const HttpPost: seq<byte> := [0x50, 0x4F, 0x53, 0x54, 0x20, 0x2F]

  /** The request-line prefixes of an HTTP GET or POST with an origin-form target. */
  predicate HttpPrefix(buf: seq<byte>)
  {
    (|buf| >= |HttpGet| && buf[..|HttpGet|] == HttpGet) ||
    (|buf| >= |HttpPost| && buf[..|HttpPost|] == HttpPost)
  }

  /** Four bytes read as a big-endian unsigned 32-bit number. */
  function BigEndian32(buf: seq<byte>, at: nat): (n: nat)
    requires at + 4 <= |buf|
    ensures n < 0x1_0000_0000
    ensures n == 0 <==> buf[at] == 0 && buf[at + 1] == 0 && buf[at + 2] == 0 && buf[at + 3] == 0
  {
    buf[at] as nat * 0x100_0000 + buf[at + 1] as nat * 0x1_0000 + buf[at + 2] as nat * 0x100 + buf[at + 3] as nat
  }

  /** The four version parts that follow the seed in a new-seed packet. */
  function VersionAt(buf: seq<byte>, at: nat): VersionQuad
    requires at + 16 <= |buf|
  {
    VersionQuad(BigEndian32(buf, at), BigEndian32(buf, at + 4), BigEndian32(buf, at + 8), BigEndian32(buf, at + 12))
  }

  /** What the rest of the read cycle does with the bytes. */
  datatype Action =
    | Continue                              // nothing more for this read
    | WebRequest(start: int, count: int)    // OnRxWebPageRequest(buffer + start, count)
    | Ping(start: int, count: int)          // OnRxPing(buffer + start, count)
    | KrEncryption                          // a PacketKREncryption is sent to the client
    | ClientSetup(start: int, count: int)   // xProcessClientSetup(buffer + start, count)

  /**
   * The slot after one read on an unclassified connection: the client's connect type,
   * the closed flag, the handshake fields, how many bytes the seed took, and the action.
   */
  datatype Outcome = Outcome(connectType: ConnectType, closed: bool, hs: Handshake,
                             consumed: int, action: Action)

  /**
   * Whether a read is taken as a new-style seed. As written, a slot that has seen the
   * lone marker takes any read of four bytes or more as the 20-byte continuation;
   * `guarded` adds the length test the other alternative already has.
   */
  predicate NewSeedRead(hs: Handshake, buf: seq<byte>, received: int, guarded: bool)
    requires |buf| > 0
  {
    (hs.newseed && (!guarded || received >= SeedLenNew - 1)) ||
    (buf[0] == NewSeedCmd && received >= SeedLenNew)
  }

  /** The seed, its length in the read, and the handshake fields the seed packet sets. */
  function SeedOf(hs: Handshake, buf: seq<byte>, received: int, guarded: bool): (Handshake, nat, nat)
    requires |buf| >= SeedLenNew
  {
    if NewSeedRead(hs, buf, received, guarded) then
      if hs.newseed then
        // the marker came alone earlier, so the packet is read one byte back
        (hs.(reportedVersion := VersionAt(buf, 4)), BigEndian32(buf, 0), SeedLenNew - 1)
      else
        (hs.(newseed := true, reportedVersion := VersionAt(buf, 5)), BigEndian32(buf, 1), SeedLenNew)
    else
      (hs, BigEndian32(buf, 0), SeedLenOld)
  }

  /** The rest of the read after the seed, or the whole read of an already seeded slot. */
  function AfterSeed(hs: Handshake, start: int, remaining: int, consumed: int, hookOk: bool): Outcome
  {
    if remaining == 0 then
      if hs.seed == KRSeed then Outcome(Crypt, false, hs.(clientType := KR), consumed, KrEncryption)
      else Outcome(Unknown, false, hs, consumed, Continue)
    else if remaining < MinSetupLen then Outcome(Unknown, !hookOk, hs, consumed, Ping(start, remaining))
    else Outcome(Crypt, false, hs, consumed, ClientSetup(start, remaining))
  }

  /**
   * One read on a connection whose type is still unknown. `hookOk` is the answer of the
   * receive hook the path calls (OnRxWebPageRequest or OnRxPing), if it calls one.
   */
  function ClassifyRead(hs: Handshake, buf: seq<byte>, received: int, useHttp: int,
                        hookOk: bool, guarded: bool): Outcome
    requires 0 < received <= |buf| && |buf| >= SeedLenNew
  {
    if !hs.seeded then
      if received >= 4 then
        if HttpPrefix(buf) then
          if useHttp != 2 then Outcome(Unknown, true, hs, 0, Continue)
          else Outcome(Http, !hookOk, hs, 0, WebRequest(0, received))
        else
          var (hs1, seed, seedLen) := SeedOf(hs, buf, received, guarded);
          if seed == 0 then Outcome(Unknown, true, hs1, 0, Continue)
          else AfterSeed(hs1.(seeded := true, seed := seed), seedLen, received - seedLen, seedLen, hookOk)
      else if buf[0] == NewSeedCmd then Outcome(Unknown, false, hs.(newseed := true), 0, Continue)
      else Outcome(Unknown, !hookOk, hs, 0, Ping(0, received))
    else AfterSeed(hs, 0, received, 0, hookOk)
  }

  /** The classifier as network.cpp:613-716 has it. */
  function ClassifyAsWritten(hs: Handshake, buf: seq<byte>, received: int, useHttp: int, hookOk: bool): Outcome
    requires 0 < received <= |buf| && |buf| >= SeedLenNew
  {
    ClassifyRead(hs, buf, received, useHttp, hookOk, false)
  }

  /**
   * The classifier with the continuation of a split new-seed packet length-checked
   * like the unsplit one. Whatever the read, the seed consumes only received bytes and
   * a seeded slot never has a zero seed.
   */
  function Classify(hs: Handshake, buf: seq<byte>, received: int, useHttp: int, hookOk: bool): (r: Outcome)
    requires 0 < received <= |buf| && |buf| >= SeedLenNew
    ensures 0 <= r.consumed <= received
    ensures (r.action.Ping? || r.action.ClientSetup? || r.action.WebRequest?) ==>
              r.action.start == r.consumed && r.action.count == received - r.consumed > 0
    ensures !hs.seeded && r.hs.seeded ==> r.hs.seed != 0
  {
    ClassifyRead(hs, buf, received, useHttp, hookOk, true)
  }

  /** The buffer of the finding: a 4-byte read after the lone new-seed marker. */
  const SplitSeedBuffer: seq<byte> := [0, 0, 0, 7] + seq(17, _ => 0 as byte)

  /**
   * As written, a 4-byte read after the lone marker is consumed as a 20-byte seed
   * continuation: the remaining length becomes negative and is handed to the ping hook.
   */
  lemma SplitSeedOverconsumesAsWritten(hookOk: bool)
    ensures var hs := NoHandshake.(newseed := true);
      var r := ClassifyAsWritten(hs, SplitSeedBuffer, 4, 0, hookOk);
      r.consumed == 20 && r.action == Ping(20, -16) && r.hs.seeded && r.hs.seed == 7
  {
    var hs := NoHandshake.(newseed := true);
    assert NewSeedRead(hs, SplitSeedBuffer, 4, false);
    assert BigEndian32(SplitSeedBuffer, 0) == 7;
  }

  /** With the length check the same read is taken as a legacy seed and nothing is overread. */
  lemma SplitSeedGuarded(hookOk: bool)
    ensures var hs := NoHandshake.(newseed := true);
      var r := Classify(hs, SplitSeedBuffer, 4, 0, hookOk);
      r.consumed == SeedLenOld && r.hs.seed == 7 && r.action == Continue
  {
    var hs := NoHandshake.(newseed := true);
    assert !NewSeedRead(hs, SplitSeedBuffer, 4, true);
    assert BigEndian32(SplitSeedBuffer, 0) == 7;
  }

  /**
   * The guarded classifier differs from the code's only on the read of the first finding:
   * on a slot that has seen the lone marker, an unseeded read of 4 to 19 bytes that is not
   * an HTTP request. There, with a non-zero seed, the code consumes 20 bytes and the guarded
   * classifier the 4 of a legacy seed.
   */
  lemma ClassifyAgreesAsWritten(hs: Handshake, buf: seq<byte>, received: int, useHttp: int, hookOk: bool)
    requires 0 < received <= |buf| && |buf| >= SeedLenNew
    ensures !(hs.newseed && !hs.seeded && 4 <= received < SeedLenNew - 1 && !HttpPrefix(buf)) ==>
              Classify(hs, buf, received, useHttp, hookOk) == ClassifyAsWritten(hs, buf, received, useHttp, hookOk)
    ensures hs.newseed && !hs.seeded && 4 <= received < SeedLenNew - 1 && !HttpPrefix(buf) &&
            BigEndian32(buf, 0) != 0 ==>
              ClassifyAsWritten(hs, buf, received, useHttp, hookOk).consumed == SeedLenNew - 1 &&
              Classify(hs, buf, received, useHttp, hookOk).consumed == SeedLenOld
  {
  }

  /**
   * A first read of at least four bytes that starts like an HTTP request line is never
   * seeded: it becomes a web connection when HTTP is enabled and is closed otherwise.
   */
  lemma HttpRequestIsNeverSeeded(hs: Handshake, buf: seq<byte>, received: int, useHttp: int, hookOk: bool)
    requires 0 < received <= |buf| && |buf| >= SeedLenNew
    requires !hs.seeded && received >= 4 && HttpPrefix(buf)
    ensures var r := Classify(hs, buf, received, useHttp, hookOk);
      r.hs == hs && r.connectType != Crypt &&
      (useHttp == 2 ==> r.connectType == Http && r.action == WebRequest(0, received) && (r.closed <==> !hookOk)) &&
      (useHttp != 2 ==> r.closed && r.connectType == Unknown && r.action == Continue)
  {
  }

  /**
   * Any other read of at least four bytes on a slot that has not seen the marker, and
   * is not itself a complete new-seed packet, carries the legacy big-endian seed: a zero
   * seed closes the slot, any other seeds it and consumes four bytes.
   */
  lemma LegacySeed(hs: Handshake, buf: seq<byte>, received: int, useHttp: int, hookOk: bool)
    requires 0 < received <= |buf| && |buf| >= SeedLenNew
    requires !hs.seeded && !hs.newseed && received >= 4 && !HttpPrefix(buf)
    requires !(buf[0] == NewSeedCmd && received >= SeedLenNew)
    ensures var r := Classify(hs, buf, received, useHttp, hookOk);
      var seed := BigEndian32(buf, 0);
      (seed == 0 ==> r.closed && !r.hs.seeded && r.action == Continue) &&
      (seed != 0 ==> r.hs.seeded && r.hs.seed == seed && r.consumed == SeedLenOld &&
                     r.hs.reportedVersion == hs.reportedVersion)
  {
  }

  /**
   * A new-seed read takes the seed and version from the packet and consumes the whole
   * packet, or one byte less when its marker arrived alone in the previous read.
   */
  lemma NewSeed(hs: Handshake, buf: seq<byte>, received: int, useHttp: int, hookOk: bool)
    requires 0 < received <= |buf| && |buf| >= SeedLenNew
    requires !hs.seeded && received >= 4 && !HttpPrefix(buf)
    requires NewSeedRead(hs, buf, received, true)
    ensures var r := Classify(hs, buf, received, useHttp, hookOk);
      var at := if hs.newseed then 0 else 1;
      var seed := BigEndian32(buf, at);
      r.hs.newseed &&
      r.hs.reportedVersion == VersionAt(buf, at + 4) &&
      (seed == 0 ==> r.closed && !r.hs.seeded) &&
      (seed != 0 ==> r.hs.seeded && r.hs.seed == seed &&
                     r.consumed == (if hs.newseed then SeedLenNew - 1 else SeedLenNew))
  {
  }

  /** A zero seed, of either format, always closes the slot before anything is dispatched. */
  lemma ZeroSeedCloses(hs: Handshake, buf: seq<byte>, received: int, useHttp: int, hookOk: bool)
    requires 0 < received <= |buf| && |buf| >= SeedLenNew
    requires !hs.seeded && received >= 4 && !HttpPrefix(buf)
    requires SeedOf(hs, buf, received, true).1 == 0
    ensures var r := Classify(hs, buf, received, useHttp, hookOk);
      r.closed && !r.hs.seeded && r.action == Continue && r.connectType == Unknown
  {
  }

  /**
   * A seed that fills the whole read and equals 0xFFFFFFFF identifies a KR client: the
   * slot becomes a crypt connection of type KR and the server opens the KR handshake.
   */
  lemma KRSentinel(hs: Handshake, buf: seq<byte>, received: int, useHttp: int, hookOk: bool)
    requires 0 < received <= |buf| && |buf| >= SeedLenNew
    requires !hs.seeded && received >= 4 && !HttpPrefix(buf)
    requires SeedOf(hs, buf, received, true).1 == KRSeed
    requires SeedOf(hs, buf, received, true).2 == received
    ensures var r := Classify(hs, buf, received, useHttp, hookOk);
      r.connectType == Crypt && r.hs.clientType == KR && r.action == KrEncryption &&
      r.hs.seeded && !r.closed
  {
  }

  /**
   * Reads of one to three bytes before the seed: the lone new-seed marker is remembered,
   * anything else is a ping that closes the slot when the ping hook refuses it.
   */
  lemma ShortReadBeforeSeed(hs: Handshake, buf: seq<byte>, received: int, useHttp: int, hookOk: bool)
    requires 0 < received <= |buf| && |buf| >= SeedLenNew
    requires !hs.seeded && received < 4
    ensures var r := Classify(hs, buf, received, useHttp, hookOk);
      !r.hs.seeded && r.consumed == 0 &&
      (buf[0] == NewSeedCmd ==> r.hs == hs.(newseed := true) && !r.closed && r.action == Continue) &&
      (buf[0] != NewSeedCmd ==> r.hs == hs && r.action == Ping(0, received) && (r.closed <==> !hookOk))
  {
  }

  /**
   * On a seeded slot whose type is still unknown, four bytes or fewer are a ping and
   * five or more are the client's setup packet, which makes it a crypt connection.
   */
  lemma SeededRead(hs: Handshake, buf: seq<byte>, received: int, useHttp: int, hookOk: bool)
    requires 0 < received <= |buf| && |buf| >= SeedLenNew
    requires hs.seeded
    ensures var r := Classify(hs, buf, received, useHttp, hookOk);
      r.hs == hs && r.consumed == 0 &&
      (received < MinSetupLen ==> r.action == Ping(0, received) && (r.closed <==> !hookOk)) &&
      (received >= MinSetupLen ==> r.action == ClientSetup(0, received) && r.connectType == Crypt && !r.closed)
  {
  }

  /** Where the first payload of a classified connection goes before encryption is set up. */
  datatype SetupAction =
    | Setup(start: int, count: int)   // xProcessClientSetup(buffer + start, count)
    | Nothing                         // the KR encryption reply is not complete, or is all there is
    | PingAgain                       // too short: the slot goes back to unknown and is pinged
    | Web                             // OnRxWebPageRequest
    | Console                         // OnRxConsole
    | Junk                            // no crypt and no known type

  /** The connect type after the routing, the closed flag, and the action. */
  datatype SetupOutcome = SetupOutcome(connectType: ConnectType, closed: bool, action: SetupAction)

  /**
   * The switch of network.cpp:722-785. `encKrLen` is the length field of a KR encryption
   * reply and `hookOk` the answer of the hook the branch calls.
   */
  function SetupRoute(ct: ConnectType, isKR: bool, buf: seq<byte>, received: int, encKrLen: nat,
                      hookOk: bool): (r: SetupOutcome)
    requires 0 < received <= |buf|
    ensures r.action.Setup? ==> ct == Crypt && 0 <= r.action.start && r.action.start + r.action.count == received &&
                                r.action.count > 0
    ensures r.closed <==> (ct == Crypt && received < MinSetupLen && !hookOk) ||
                          ((ct == Http || ct == Telnet) && !hookOk) ||
                          (ct != Crypt && ct != Http && ct != Telnet)
    ensures ct == Crypt && received >= MinSetupLen ==> !r.closed && r.connectType == Crypt
  {
    match ct
    case Crypt =>
      if received >= MinSetupLen then
        if buf[0] == EncryptionReplyCmd && isKR then
          if received <= encKrLen then SetupOutcome(Crypt, false, Nothing)
          else SetupOutcome(Crypt, false, Setup(encKrLen, received - encKrLen))
        else SetupOutcome(Crypt, false, Setup(0, received))
      else SetupOutcome(Unknown, !hookOk, PingAgain)
    case Http => SetupOutcome(Http, !hookOk, Web)
    case Telnet => SetupOutcome(Telnet, !hookOk, Console)
    case _ => SetupOutcome(ct, true, Junk)
  }

  /** The slot after the classifier's outcome has been applied to it. */
  function Classified(s: Slot, o: Outcome): Slot
    requires s.client.Some?
  {
    s.(client := Some(s.client.value.(connectType := o.connectType)), closed := s.closed || o.closed,
       hs := o.hs)
  }

  /**
   * The unclassified branch of the receive loop of NetworkIn::tick on one slot: the
   * classifier's decision is written back to the slot's client, closed flag and handshake
   * fields, and nothing else of the slot changes.
   */
  method ReceiveUnclassified(state: NetState, buf: seq<byte>, received: int, useHttp: int, hookOk: bool)
    returns (o: Outcome)
    requires state.client.Some? && state.client.value.connectType == Unknown
    requires 0 < received <= |buf| && |buf| >= SeedLenNew
    modifies state
    ensures o == Classify(old(state.hs), buf, received, useHttp, hookOk)
    ensures state.View() == Classified(old(state.View()), o)
  {
    o := Classify(state.hs, buf, received, useHttp, hookOk);
    state.client := Some(state.client.value.(connectType := o.connectType));
    if o.closed {
      state.MarkClosed();
    }
    state.hs := o.hs;
  }
}
