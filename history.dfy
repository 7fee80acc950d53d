/**
 * NetworkIn::HistoryIP, one record per peer address, and the pure rules that the
 * accept path and the periodic pass apply to the table of those records.
 */
module History {
  import opened Wire

  /** One entry of m_ips. */
  datatype HistoryIP = HistoryIP(
    ip: Addr,                   // m_ip
    ttl: int,                   // m_ttl
    pings: int,                 // m_pings
    connecting: int,            // m_connecting, kept by the client code
    connected: int,             // m_connected, kept by the client code
    blocked: bool,              // m_blocked
    blockExpire: Option<int>    // m_blockExpire, None when the time is not valid
  )

  /** A new entry: all zero, then update(). */
  function Fresh(ip: Addr, historyTtl: int): HistoryIP
  {
    Updated(HistoryIP(ip, 0, 0, 0, 0, false, None), historyTtl)
  }

  /** HistoryIP::update. */
  function Updated(h: HistoryIP, historyTtl: int): HistoryIP
  {
    h.(ttl := historyTtl)
  }

  /**
   * HistoryIP::checkPing: refreshes the entry; a blocked entry answers true and keeps its
   * ping count, any other counts the ping and answers whether the count was already at the
   * limit before.
   */
  function CheckPing(h: HistoryIP, historyTtl: int, maxPings: int): (r: (HistoryIP, bool))
    ensures r.0.ttl == historyTtl
    ensures r.0.ip == h.ip && r.0.blocked == h.blocked && r.0.blockExpire == h.blockExpire
    ensures r.0.connecting == h.connecting && r.0.connected == h.connected
    ensures h.blocked ==> r.1 && r.0.pings == h.pings
    ensures !h.blocked ==> r.0.pings == h.pings + 1 && (r.1 <==> h.pings >= maxPings)
  {
    var u := Updated(h, historyTtl);
    if u.blocked then (u, true)
    else (u.(pings := u.pings + 1), u.pings >= maxPings)
  }

  /**
   * HistoryIP::setBlocked. Blocking first lets the f_onserver_blockip script replace the
   * timeout (`hook`); a block with a non-negative timeout expires at `now` plus the
   * timeout, anything else has no expiry.
   */
  function SetBlocked(h: HistoryIP, isBlocked: bool, timeout: int, hook: int -> int, now: int): (r: HistoryIP)
    ensures r == h.(blocked := r.blocked, blockExpire := r.blockExpire)
    ensures r.blocked == isBlocked
    ensures r.blockExpire.Some? <==> isBlocked && hook(timeout) >= 0
    ensures r.blockExpire.Some? ==> r.blockExpire.value == now + hook(timeout)
  {
    var t := if isBlocked then hook(timeout) else timeout;
    h.(blocked := isBlocked, blockExpire := if isBlocked && t >= 0 then Some(now + t) else None)
  }

  /** The ban of a blocked entry has run out. */
  predicate Expired(h: HistoryIP, now: int)
  {
    h.blockExpire.Some? && now > h.blockExpire.value
  }

  /** One entry in the decay pass of NetworkIn::periodic. */
  function Decayed(h: HistoryIP, now: int): (r: HistoryIP)
    ensures r.ip == h.ip && r.connecting == h.connecting && r.connected == h.connected
    ensures h.blocked ==> r.ttl == h.ttl && r.pings == h.pings && (r.blocked <==> !Expired(h, now))
    ensures !h.blocked ==> !r.blocked && r.blockExpire == h.blockExpire && r.ttl == h.ttl - 1 &&
                           r.pings == (if h.pings > 0 && h.ttl - 1 < 0 then h.pings - 1 else h.pings)
  {
    if h.blocked then
      if Expired(h, now) then SetBlocked(h, false, -1, t => t, now) else h
    else
      var t := h.(ttl := h.ttl - 1);
      if t.pings > 0 && t.ttl < 0 then t.(pings := t.pings - 1) else t
  }

  /** The table after the decay pass. */
  function DecayedAll(ips: seq<HistoryIP>, now: int): (r: seq<HistoryIP>)
    ensures |r| == |ips| && forall i :: 0 <= i < |ips| ==> r[i] == Decayed(ips[i], now)
  {
    seq(|ips|, i requires 0 <= i < |ips| => Decayed(ips[i], now))
  }

  /** Index of the first entry whose ttl has run out, or the table size if there is none. */
  function FirstExpired(ips: seq<HistoryIP>): (k: nat)
    ensures k <= |ips|
    ensures k < |ips| ==> ips[k].ttl < 0
    ensures forall j :: 0 <= j < k ==> ips[j].ttl >= 0
  {
    if ips == [] then 0
    else if ips[0].ttl < 0 then 0
    else 1 + FirstExpired(ips[1..])
  }

  /** The table after the purge: only the first expired entry, if any, is erased. */
  function Purged(ips: seq<HistoryIP>): seq<HistoryIP>
  {
    var k := FirstExpired(ips);
    if k == |ips| then ips else ips[..k] + ips[k + 1..]
  }

  /** No two entries share an address. */
  predicate UniqueKeys(ips: seq<HistoryIP>)
  {
    forall i, j :: 0 <= i < j < |ips| ==> ips[i].ip != ips[j].ip
  }

  /** Index of the entry for `ip`, or the table size if there is none. */
  function IndexOf(ips: seq<HistoryIP>, ip: Addr): (k: nat)
    ensures k <= |ips|
    ensures k < |ips| ==> ips[k].ip == ip
    ensures forall j :: 0 <= j < k ==> ips[j].ip != ip
  {
    if ips == [] then 0
    else if ips[0].ip == ip then 0
    else 1 + IndexOf(ips[1..], ip)
  }

  /** The table after getHistoryForIP(ip): a new entry is appended only for an unseen address. */
  function WithHistory(ips: seq<HistoryIP>, ip: Addr, historyTtl: int): (r: seq<HistoryIP>)
    ensures IndexOf(r, ip) < |r|
  {
    if IndexOf(ips, ip) == |ips| then
      assert (ips + [Fresh(ip, historyTtl)])[|ips|].ip == ip;
      ips + [Fresh(ip, historyTtl)]
    else
      ips
  }

  /**
   * getHistoryForIP never creates a second entry for an address: the address has exactly
   * one entry afterwards, the table grows by at most one, and unique keys stay unique.
   */
  lemma WithHistoryUnique(ips: seq<HistoryIP>, ip: Addr, historyTtl: int)
    requires UniqueKeys(ips)
    ensures var r := WithHistory(ips, ip, historyTtl);
      UniqueKeys(r) && IndexOf(r, ip) < |r| && r[..|ips|] == ips &&
      (|r| == |ips| <==> IndexOf(ips, ip) < |ips|) && |r| <= |ips| + 1
  {
    var r := WithHistory(ips, ip, historyTtl);
    if IndexOf(ips, ip) == |ips| {
      assert r[|ips|].ip == ip;
      assert IndexOf(r, ip) <= |ips|;
    }
  }

  /**
   * The purge erases at most one entry, the first whose ttl has run out, keeps the order of
   * the others, and keeps the table as it was when no entry has run out.
   */
  lemma PurgedErasesFirstExpired(ips: seq<HistoryIP>)
    ensures var r := Purged(ips);
      (|r| == |ips| <==> forall i :: 0 <= i < |ips| ==> ips[i].ttl >= 0) &&
      (|r| == |ips| ==> r == ips) &&
      (|r| < |ips| ==> |r| == |ips| - 1 && ips[FirstExpired(ips)].ttl < 0 &&
                       r == ips[..FirstExpired(ips)] + ips[FirstExpired(ips) + 1..])
  {
  }

  /** Erasing an entry cannot make two entries share an address. */
  lemma PurgedKeepsKeysUnique(ips: seq<HistoryIP>)
    requires UniqueKeys(ips)
    ensures UniqueKeys(Purged(ips))
  {
    var k := FirstExpired(ips);
    if k < |ips| {
      var r := Purged(ips);
      forall i, j | 0 <= i < j < |r|
        ensures r[i].ip != r[j].ip
      {
        var i' := if i < k then i else i + 1;
        var j' := if j < k then j else j + 1;
        assert r[i] == ips[i'] && r[j] == ips[j'];
      }
    }
  }

  /** Neither the decay pass nor the purge can make two entries share an address. */
  lemma PeriodicKeepsKeysUnique(ips: seq<HistoryIP>, now: int)
    requires UniqueKeys(ips)
    ensures UniqueKeys(DecayedAll(ips, now))
    ensures UniqueKeys(Purged(DecayedAll(ips, now)))
  {
    PurgedKeepsKeysUnique(DecayedAll(ips, now));
  }

  /**
   * The admission test of acceptConnection on the entry after checkPing: a blocked or
   * over-pinging address, or one over a non-zero per-address limit, is rejected.
   */
  predicate Rejected(pingRejects: bool, h: HistoryIP, connectingMaxIp: int, clientsMaxIp: int)
  {
    pingRejects || (connectingMaxIp != 0 && h.connecting > connectingMaxIp) ||
    (clientsMaxIp != 0 && h.connected > clientsMaxIp)
  }

  /**
   * The history step of acceptConnection: the table after the entry for the address has
   * been found or added and pinged, and whether the connection is rejected.
   */
  function Admission(ips: seq<HistoryIP>, ip: Addr, cfg: Config): (seq<HistoryIP>, bool)
  {
    var ips1 := WithHistory(ips, ip, cfg.historyTtl);
    var k := IndexOf(ips1, ip);
    var ping := CheckPing(ips1[k], cfg.historyTtl, cfg.historyMaxPings);
    (ips1[k := ping.0], Rejected(ping.1, ping.0, cfg.connectingMaxIp, cfg.clientsMaxIp))
  }

  /**
   * An address is rejected exactly when its entry (the existing one, or a new one) is
   * blocked, has already reached the ping limit, or is over a non-zero per-address limit of
   * connecting or connected clients. Its entry is refreshed whatever the answer.
   */
  lemma AdmissionRule(ips: seq<HistoryIP>, ip: Addr, cfg: Config)
    ensures var e := if IndexOf(ips, ip) < |ips| then ips[IndexOf(ips, ip)] else Fresh(ip, cfg.historyTtl);
      var r := Admission(ips, ip, cfg);
      var k := IndexOf(r.0, ip);
      k < |r.0| && r.0[k].ttl == cfg.historyTtl && r.0[k].blocked == e.blocked &&
      (r.1 <==> e.blocked || e.pings >= cfg.historyMaxPings ||
                (cfg.connectingMaxIp != 0 && e.connecting > cfg.connectingMaxIp) ||
                (cfg.clientsMaxIp != 0 && e.connected > cfg.clientsMaxIp))
  {
    var ips1 := WithHistory(ips, ip, cfg.historyTtl);
    IndexOfUpdate(ips1, IndexOf(ips1, ip), ip, CheckPing(ips1[IndexOf(ips1, ip)], cfg.historyTtl, cfg.historyMaxPings).0);
  }

  /** The history step of acceptConnection never makes two entries share an address. */
  lemma AdmissionKeepsKeysUnique(ips: seq<HistoryIP>, ip: Addr, cfg: Config)
    requires UniqueKeys(ips)
    ensures UniqueKeys(Admission(ips, ip, cfg).0)
  {
    var ips1 := WithHistory(ips, ip, cfg.historyTtl);
    WithHistoryUnique(ips, ip, cfg.historyTtl);
    var k := IndexOf(ips1, ip);
    var e := CheckPing(ips1[k], cfg.historyTtl, cfg.historyMaxPings).0;
    var r := ips1[k := e];
    assert forall j :: 0 <= j < |r| ==> r[j].ip == ips1[j].ip;
  }

  /** Replacing an entry by one with the same address keeps where the address is found. */
  lemma IndexOfUpdate(ips: seq<HistoryIP>, k: nat, ip: Addr, e: HistoryIP)
    requires k < |ips| && ips[k].ip == e.ip
    ensures IndexOf(ips[k := e], ip) == IndexOf(ips, ip)
  {
    var r := ips[k := e];
    var i := IndexOf(ips, ip);
    assert forall j :: 0 <= j < |ips| ==> (r[j].ip == ip <==> ips[j].ip == ip);
    if i < |ips| {
      assert r[i].ip == ip;
    }
  }
}
