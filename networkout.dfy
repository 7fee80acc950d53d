/**
 * NetworkOut: the outbound side of the network layer. Packets are scheduled onto a slot's
 * five priority queues, drained under a packet and byte budget, routed to the asynchronous
 * queue or sent at once, and serviced on a per-priority cadence by the tick.
 *
 * The socket and the packet's own send trigger are a `Transport`: whether the packet's
 * onSend accepts it, and what the socket answers when the packet is written.
 */
module NetworkOuts {
  import opened Wire
  import opened NetStates
  import opened NetworkIns

  /** The socket errors sendPacketNow tells apart. */
  datatype ErrCode = IoPending | WouldBlock | ConnReset | ConnAborted | OtherError

  /** What a write to the socket answered. */
  datatype SendResult = Sent | Failed(code: ErrCode)

  /** The platform, the packets' onSend trigger, and the socket's answer to each packet. */
  datatype Transport = Transport(windows: bool, onSend: Packet -> bool, result: Packet -> SendResult)

  /** No write is ever re-queued: the platform is not Windows, or no write would block. */
  ghost predicate NoRequeue(t: Transport)
  {
    !t.windows || forall p :: t.result(p) != Failed(WouldBlock)
  }

  /** `a` is `b` with some elements left out, the order kept. */
  predicate IsSubseq(a: seq<Packet>, b: seq<Packet>)
    decreases |b|
  {
    a == [] || (b != [] && ((a[0] == b[0] && IsSubseq(a[1..], b[1..])) || IsSubseq(a, b[1..])))
  }

  /** `a` is what is left of `b` after some elements were popped from its front. */
  predicate IsSuffix(a: seq<Packet>, b: seq<Packet>)
  {
    |a| <= |b| && b[|b| - |a|..] == a
  }

  lemma SuffixTrans(a: seq<Packet>, b: seq<Packet>, c: seq<Packet>)
    requires IsSuffix(a, b) && IsSuffix(b, c)
    ensures IsSuffix(a, c)
  {
    assert c[|c| - |a|..] == c[|c| - |b|..][|b| - |a|..];
  }

  lemma SubseqCons(x: Packet, a: seq<Packet>, b: seq<Packet>)
    requires IsSubseq(a, b)
    ensures IsSubseq(a, [x] + b) && IsSubseq([x] + a, [x] + b)
  {
    assert ([x] + b)[1..] == b;
    assert ([x] + a)[1..] == a;
  }

  // ---------------------------------------------------------------- scheduleOnce

  /** The packet pushed at the tail of the queue of its priority. */
  function Enqueued(s: Slot, p: Packet): Slot
  {
    s.(queues := s.queues[p.priority := s.queues[p.priority] + [p]])
  }

  /** A non-idle queue at or over NETWORK_MAXQUEUESIZE, when that limit is defined and positive. */
  predicate QueueFull(s: Slot, priority: Priority, maxQueueSize: Option<int>)
  {
    priority > PriIdle && maxQueueSize.Some? && maxQueueSize.value > 0 &&
    |s.queues[priority]| >= maxQueueSize.value
  }

  /**
   * NetworkOut::scheduleOnce: a packet for a slot that is not valid is dropped; a packet for
   * a full queue is demoted one level and scheduled again; any other is queued.
   */
  function Scheduled(s: Slot, p: Packet, maxQueueSize: Option<int>): (r: Slot)
    ensures r == s.(queues := r.queues)
    ensures forall k :: 0 <= k < PriQty ==> s.queues[k] <= r.queues[k]
    decreases p.priority
  {
    if !IsValid(s) then s
    else if QueueFull(s, p.priority, maxQueueSize) then Scheduled(s, p.(priority := p.priority - 1), maxQueueSize)
    else Enqueued(s, p)
  }

  /** The priority a packet scheduled at `priority` ends up at. */
  function Landing(s: Slot, priority: Priority, maxQueueSize: Option<int>): (l: Priority)
    ensures l <= priority && !QueueFull(s, l, maxQueueSize)
    ensures forall k :: l < k <= priority ==> QueueFull(s, k, maxQueueSize)
    decreases priority
  {
    if QueueFull(s, priority, maxQueueSize) then Landing(s, priority - 1, maxQueueSize) else priority
  }

  /**
   * scheduleOnce leaves a slot that is not valid unchanged. Otherwise it queues the packet,
   * never drops it: at the tail of the queue of the highest priority, not above its own,
   * whose queue is not full, every level it skipped being full; PRI_IDLE is never full.
   */
  lemma {:induction false} ScheduledLands(s: Slot, p: Packet, maxQueueSize: Option<int>)
    ensures !IsValid(s) ==> Scheduled(s, p, maxQueueSize) == s
    ensures IsValid(s) ==>
      Scheduled(s, p, maxQueueSize) == Enqueued(s, p.(priority := Landing(s, p.priority, maxQueueSize)))
    decreases p.priority
  {
    if IsValid(s) && QueueFull(s, p.priority, maxQueueSize) {
      ScheduledLands(s, p.(priority := p.priority - 1), maxQueueSize);
    }
  }

  /** Without NETWORK_MAXQUEUESIZE every packet joins the tail of its own queue: FIFO per priority. */
  lemma ScheduledUncappedIsFifo(s: Slot, p: Packet)
    requires IsValid(s)
    ensures Scheduled(s, p, None).queues == s.queues[p.priority := s.queues[p.priority] + [p]]
    ensures Scheduled(s, p, None).queues[p.priority][|s.queues[p.priority]|] == p
  {
  }

  // ---------------------------------------------------------------- sendPacketNow

  /**
   * NetworkOut::sendPacketNow: the slot after the send and the answer. A packet whose onSend
   * refuses it is dropped with success. A written packet, or one whose asynchronous write is
   * pending, reaches the wire. On Windows a synchronous write that would block is scheduled
   * again, a reset or aborted connection fails, and any other error is ignored; elsewhere
   * every error fails.
   */
  function SentNow(s: Slot, p: Packet, t: Transport, maxQueueSize: Option<int>): (r: (Slot, bool))
    ensures forall k :: 0 <= k < PriQty ==> s.queues[k] <= r.0.queues[k]
  {
    if !t.onSend(p) then (s, true)
    else match t.result(p)
      case Sent => (s.(wire := s.wire + [p]), true)
      case Failed(code) =>
        if !t.windows then (s, false)
        else if s.async.enabled && code == IoPending then (s.(wire := s.wire + [p]), true)
        else if !s.async.enabled && code == WouldBlock then (Scheduled(s, p, maxQueueSize), true)
        else if code == ConnReset || code == ConnAborted then (s, false)
        else (s, true)
  }

  /**
   * sendPacketNow fails exactly on a socket error off Windows or a reset or aborted
   * connection on Windows; the packet reaches the wire exactly when it was written or its
   * asynchronous write is pending; and only a Windows write that would block touches the queues.
   */
  lemma SentNowOutcome(s: Slot, p: Packet, t: Transport, maxQueueSize: Option<int>)
    ensures var r := SentNow(s, p, t, maxQueueSize);
      (!r.1 <==> t.onSend(p) && t.result(p).Failed? &&
                 (!t.windows || t.result(p).code == ConnReset || t.result(p).code == ConnAborted)) &&
      (r.0.wire == s.wire + [p] <==>
         t.onSend(p) && (t.result(p) == Sent || (t.windows && s.async.enabled && t.result(p) == Failed(IoPending)))) &&
      (r.0.wire == s.wire || r.0.wire == s.wire + [p]) &&
      (r.0.queues != s.queues ==> t.windows && !s.async.enabled && t.result(p) == Failed(WouldBlock))
  {
    assert s.wire + [p] != s.wire by {
      assert |s.wire + [p]| != |s.wire|;
    }
  }

  /**
   * NetworkOut::sendPacket: a packet the slot cannot receive is dropped with failure; in
   * async mode it joins the async queue; otherwise it is sent at once.
   */
  function Routed(s: Slot, p: Packet, t: Transport, cfg: Config): (r: (Slot, bool))
    ensures forall k :: 0 <= k < PriQty ==> s.queues[k] <= r.0.queues[k]
  {
    if !CanReceive(s, p, cfg.disconnectPri) then (s, false)
    else if s.async.enabled then (s.(async := s.async.(queue := s.async.queue + [p])), true)
    else SentNow(s, p, t, cfg.maxQueueSize)
  }

  /**
   * sendPacket takes one of three ways. A packet the slot cannot receive is refused and
   * changes nothing. In async mode it joins the tail of the async queue, and nothing is
   * written. Otherwise it is written at once: it reaches the wire exactly when onSend
   * accepts it and the write succeeds, and the answer is false exactly when sendPacketNow fails.
   */
  lemma RoutedThreeWays(s: Slot, p: Packet, t: Transport, cfg: Config)
    ensures var r := Routed(s, p, t, cfg);
      !CanReceive(s, p, cfg.disconnectPri) ==> r == (s, false)
    ensures var r := Routed(s, p, t, cfg);
      CanReceive(s, p, cfg.disconnectPri) && s.async.enabled ==>
        r.1 && r.0.async.queue == s.async.queue + [p] && r.0.queues == s.queues && r.0.wire == s.wire
    ensures var r := Routed(s, p, t, cfg);
      CanReceive(s, p, cfg.disconnectPri) && !s.async.enabled ==>
        r.0.async == s.async &&
        (r.0.wire == s.wire + [p] <==> t.onSend(p) && t.result(p) == Sent) &&
        (!r.1 <==> t.onSend(p) && t.result(p).Failed? &&
                   (!t.windows || t.result(p).code == ConnReset || t.result(p).code == ConnAborted))
  {
    if CanReceive(s, p, cfg.disconnectPri) && !s.async.enabled {
      SentNowOutcome(s, p, t, cfg.maxQueueSize);
    }
  }

  // ---------------------------------------------------------------- proceedQueue(client, priority)

  /**
   * The loop of proceedQueue from iteration `i`, with `packets` the current bound and
   * `length` the bytes handed to sendPacket so far: the slot afterwards and the packets
   * handed to sendPacket, in order. A packet the slot cannot receive or whose onSend refuses
   * it is dropped without counting, and lets one more packet through while the queue has
   * enough left (`corrected` picks which test decides that, see `NextBound`); the pass
   * stops once the bytes handed exceed NETWORK_MAXPACKETLEN.
   */
  function Drain(s: Slot, priority: Priority, t: Transport, cfg: Config, corrected: bool, i: int, packets: int, length: int)
    : (r: (Slot, seq<Packet>))
    requires packets - i <= |s.queues[priority]|
    decreases packets - i, |s.queues[priority]|
  {
    if i >= packets then (s, [])
    else
      var p := s.queues[priority][0];
      var s1 := Popped(s, priority);
      if Discarded(s1, p, t, cfg) then
        Drain(s1, priority, t, cfg, corrected, i + 1, NextBound(s1, priority, i, packets, corrected), length)
      else
        var s2 := Handed(s1, p, t, cfg);
        if length + p.Length() > cfg.maxPacketLen then (s2, [p])
        else
          var rest := Drain(s2, priority, t, cfg, corrected, i + 1, packets, length + p.Length());
          (rest.0, [p] + rest.1)
  }

  /** The slot with the front packet of a queue popped. */
  function Popped(s: Slot, priority: Priority): (r: Slot)
    requires s.queues[priority] != []
    ensures r.queues[priority] == s.queues[priority][1..]
    ensures forall j :: 0 <= j < PriQty && j != priority ==> r.queues[j] == s.queues[j]
  {
    s.(queues := s.queues[priority := s.queues[priority][1..]])
  }

  /** proceedQueue drops a packet the slot cannot receive or whose onSend refuses it. */
  predicate Discarded(s: Slot, p: Packet, t: Transport, cfg: Config)
  {
    !CanReceive(s, p, cfg.disconnectPri) || !t.onSend(p)
  }

  /**
   * The bound after the packet of iteration `i` was dropped, `s` being the slot after the
   * pop. As written, the extra place is granted only when the queue holds two packets more
   * than the remaining iterations need; corrected, whenever it still holds one for it.
   */
  function NextBound(s: Slot, priority: Priority, i: int, packets: int, corrected: bool): (r: int)
    ensures r == packets || r == packets + 1
  {
    if corrected then (if packets - i <= |s.queues[priority]| then packets + 1 else packets)
    else if packets + 1 - i < |s.queues[priority]| then packets + 1 else packets
  }

  /** The slot after sendPacket, closed when sendPacket failed. */
  function Handed(s: Slot, p: Packet, t: Transport, cfg: Config): (r: Slot)
    ensures forall k :: 0 <= k < PriQty ==> s.queues[k] <= r.queues[k]
    ensures NoRequeue(t) ==> r.queues == s.queues
  {
    var sent := Routed(s, p, t, cfg);
    if sent.1 then sent.0 else MarkedClosed(sent.0)
  }

  /** The packet bound NetworkOut::proceedQueue starts with: the queue size, capped by NETWORK_MAXPACKETS. */
  function PassBound(s: Slot, priority: Priority, cfg: Config): int
  {
    var n := |s.queues[priority]|;
    if n > cfg.maxPackets then cfg.maxPackets else n
  }

  /** One proceedQueue(client, priority) pass: the slot afterwards and the packets handed to sendPacket. */
  function DrainPass(s: Slot, priority: Priority, t: Transport, cfg: Config, corrected: bool): (Slot, seq<Packet>)
  {
    if |s.queues[priority]| <= 0 then (s, []) else Drain(s, priority, t, cfg, corrected, 0, PassBound(s, priority, cfg), 0)
  }

  /** The pass as network.cpp:1365-1441 has it. */
  function DrainedAsWritten(s: Slot, priority: Priority, t: Transport, cfg: Config): (Slot, seq<Packet>)
  {
    DrainPass(s, priority, t, cfg, false)
  }

  /** The pass with every dropped packet's place granted while the queue can fill it. */
  function Drained(s: Slot, priority: Priority, t: Transport, cfg: Config): (Slot, seq<Packet>)
  {
    DrainPass(s, priority, t, cfg, true)
  }

  /** The pass hands at most as many packets to sendPacket as its bound allows. */
  lemma {:induction false} DrainCount(s: Slot, priority: Priority, t: Transport, cfg: Config, corrected: bool,
                                      i: int, packets: int, length: int)
    requires packets - i <= |s.queues[priority]|
    ensures |Drain(s, priority, t, cfg, corrected, i, packets, length).1| <= if i < packets then packets - i else 0
    decreases packets - i, |s.queues[priority]|
  {
    if i < packets {
      var p := s.queues[priority][0];
      var s1 := Popped(s, priority);
      if Discarded(s1, p, t, cfg) {
        var packets' := NextBound(s1, priority, i, packets, corrected);
        DrainCount(s1, priority, t, cfg, corrected, i + 1, packets', length);
      } else {
        var s2 := Handed(s1, p, t, cfg);
        if length + p.Length() <= cfg.maxPacketLen {
          DrainCount(s2, priority, t, cfg, corrected, i + 1, packets, length + p.Length());
        }
      }
    }
  }

  /**
   * The byte budget: every packet but the last one handed to sendPacket keeps the running
   * length within NETWORK_MAXPACKETLEN, so the pass stops right after the packet that
   * takes it over the limit.
   */
  lemma {:induction false} DrainLength(s: Slot, priority: Priority, t: Transport, cfg: Config, corrected: bool,
                                       i: int, packets: int, length: int)
    requires packets - i <= |s.queues[priority]| && length <= cfg.maxPacketLen
    ensures var h := Drain(s, priority, t, cfg, corrected, i, packets, length).1;
      h != [] ==> length + TotalLength(h[..|h| - 1]) <= cfg.maxPacketLen
    decreases packets - i, |s.queues[priority]|
  {
    if i < packets {
      var p := s.queues[priority][0];
      var s1 := Popped(s, priority);
      if Discarded(s1, p, t, cfg) {
        var packets' := NextBound(s1, priority, i, packets, corrected);
        DrainLength(s1, priority, t, cfg, corrected, i + 1, packets', length);
      } else {
        var s2 := Handed(s1, p, t, cfg);
        var length' := length + p.Length();
        if length' <= cfg.maxPacketLen {
          var rest := Drain(s2, priority, t, cfg, corrected, i + 1, packets, length');
          DrainLength(s2, priority, t, cfg, corrected, i + 1, packets, length');
          var h := [p] + rest.1;
          if rest.1 != [] {
            assert h[..|h| - 1] == [p] + rest.1[..|rest.1| - 1];
            assert TotalLength(h[..|h| - 1]) == p.Length() + TotalLength(rest.1[..|rest.1| - 1]);
          } else {
            assert h[..|h| - 1] == [];
          }
        }
      }
    }
  }

  /** With no write re-queued, the pass only pops the front of its queue: what is left is a suffix. */
  lemma {:induction false} DrainLeavesSuffix(s: Slot, priority: Priority, t: Transport, cfg: Config, corrected: bool,
                                             i: int, packets: int, length: int)
    requires packets - i <= |s.queues[priority]| && NoRequeue(t)
    ensures IsSuffix(Drain(s, priority, t, cfg, corrected, i, packets, length).0.queues[priority], s.queues[priority])
    decreases packets - i, |s.queues[priority]|
  {
    var r := Drain(s, priority, t, cfg, corrected, i, packets, length);
    var q := s.queues[priority];
    if i >= packets {
      assert q[|q| - |q|..] == q;
    } else {
      var s1 := Popped(s, priority);
      var p := q[0];
      if Discarded(s1, p, t, cfg) {
        var packets' := NextBound(s1, priority, i, packets, corrected);
        assert r == Drain(s1, priority, t, cfg, corrected, i + 1, packets', length);
        DrainLeavesSuffix(s1, priority, t, cfg, corrected, i + 1, packets', length);
      } else {
        var s2 := Handed(s1, p, t, cfg);
        assert s2.queues[priority] == q[1..];
        var length' := length + p.Length();
        if length' > cfg.maxPacketLen {
          assert r.0.queues[priority] == q[1..];
        } else {
          assert r.0 == Drain(s2, priority, t, cfg, corrected, i + 1, packets, length').0;
          DrainLeavesSuffix(s2, priority, t, cfg, corrected, i + 1, packets, length');
        }
      }
      SuffixTrans(r.0.queues[priority], q[1..], q);
    }
  }

  /**
   * With no write re-queued, the packets handed to sendPacket are taken from the popped
   * prefix of the queue, in queue order.
   */
  lemma {:induction false} DrainFifo(s: Slot, priority: Priority, t: Transport, cfg: Config, corrected: bool,
                                     i: int, packets: int, length: int)
    requires packets - i <= |s.queues[priority]| && NoRequeue(t)
    ensures var r := Drain(s, priority, t, cfg, corrected, i, packets, length);
      var q := s.queues[priority];
      IsSuffix(r.0.queues[priority], q) && IsSubseq(r.1, q[..|q| - |r.0.queues[priority]|])
    decreases packets - i, |s.queues[priority]|, 1
  {
    var q := s.queues[priority];
    if i >= packets {
      assert q[|q| - |q|..] == q && q[..0] == [];
    } else if Discarded(Popped(s, priority), q[0], t, cfg) {
      DrainFifoDropped(s, priority, t, cfg, corrected, i, packets, length);
    } else {
      DrainFifoHanded(s, priority, t, cfg, corrected, i, packets, length);
    }
  }

  /** The step of DrainFifo where the front packet is dropped. */
  lemma {:induction false} DrainFifoDropped(s: Slot, priority: Priority, t: Transport, cfg: Config, corrected: bool,
                                            i: int, packets: int, length: int)
    requires i < packets && packets - i <= |s.queues[priority]| && NoRequeue(t)
    requires Discarded(Popped(s, priority), s.queues[priority][0], t, cfg)
    ensures var r := Drain(s, priority, t, cfg, corrected, i, packets, length);
      var q := s.queues[priority];
      IsSuffix(r.0.queues[priority], q) && IsSubseq(r.1, q[..|q| - |r.0.queues[priority]|])
    decreases packets - i, |s.queues[priority]|, 0
  {
    var q := s.queues[priority];
    var s1 := Popped(s, priority);
    var packets' := NextBound(s1, priority, i, packets, corrected);
    var r := Drain(s1, priority, t, cfg, corrected, i + 1, packets', length);
    assert Drain(s, priority, t, cfg, corrected, i, packets, length) == r;
    DrainFifo(s1, priority, t, cfg, corrected, i + 1, packets', length);
    SuffixTrans(r.0.queues[priority], q[1..], q);
    PopFront(q, r.0.queues[priority], r.1, false);
  }

  /** The step of DrainFifo where the front packet is handed to sendPacket. */
  lemma {:induction false} DrainFifoHanded(s: Slot, priority: Priority, t: Transport, cfg: Config, corrected: bool,
                                           i: int, packets: int, length: int)
    requires i < packets && packets - i <= |s.queues[priority]| && NoRequeue(t)
    requires !Discarded(Popped(s, priority), s.queues[priority][0], t, cfg)
    ensures var r := Drain(s, priority, t, cfg, corrected, i, packets, length);
      var q := s.queues[priority];
      IsSuffix(r.0.queues[priority], q) && IsSubseq(r.1, q[..|q| - |r.0.queues[priority]|])
    decreases packets - i, |s.queues[priority]|, 0
  {
    DrainLeavesSuffix(s, priority, t, cfg, corrected, i, packets, length);
    var r := Drain(s, priority, t, cfg, corrected, i, packets, length);
    var q := s.queues[priority];
    var p := q[0];
    var s2 := Handed(Popped(s, priority), p, t, cfg);
    assert s2.queues[priority] == q[1..];
    var length' := length + p.Length();
    if length' > cfg.maxPacketLen {
      assert r.1 == [p] && r.0.queues[priority] == q[1..];
      assert q[..1] == [p] && IsSubseq([], q[..1][1..]);
    } else {
      var rest := Drain(s2, priority, t, cfg, corrected, i + 1, packets, length');
      assert r == (rest.0, [p] + rest.1);
      DrainFifo(s2, priority, t, cfg, corrected, i + 1, packets, length');
      PopFront(q, rest.0.queues[priority], rest.1, true);
    }
  }

  /** One pop in front of a pass that keeps the FIFO property keeps it, `handed` or not. */
  lemma PopFront(q: seq<Packet>, left: seq<Packet>, h: seq<Packet>, handed: bool)
    requires q != [] && IsSuffix(left, q[1..]) && IsSubseq(h, q[1..][..|q| - 1 - |left|])
    ensures IsSubseq(if handed then [q[0]] + h else h, q[..|q| - |left|])
  {
    var pre := q[1..][..|q| - 1 - |left|];
    assert q[..|q| - |left|] == [q[0]] + pre;
    SubseqCons(q[0], h, pre);
  }

  /** With no write re-queued, a pass leaves every other priority queue alone. */
  lemma {:induction false} DrainKeepsOthers(s: Slot, priority: Priority, t: Transport, cfg: Config, corrected: bool,
                                            i: int, packets: int, length: int)
    requires packets - i <= |s.queues[priority]| && NoRequeue(t)
    ensures var r := Drain(s, priority, t, cfg, corrected, i, packets, length);
      forall j :: 0 <= j < PriQty && j != priority ==> r.0.queues[j] == s.queues[j]
    decreases packets - i, |s.queues[priority]|
  {
    if i < packets {
      var p := s.queues[priority][0];
      var s1 := Popped(s, priority);
      if Discarded(s1, p, t, cfg) {
        var packets' := NextBound(s1, priority, i, packets, corrected);
        DrainKeepsOthers(s1, priority, t, cfg, corrected, i + 1, packets', length);
      } else {
        var s2 := Handed(s1, p, t, cfg);
        if length + p.Length() <= cfg.maxPacketLen {
          DrainKeepsOthers(s2, priority, t, cfg, corrected, i + 1, packets, length + p.Length());
        }
      }
    }
  }

  /**
   * One proceedQueue pass hands at most NETWORK_MAXPACKETS packets, and no more than the
   * queue holds, to sendPacket, within the byte budget; with no write re-queued it takes them
   * from the front of the queue in order and leaves the other queues alone.
   */
  lemma DrainedBudget(s: Slot, priority: Priority, t: Transport, cfg: Config, corrected: bool)
    requires cfg.maxPacketLen >= 0
    ensures var r := DrainPass(s, priority, t, cfg, corrected);
      |r.1| <= |s.queues[priority]| && (cfg.maxPackets >= 0 ==> |r.1| <= cfg.maxPackets) &&
      (r.1 != [] ==> TotalLength(r.1[..|r.1| - 1]) <= cfg.maxPacketLen)
    ensures NoRequeue(t) ==> var r := DrainPass(s, priority, t, cfg, corrected);
      var q := s.queues[priority];
      IsSuffix(r.0.queues[priority], q) && IsSubseq(r.1, q[..|q| - |r.0.queues[priority]|]) &&
      (forall j :: 0 <= j < PriQty && j != priority ==> r.0.queues[j] == s.queues[j])
  {
    if |s.queues[priority]| > 0 {
      var n := PassBound(s, priority, cfg);
      DrainCount(s, priority, t, cfg, corrected, 0, n, 0);
      DrainLength(s, priority, t, cfg, corrected, 0, n, 0);
      if NoRequeue(t) {
        DrainFifo(s, priority, t, cfg, corrected, 0, n, 0);
        DrainKeepsOthers(s, priority, t, cfg, corrected, 0, n, 0);
      }
    } else {
      assert s.queues[priority][0..] == s.queues[priority];
    }
  }

  /** The packets handed on take the running length from `length` past NETWORK_MAXPACKETLEN. */
  predicate OverBudget(h: seq<Packet>, length: int, cfg: Config)
  {
    length + TotalLength(h) > cfg.maxPacketLen
  }

  lemma TotalLengthCons(p: Packet, h: seq<Packet>)
    ensures TotalLength([p] + h) == p.Length() + TotalLength(h)
  {
    assert ([p] + h)[1..] == h;
  }

  /**
   * With the corrected bound and no write re-queued, the loop from iteration `i` ends only
   * once it has handed on `packets - i` packets, emptied its queue, or spent its byte budget;
   * when its bound covers the whole queue, only the byte budget keeps it from emptying it.
   */
  lemma {:induction false} DrainComplete(s: Slot, priority: Priority, t: Transport, cfg: Config,
                                         i: int, packets: int, length: int)
    requires packets - i <= |s.queues[priority]| && NoRequeue(t)
    ensures var r := Drain(s, priority, t, cfg, true, i, packets, length);
      r.0.queues[priority] == [] || |r.1| >= packets - i || OverBudget(r.1, length, cfg)
    ensures var r := Drain(s, priority, t, cfg, true, i, packets, length);
      packets - i == |s.queues[priority]| ==> r.0.queues[priority] == [] || OverBudget(r.1, length, cfg)
    decreases packets - i, |s.queues[priority]|
  {
    if i < packets {
      var p := s.queues[priority][0];
      var s1 := Popped(s, priority);
      if Discarded(s1, p, t, cfg) {
        var packets' := NextBound(s1, priority, i, packets, true);
        DrainComplete(s1, priority, t, cfg, i + 1, packets', length);
      } else {
        var s2 := Handed(s1, p, t, cfg);
        var length' := length + p.Length();
        if length' > cfg.maxPacketLen {
          TotalLengthCons(p, []);
          assert [p] + [] == [p];
        } else {
          var rest := Drain(s2, priority, t, cfg, true, i + 1, packets, length');
          DrainComplete(s2, priority, t, cfg, i + 1, packets, length');
          TotalLengthCons(p, rest.1);
        }
      }
    }
  }

  /**
   * With the corrected bound and no write re-queued, a dropped packet never costs a place
   * another packet could take: a pass ends only when it has handed on NETWORK_MAXPACKETS
   * packets, emptied its queue, or spent its byte budget. With `DrainedBudget` it hands on
   * exactly NETWORK_MAXPACKETS packets whenever the queue and the bytes allow.
   */
  lemma DrainedComplete(s: Slot, priority: Priority, t: Transport, cfg: Config)
    requires NoRequeue(t)
    ensures var r := Drained(s, priority, t, cfg);
      r.0.queues[priority] == [] || |r.1| >= cfg.maxPackets || TotalLength(r.1) > cfg.maxPacketLen
  {
    if |s.queues[priority]| > 0 {
      DrainComplete(s, priority, t, cfg, 0, PassBound(s, priority, cfg), 0);
    }
  }

  const ThreePackets: seq<Packet> := [Packet(PriNormal, [1]), Packet(PriNormal, [2]), Packet(PriNormal, [3])]

  /** An open slot of a live client, not in async mode, with three packets queued at PRI_NORMAL. */
  const QueuedSlot: Slot := Slot(0, Some(0), false, Some(ClientRec(0, Game)), EmptyQueues[PriNormal := ThreePackets],
                                 AsyncState(false, [], false), NoHandshake, 0, [])

  /** A socket off Windows that takes every write, for packets whose onSend refuses only the first. */
  const RefuseFirst: Transport := Transport(false, p => p != ThreePackets[0], _ => Sent)

  /**
   * As written, a dropped packet can cost a place: with NETWORK_MAXPACKETS 2 and three packets
   * queued, the first refused by its onSend, the pass hands on only the second and leaves the
   * third queued, within the byte budget.
   */
  lemma DropCostsPlaceAsWritten(cfg: Config)
    requires cfg.maxPackets == 2 && cfg.maxPacketLen >= 2
    ensures var r := DrainedAsWritten(QueuedSlot, PriNormal, RefuseFirst, cfg);
      r.1 == [ThreePackets[1]] && r.0.queues[PriNormal] == [ThreePackets[2]] && TotalLength(r.1) <= cfg.maxPacketLen
  {
    var s, t, n := QueuedSlot, RefuseFirst, PriNormal;
    var b := ThreePackets[1];
    assert PassBound(s, n, cfg) == 2 && b.Length() == 1 && [b] + [] == [b];
    var s1 := Popped(s, n);
    assert s1.queues[n] == ThreePackets[1..] && Discarded(s1, ThreePackets[0], t, cfg);
    // 2 + 1 - 0 < 2 fails, so the dropped packet's place is refused
    assert NextBound(s1, n, 0, 2, false) == 2;
    var s2 := Popped(s1, n);
    assert CanReceive(s2, b, cfg.disconnectPri) && t.onSend(b);
    var s3 := Handed(s2, b, t, cfg);
    assert s3 == s2.(wire := [b]) && s3.queues[n] == [ThreePackets[2]];
    assert Drain(s3, n, t, cfg, false, 2, 2, 1) == (s3, []);
    assert Drain(s1, n, t, cfg, false, 1, 2, 0) == (s3, [b]);
    assert TotalLength([b]) == 1;
  }

  /** Corrected, the dropped packet's place goes to the third packet: both remaining packets are handed on. */
  lemma DropKeepsPlaceCorrected(cfg: Config)
    requires cfg.maxPackets == 2 && cfg.maxPacketLen >= 2
    ensures var r := Drained(QueuedSlot, PriNormal, RefuseFirst, cfg);
      r.1 == ThreePackets[1..] && r.0.queues[PriNormal] == []
  {
    var s, t, n := QueuedSlot, RefuseFirst, PriNormal;
    var b, c := ThreePackets[1], ThreePackets[2];
    assert PassBound(s, n, cfg) == 2 && b.Length() == 1 && c.Length() == 1;
    assert [c] + [] == [c] && [b] + [c] == [b, c];
    var s1 := Popped(s, n);
    assert s1.queues[n] == [b, c] && Discarded(s1, ThreePackets[0], t, cfg);
    assert NextBound(s1, n, 0, 2, true) == 3;
    var s2 := Popped(s1, n);
    assert CanReceive(s2, b, cfg.disconnectPri) && t.onSend(b);
    var s3 := Handed(s2, b, t, cfg);
    assert s3 == s2.(wire := [b]) && s3.queues[n] == [c];
    var s4 := Popped(s3, n);
    assert CanReceive(s4, c, cfg.disconnectPri) && t.onSend(c);
    var s5 := Handed(s4, c, t, cfg);
    assert s5 == s4.(wire := [b, c]) && s5.queues[n] == [];
    assert Drain(s5, n, t, cfg, true, 3, 3, 2) == (s5, []);
    assert Drain(s3, n, t, cfg, true, 2, 3, 1) == (s5, [c]);
    assert Drain(s1, n, t, cfg, true, 1, 3, 0) == (s5, [b, c]);
  }

  /**
   * Where the two rules for the extra place part: the as-written bound is never above the
   * corrected one, and falls one short of it exactly when the queue holds no more than one
   * packet beyond what the remaining iterations need.
   */
  lemma NextBoundAsWrittenBelow(s: Slot, priority: Priority, i: int, packets: int)
    ensures NextBound(s, priority, i, packets, false) <= NextBound(s, priority, i, packets, true)
    ensures NextBound(s, priority, i, packets, false) < NextBound(s, priority, i, packets, true) <==>
            packets - i <= |s.queues[priority]| <= packets + 1 - i
  {
  }

  /**
   * From the same state, the loop as written with a bound no larger than the corrected
   * one's hands to sendPacket a prefix of what the corrected loop hands on.
   */
  lemma {:induction false} DrainAsWrittenPrefix(s: Slot, priority: Priority, t: Transport, cfg: Config,
                                                i: int, packets: int, packets': int, length: int)
    requires packets <= packets' && packets' - i <= |s.queues[priority]|
    ensures Drain(s, priority, t, cfg, false, i, packets, length).1 <= Drain(s, priority, t, cfg, true, i, packets', length).1
    decreases packets' - i, |s.queues[priority]|
  {
    if i < packets {
      var p := s.queues[priority][0];
      var s1 := Popped(s, priority);
      if Discarded(s1, p, t, cfg) {
        NextBoundAsWrittenBelow(s1, priority, i, packets);
        DrainAsWrittenPrefix(s1, priority, t, cfg, i + 1, NextBound(s1, priority, i, packets, false),
                             NextBound(s1, priority, i, packets', true), length);
      } else {
        var s2 := Handed(s1, p, t, cfg);
        if length + p.Length() <= cfg.maxPacketLen {
          DrainAsWrittenPrefix(s2, priority, t, cfg, i + 1, packets, packets', length + p.Length());
        }
      }
    }
  }

  /** The pass as written hands on a prefix of what the corrected pass hands on. */
  lemma DrainedAsWrittenPrefix(s: Slot, priority: Priority, t: Transport, cfg: Config)
    ensures DrainedAsWritten(s, priority, t, cfg).1 <= Drained(s, priority, t, cfg).1
  {
    if |s.queues[priority]| > 0 {
      DrainAsWrittenPrefix(s, priority, t, cfg, 0, PassBound(s, priority, cfg), PassBound(s, priority, cfg), 0);
    }
  }

  /** No packet the loop pops from `i` on is dropped. */
  predicate NoDrop(s: Slot, priority: Priority, t: Transport, cfg: Config, i: int, packets: int, length: int)
    requires packets - i <= |s.queues[priority]|
    decreases packets - i, |s.queues[priority]|
  {
    i >= packets ||
    var p := s.queues[priority][0];
    var s1 := Popped(s, priority);
    !Discarded(s1, p, t, cfg) &&
    (length + p.Length() > cfg.maxPacketLen || NoDrop(Handed(s1, p, t, cfg), priority, t, cfg, i + 1, packets, length + p.Length()))
  }

  /** When no popped packet is dropped the two rules are never consulted, and the loops agree. */
  lemma {:induction false} DrainsAgreeWithoutDrops(s: Slot, priority: Priority, t: Transport, cfg: Config,
                                                   i: int, packets: int, length: int)
    requires packets - i <= |s.queues[priority]| && NoDrop(s, priority, t, cfg, i, packets, length)
    ensures Drain(s, priority, t, cfg, false, i, packets, length) == Drain(s, priority, t, cfg, true, i, packets, length)
    decreases packets - i, |s.queues[priority]|
  {
    if i < packets {
      var p := s.queues[priority][0];
      var s2 := Handed(Popped(s, priority), p, t, cfg);
      if length + p.Length() <= cfg.maxPacketLen {
        DrainsAgreeWithoutDrops(s2, priority, t, cfg, i + 1, packets, length + p.Length());
      }
    }
  }

  /** The pass as written and the corrected pass agree on every pass that drops nothing. */
  lemma DrainedAgreeWithoutDrops(s: Slot, priority: Priority, t: Transport, cfg: Config)
    requires NoDrop(s, priority, t, cfg, 0, PassBound(s, priority, cfg), 0)
    ensures DrainedAsWritten(s, priority, t, cfg) == Drained(s, priority, t, cfg)
  {
    if |s.queues[priority]| > 0 {
      DrainsAgreeWithoutDrops(s, priority, t, cfg, 0, PassBound(s, priority, cfg), 0);
    }
  }

  // ---------------------------------------------------------------- proceedQueueAsync

  /** The pop loop of proceedQueueAsync: the first packet the slot can take, and the queue after it. */
  function AsyncPop(s: Slot, q: seq<Packet>, t: Transport, cfg: Config): (r: (Option<Packet>, seq<Packet>))
    ensures IsSuffix(r.1, q)
    ensures r.0.Some? ==> |r.1| < |q| && r.0.value == q[|q| - |r.1| - 1] &&
                          CanReceive(s, r.0.value, cfg.disconnectPri) && t.onSend(r.0.value)
    ensures r.0.None? ==> r.1 == []
    ensures forall j :: 0 <= j < |q| - |r.1| - (if r.0.Some? then 1 else 0) ==>
              !CanReceive(s, q[j], cfg.disconnectPri) || !t.onSend(q[j])
    decreases |q|
  {
    if q == [] then (None, [])
    else if !CanReceive(s, q[0], cfg.disconnectPri) || !t.onSend(q[0]) then AsyncPop(s, q[1..], t, cfg)
    else (Some(q[0]), q[1..])
  }

  /** A Windows asynchronous write was started: an overlapped send is now in flight. */
  predicate SendStarted(s: Slot, p: Packet, t: Transport)
  {
    t.windows && s.async.enabled && t.onSend(p) && (t.result(p) == Sent || t.result(p) == Failed(IoPending))
  }

  /**
   * NetworkOut::proceedQueueAsync. Nothing happens unless the slot is in async mode, has
   * queued packets and no send in flight; otherwise the first packet the slot can take is
   * sent at once and a failed send closes the slot. `marksSending` says whether a started
   * Windows send sets the in-flight flag.
   */
  function AsyncStep(s: Slot, t: Transport, cfg: Config, marksSending: bool): Slot
  {
    if !s.async.enabled || s.async.queue == [] || s.async.sending then s
    else
      var (found, rest) := AsyncPop(s, s.async.queue, t, cfg);
      var s1 := s.(async := s.async.(queue := rest));
      match found
      case None => s1
      case Some(p) =>
        var r := SentNow(s1, p, t, cfg.maxQueueSize);
        var s2 := if marksSending && SendStarted(s1, p, t) then r.0.(async := r.0.async.(sending := true)) else r.0;
        if r.1 then s2 else MarkedClosed(s2)
  }

  /** proceedQueueAsync as network.cpp has it: m_isSendingAsync is never set. */
  function AsyncStepAsWritten(s: Slot, t: Transport, cfg: Config): Slot
  {
    AsyncStep(s, t, cfg, false)
  }

  /** proceedQueueAsync with a started Windows send marked as in flight. */
  function AsyncStepCorrected(s: Slot, t: Transport, cfg: Config): Slot
  {
    AsyncStep(s, t, cfg, true)
  }

  /** NetworkOut::onAsyncSendComplete: the send in flight is over; the next one may start. */
  function AsyncCompleted(s: Slot, t: Transport, cfg: Config): Slot
  {
    AsyncStepCorrected(s.(async := s.async.(sending := false)), t, cfg)
  }

  const TwoPackets: seq<Packet> := [Packet(PriNormal, [1]), Packet(PriNormal, [2])]

  /** An open async-mode slot of a live client with two packets queued for asynchronous sending. */
  const AsyncSlot: Slot := Slot(0, Some(0), false, Some(ClientRec(0, Game)), EmptyQueues,
                                AsyncState(true, TwoPackets, false), NoHandshake, 0, [])

  /** A Windows socket on which every asynchronous write stays pending. */
  const PendingTransport: Transport := Transport(true, _ => true, _ => Failed(IoPending))

  /**
   * As written, two proceedQueueAsync calls with no onAsyncSendComplete between them start
   * two overlapped sends on the same slot: both packets are on the wire and the in-flight
   * flag was never raised.
   */
  lemma TwoSendsInFlightAsWritten(cfg: Config)
    ensures var s1 := AsyncStepAsWritten(AsyncSlot, PendingTransport, cfg);
      var s2 := AsyncStepAsWritten(s1, PendingTransport, cfg);
      s2.wire == TwoPackets && !s1.async.sending
  {
    var s := AsyncSlot;
    assert CanReceive(s, TwoPackets[0], cfg.disconnectPri);
    var s1 := AsyncStepAsWritten(s, PendingTransport, cfg);
    assert s1.async.queue == TwoPackets[1..] && s1.wire == [TwoPackets[0]];
    assert CanReceive(s1, TwoPackets[1], cfg.disconnectPri);
  }

  /** The corrected step sends at most one packet, and raises the flag when it starts a Windows send. */
  lemma AsyncStepSendsOne(s: Slot, t: Transport, cfg: Config)
    ensures var r := AsyncStepCorrected(s, t, cfg);
      s.wire <= r.wire && |r.wire| <= |s.wire| + 1 &&
      (t.windows && s.async.enabled && r.wire != s.wire ==> r.async.sending)
  {
    if s.async.enabled && s.async.queue != [] && !s.async.sending {
      var (found, rest) := AsyncPop(s, s.async.queue, t, cfg);
      var s1 := s.(async := s.async.(queue := rest));
      if found.Some? {
        SentNowOutcome(s1, found.value, t, cfg.maxQueueSize);
      }
    }
  }

  /**
   * With the in-flight flag raised, at most one overlapped send is in flight: on Windows two
   * proceedQueueAsync calls with no completion between them put at most one packet on the
   * wire, and a slot with a send in flight is left alone.
   */
  lemma AtMostOneSendInFlight(s: Slot, t: Transport, cfg: Config)
    requires t.windows
    ensures s.async.sending ==> AsyncStepCorrected(s, t, cfg) == s
    ensures var s2 := AsyncStepCorrected(AsyncStepCorrected(s, t, cfg), t, cfg);
      s.wire <= s2.wire && |s2.wire| <= |s.wire| + 1
  {
    var s1 := AsyncStepCorrected(s, t, cfg);
    AsyncStepSendsOne(s, t, cfg);
    AsyncStepSendsOne(s1, t, cfg);
    if s1.wire != s.wire {
      assert s1.async.enabled == s.async.enabled;
      assert AsyncStepCorrected(s1, t, cfg) == s1;
    }
  }

  /** Once a send completes, the flag is down and the next packet may go. */
  lemma CompletionReleasesFlag(s: Slot, t: Transport, cfg: Config)
    requires t.windows && s.async.enabled && s.async.sending
    ensures AsyncCompleted(s, t, cfg) == AsyncStepCorrected(s.(async := s.async.(sending := false)), t, cfg)
    ensures AsyncStepCorrected(s, t, cfg) == s
  {
  }

  /**
   * One corrected step does what the code's step does, apart from the in-flight flag: as
   * written the flag never changes, and the corrected step raises it only on Windows, when
   * it has put a packet on the wire.
   */
  lemma AsyncStepsAgreeButFlag(s: Slot, t: Transport, cfg: Config)
    ensures var w := AsyncStepAsWritten(s, t, cfg);
      var c := AsyncStepCorrected(s, t, cfg);
      w.async.sending == s.async.sending &&
      c == w.(async := w.async.(sending := c.async.sending)) &&
      (c.async.sending != s.async.sending ==> t.windows && |c.wire| == |s.wire| + 1)
  {
  }

  // ---------------------------------------------------------------- flush and the per-priority pass

  /** The slot after proceedQueue(client, priority) for priorities `from` up to PRI_QTY, in turn. */
  function FlushedFrom(s: Slot, from: nat, t: Transport, cfg: Config): Slot
    requires from <= PriQty
    decreases PriQty - from
  {
    if from == PriQty then s else FlushedFrom(Drained(s, from, t, cfg).0, from + 1, t, cfg)
  }

  /** NetworkOut::flush: every queue from PRI_IDLE upwards, then the async queue. */
  function Flushed(s: Slot, t: Transport, cfg: Config): Slot
  {
    AsyncStepCorrected(FlushedFrom(s, 0, t, cfg), t, cfg)
  }

  /** The async step never touches the priority queues. */
  lemma AsyncStepKeepsQueues(s: Slot, t: Transport, cfg: Config)
    ensures AsyncStepCorrected(s, t, cfg).queues == s.queues
  {
  }

  /**
   * With no write re-queued, the passes from `from` on only pop: every priority queue
   * afterwards is a suffix of what it held before.
   */
  lemma {:induction false} FlushedFromSuffix(s: Slot, from: nat, t: Transport, cfg: Config)
    requires from <= PriQty && NoRequeue(t)
    ensures var r := FlushedFrom(s, from, t, cfg);
      forall j :: 0 <= j < PriQty ==> IsSuffix(r.queues[j], s.queues[j])
    decreases PriQty - from
  {
    var r := FlushedFrom(s, from, t, cfg);
    if from == PriQty {
      forall j | 0 <= j < PriQty
        ensures IsSuffix(r.queues[j], s.queues[j])
      {
        assert s.queues[j][|s.queues[j]| - |s.queues[j]|..] == s.queues[j];
      }
    } else {
      var d := Drained(s, from, t, cfg).0;
      DrainedFifo(s, from, t, cfg);
      FlushedFromSuffix(d, from + 1, t, cfg);
      forall j | 0 <= j < PriQty
        ensures IsSuffix(r.queues[j], s.queues[j])
      {
        if j == from {
          SuffixTrans(r.queues[j], d.queues[j], s.queues[j]);
        }
      }
    }
  }

  /** The FIFO half of DrainedBudget, on its own. */
  lemma DrainedFifo(s: Slot, priority: Priority, t: Transport, cfg: Config)
    requires NoRequeue(t)
    ensures var r := Drained(s, priority, t, cfg);
      IsSuffix(r.0.queues[priority], s.queues[priority]) &&
      (forall j :: 0 <= j < PriQty && j != priority ==> r.0.queues[j] == s.queues[j])
  {
    if |s.queues[priority]| > 0 {
      DrainFifo(s, priority, t, cfg, true, 0, PassBound(s, priority, cfg), 0);
      DrainKeepsOthers(s, priority, t, cfg, true, 0, PassBound(s, priority, cfg), 0);
    } else {
      assert s.queues[priority][0..] == s.queues[priority];
    }
  }

  /**
   * With no write re-queued, flush only pops: every priority queue afterwards is a suffix of
   * what it held before.
   */
  lemma FlushedSuffix(s: Slot, t: Transport, cfg: Config)
    requires NoRequeue(t)
    ensures var r := Flushed(s, t, cfg);
      forall j :: 0 <= j < PriQty ==> IsSuffix(r.queues[j], s.queues[j])
  {
    FlushedFromSuffix(s, 0, t, cfg);
    AsyncStepKeepsQueues(FlushedFrom(s, 0, t, cfg), t, cfg);
  }

  // ---------------------------------------------------------------- the drain cadence of NetworkOut::tick

  /** A `char` counter one step on: it wraps from 127 to -128. */
  function CharWrap(n: int): int
  {
    (n + 128) % 256 - 128
  }

  /** C's `%`, which truncates towards zero: the remainder takes the sign of `a`. */
  function CRem(a: int, b: int): int
    requires b > 0
  {
    if a >= 0 then a % b else -((-a) % b)
  }

  /**
   * Every how many ticks a priority's queues are drained: the single-threaded build drains
   * HIGHEST, HIGH and NORMAL every tick, LOW every second and IDLE every fourth; the
   * multi-threaded build halves the rate at every level down from HIGHEST.
   */
  function Period(priority: Priority, multithreaded: bool): (k: nat)
    ensures k in {1, 2, 4, 8, 16}
  {
    if !multithreaded then
      (if priority >= PriNormal then 1 else if priority == PriLow then 2 else 4)
    else if priority == PriHighest then 1
    else if priority == PriHigh then 2
    else if priority == PriNormal then 4
    else if priority == PriLow then 8
    else 16
  }

  /** The test of NetworkOut::tick on `iCount`: the unconditional levels, or `iCount % k == k - 1`. */
  predicate Serves(count: int, priority: Priority, multithreaded: bool)
  {
    var k := Period(priority, multithreaded);
    k == 1 || CRem(count, k) == k - 1
  }

  /** `[priority]` when the tick drains it, `[]` otherwise. */
  function Due(count: int, priority: Priority, multithreaded: bool): seq<Priority>
  {
    if Serves(count, priority, multithreaded) then [priority] else []
  }

  /** The priorities one tick drains, highest first. */
  function TickPlan(count: int, multithreaded: bool): seq<Priority>
  {
    Due(count, PriHighest, multithreaded) + Due(count, PriHigh, multithreaded) +
    Due(count, PriNormal, multithreaded) + Due(count, PriLow, multithreaded) +
    Due(count, PriIdle, multithreaded)
  }

  /** The single-threaded plan written out: HIGHEST, HIGH and NORMAL, then LOW and IDLE when due. */
  lemma TickPlanSingle(count: int)
    ensures TickPlan(count, false) ==
      [PriHighest, PriHigh, PriNormal] + (if CRem(count, 2) == 1 then [PriLow] else []) +
      (if CRem(count, 4) == 3 then [PriIdle] else [])
  {
    assert Due(count, PriHighest, false) == [PriHighest];
    assert Due(count, PriHigh, false) == [PriHigh];
    assert Due(count, PriNormal, false) == [PriNormal];
  }

  /** A tick drains exactly the priorities that pass their cadence test, and HIGHEST first. */
  lemma TickPlanServes(count: int, multithreaded: bool)
    ensures var plan := TickPlan(count, multithreaded);
      (forall p: Priority :: p in plan <==> Serves(count, p, multithreaded)) &&
      plan != [] && plan[0] == PriHighest && |plan| <= PriQty
  {
  }

  /** `static char iCount` after `n` ticks: incremented first, wrapping as a signed char. */
  function CountAsWritten(n: nat): int
  {
    if n == 0 then 0 else CharWrap(CountAsWritten(n - 1) + 1)
  }

  /** The counter as an unsigned char: after `n` ticks it holds `n` modulo 256. */
  function CountCorrected(n: nat): int
  {
    if n == 0 then 0 else (CountCorrected(n - 1) + 1) % 256
  }

  lemma {:induction false} CountAsWrittenWraps(n: nat)
    ensures CountAsWritten(n) == CharWrap(n)
  {
    if n > 0 {
      CountAsWrittenWraps(n - 1);
      CharWrapStep(n - 1);
    }
  }

  /** Wrapping, then adding one and wrapping again, is adding one and wrapping. */
  lemma CharWrapStep(m: int)
    ensures CharWrap(CharWrap(m) + 1) == CharWrap(m + 1)
  {
    var a := (m + 128) % 256;
    var q := (m + 128) / 256;
    assert m + 128 == 256 * q + a && 0 <= a < 256;
    if a == 255 {
      assert m + 129 == 256 * (q + 1);
    } else {
      assert m + 129 == 256 * q + (a + 1);
    }
  }

  /** On ticks 128 to 255 modulo 256 the wrapped counter is negative. */
  lemma CharWrapNegative(n: nat)
    requires 128 <= n % 256
    ensures CharWrap(n) < 0
  {
    var r := n % 256;
    var q := n / 256;
    assert n == 256 * q + r;
    assert n + 128 == 256 * (q + 1) + (r - 128);
  }

  lemma {:induction false} CountCorrectedIsModular(n: nat)
    ensures CountCorrected(n) == n % 256
  {
    if n > 0 {
      CountCorrectedIsModular(n - 1);
    }
  }

  /** A negative counter never passes a `iCount % k == k - 1` test. */
  lemma NegativeCountServesOnlyEveryTick(count: int, priority: Priority, multithreaded: bool)
    requires count < 0
    ensures Serves(count, priority, multithreaded) <==> Period(priority, multithreaded) == 1
  {
    var k := Period(priority, multithreaded);
    assert CRem(count, k) <= 0;
  }

  /**
   * As written, the counter is negative on ticks 128 to 255 of every 256, and on those
   * ticks no throttled priority is drained whatever the tick's residue: tick 129 is odd yet
   * LOW is skipped, and tick 255 is 3 modulo 4 yet IDLE is skipped.
   */
  lemma ThrottledStarvedAsWritten(n: nat, priority: Priority, multithreaded: bool)
    requires 128 <= n % 256
    ensures Serves(CountAsWritten(n), priority, multithreaded) <==> Period(priority, multithreaded) == 1
  {
    CountAsWrittenWraps(n);
    CharWrapNegative(n);
    NegativeCountServesOnlyEveryTick(CountAsWritten(n), priority, multithreaded);
  }

  /** The two ticks named above, where the as-written counter skips LOW and IDLE. */
  lemma SkippedTicksAsWritten()
    ensures 129 % 2 == 1 && !Serves(CountAsWritten(129), PriLow, false)
    ensures 255 % 4 == 3 && !Serves(CountAsWritten(255), PriIdle, false)
  {
    ThrottledStarvedAsWritten(129, PriLow, false);
    ThrottledStarvedAsWritten(255, PriIdle, false);
  }

  /**
   * With an unsigned counter the cadence is exact: on tick `n` a priority is drained exactly
   * when `n` is one short of a multiple of its period.
   */
  lemma CadenceCorrected(n: nat, priority: Priority, multithreaded: bool)
    ensures var k := Period(priority, multithreaded);
      Serves(CountCorrected(n), priority, multithreaded) <==> n % k == k - 1
  {
    CountCorrectedIsModular(n);
    var k := Period(priority, multithreaded);
    ModOfModPow2(n, k);
  }

  /** Reducing modulo 256 first does not change a residue modulo a power of two up to 16. */
  lemma ModOfModPow2(n: nat, k: nat)
    requires k in {1, 2, 4, 8, 16}
    ensures (n % 256) % k == n % k
  {
    if k == 1 {
    } else if k == 2 {
      assert (n % 256) % 2 == n % 2;
    } else if k == 4 {
      assert (n % 256) % 4 == n % 4;
    } else if k == 8 {
      assert (n % 256) % 8 == n % 8;
    } else {
      assert (n % 256) % 16 == n % 16;
    }
  }

  /** A residue one short of 2^(i+1) is also one short of 2^i. */
  lemma ResidueChain(count: nat)
    ensures count % 16 == 15 ==> count % 8 == 7
    ensures count % 8 == 7 ==> count % 4 == 3
    ensures count % 4 == 3 ==> count % 2 == 1
  {
  }

  /**
   * A higher priority is drained whenever a lower one is, under either build and any counter
   * value that is not negative; in particular every tick drains HIGHEST.
   */
  lemma HigherServedWheneverLower(count: nat, lo: Priority, hi: Priority, multithreaded: bool)
    requires lo <= hi
    ensures Serves(count, lo, multithreaded) ==> Serves(count, hi, multithreaded)
    ensures Serves(count, PriHighest, multithreaded)
  {
    ResidueChain(count);
  }

  // ---------------------------------------------------------------- the pass over every client

  /** One slot in proceedQueue(priority): a live client's queue is drained, then its async queue. */
  function ProceededSlot(s: Slot, priority: Priority, t: Transport, cfg: Config): Slot
  {
    if HasLiveClient(s) then AsyncStepCorrected(Drained(s, priority, t, cfg).0, t, cfg) else s
  }

  /** NetworkOut::proceedQueue(priority) over the slots, in slot order. */
  function ProceededAll(vs: seq<Slot>, priority: Priority, t: Transport, cfg: Config): (r: seq<Slot>)
    ensures |r| == |vs| && forall j :: 0 <= j < |vs| ==> r[j] == ProceededSlot(vs[j], priority, t, cfg)
  {
    seq(|vs|, j requires 0 <= j < |vs| => ProceededSlot(vs[j], priority, t, cfg))
  }

  /** The slots after one pass for each priority of a plan, in plan order. */
  function Ticked(vs: seq<Slot>, plan: seq<Priority>, t: Transport, cfg: Config): seq<Slot>
    decreases |plan|
  {
    if plan == [] then vs else Ticked(ProceededAll(vs, plan[0], t, cfg), plan[1..], t, cfg)
  }

  /** A slot without a live client is left alone by every pass of a tick. */
  lemma {:induction false} TickedSkipsDeadSlots(vs: seq<Slot>, plan: seq<Priority>, t: Transport, cfg: Config, j: nat)
    requires j < |vs| && !HasLiveClient(vs[j])
    ensures |Ticked(vs, plan, t, cfg)| == |vs| && Ticked(vs, plan, t, cfg)[j] == vs[j]
    decreases |plan|
  {
    if plan != [] {
      TickedSkipsDeadSlots(ProceededAll(vs, plan[0], t, cfg), plan[1..], t, cfg, j);
    }
  }

  /** Running the passes of `a` and then those of `b` is running the passes of `a + b`. */
  lemma {:induction false} TickedSnoc(vs: seq<Slot>, plan: seq<Priority>, p: Priority, t: Transport, cfg: Config)
    ensures Ticked(vs, plan + [p], t, cfg) == ProceededAll(Ticked(vs, plan, t, cfg), p, t, cfg)
    decreases |plan|
  {
    if plan == [] {
      assert [] + [p] == [p];
    } else {
      assert (plan + [p])[1..] == plan[1..] + [p];
      TickedSnoc(ProceededAll(vs, plan[0], t, cfg), plan[1..], p, t, cfg);
    }
  }

  /**
   * The invariant of proceedQueue(priority) at slot `id`, against the slots `vs` before the
   * pass: the slots before `id` have been serviced, the others are untouched.
   */
  ghost predicate Proceeding(network: NetworkIn, vs: seq<Slot>, id: int, c: Option<ClientId>,
                             priority: Priority, t: Transport, cfg: Config)
    reads network, network.states
  {
    network.Valid() && |vs| == |network.states| && 0 <= id &&
    (c.Some? ==> id < |vs| && HasLiveClient(vs[id])) &&
    (c.None? ==> id >= |vs|) &&
    (forall j :: id <= j < |vs| ==> network.states[j].View() == vs[j]) &&
    (forall j :: 0 <= j < id && j < |vs| ==> network.states[j].View() == ProceededSlot(vs[j], priority, t, cfg))
  }

  /** NetworkOut: the outbound queues' scheduler. `count` is the tick counter (`iCount`). */
  class NetworkOut {
    var count: int

    constructor ()
      ensures count == 0
    {
      count := 0;
    }

    /** scheduleOnce: queue a packet on its target slot, demoting it while its queue is full. */
    method ScheduleOnce(state: NetState, p: Packet, maxQueueSize: Option<int>)
      modifies state
      ensures state.View() == Scheduled(old(state.View()), p, maxQueueSize)
      decreases p.priority
    {
      if state.socket.None? || state.closed {
        return;
      }
      if p.priority > PriIdle && maxQueueSize.Some? && maxQueueSize.value > 0 &&
         |state.queues[p.priority]| >= maxQueueSize.value {
        ScheduleOnce(state, p.(priority := p.priority - 1), maxQueueSize);
        return;
      }
      state.queues := state.queues[p.priority := state.queues[p.priority] + [p]];
    }

    /** sendPacketNow: run the send trigger, write the packet and sort out the socket's answer. */
    method SendPacketNow(state: NetState, p: Packet, t: Transport, maxQueueSize: Option<int>) returns (ok: bool)
      modifies state
      ensures (state.View(), ok) == SentNow(old(state.View()), p, t, maxQueueSize)
    {
      if !t.onSend(p) {
        return true;
      }
      var ret := t.result(p);
      if ret.Sent? {
        state.wire := state.wire + [p];
        return true;
      }
      if !t.windows {
        return false;
      }
      if state.async.enabled && ret.code == IoPending {
        state.wire := state.wire + [p];
        return true;
      } else if !state.async.enabled && ret.code == WouldBlock {
        ScheduleOnce(state, p, maxQueueSize);
        return true;
      } else if ret.code == ConnReset || ret.code == ConnAborted {
        return false;
      }
      ok := true;
    }

    /** sendPacket: drop what the slot cannot receive, queue for async mode, else send now. */
    method SendPacket(state: NetState, p: Packet, t: Transport, cfg: Config) returns (ok: bool)
      modifies state
      ensures (state.View(), ok) == Routed(old(state.View()), p, t, cfg)
    {
      if !CanReceive(state.View(), p, cfg.disconnectPri) {
        return false;
      }
      if state.async.enabled {
        state.async := state.async.(queue := state.async.queue + [p]);
        return true;
      }
      ok := SendPacketNow(state, p, t, cfg.maxQueueSize);
    }

    /**
     * proceedQueue(client, priority): pop and hand on up to NETWORK_MAXPACKETS packets of one
     * queue, stopping once NETWORK_MAXPACKETLEN bytes have gone.
     */
    method ProceedQueue(state: NetState, priority: Priority, t: Transport, cfg: Config)
      modifies state
      ensures state.View() == Drained(old(state.View()), priority, t, cfg).0
    {
      var packets: int := |state.queues[priority]|;
      var length := 0;
      if packets <= 0 {
        return;
      }
      if packets > cfg.maxPackets {
        packets := cfg.maxPackets;
      }
      ghost var goal := Drained(old(state.View()), priority, t, cfg).0;
      var i := 0;
      while i < packets
        invariant packets - i <= |state.queues[priority]|
        invariant Drain(state.View(), priority, t, cfg, true, i, packets, length).0 == goal
        decreases packets - i, |state.queues[priority]|
      {
        var stop;
        stop, packets, length := ProceedOne(state, priority, t, cfg, i, packets, length);
        if stop {
          return;
        }
        i := i + 1;
      }
    }

    /**
     * Iteration `i` of proceedQueue(client, priority): pop the front packet, drop it or hand
     * it to sendPacket; `stop` when the bytes handed so far exceed NETWORK_MAXPACKETLEN.
     */
    method ProceedOne(state: NetState, priority: Priority, t: Transport, cfg: Config, i: int, packets: int, length: int)
      returns (stop: bool, packets': int, length': int)
      requires i < packets && packets - i <= |state.queues[priority]|
      modifies state
      ensures stop ==> state.View() == Drain(old(state.View()), priority, t, cfg, true, i, packets, length).0
      ensures !stop ==> (packets' - (i + 1) <= |state.queues[priority]| &&
        Drain(state.View(), priority, t, cfg, true, i + 1, packets', length').0 ==
        Drain(old(state.View()), priority, t, cfg, true, i, packets, length).0)
      ensures !stop ==> (packets' - (i + 1) < packets - i ||
                         (packets' - (i + 1) == packets - i && |state.queues[priority]| < old(|state.queues[priority]|)))
    {
      ghost var s := state.View();
      var p := state.queues[priority][0];
      state.queues := state.queues[priority := state.queues[priority][1..]];
      assert state.View() == Popped(s, priority);
      packets', length' := packets, length;
      if Discarded(state.View(), p, t, cfg) {
        if packets - i <= |state.queues[priority]| {
          packets' := packets + 1;
        }
        return false, packets', length';
      }
      length' := length + p.Length();
      var ok := SendPacket(state, p, t, cfg);
      if !ok {
        state.MarkClosed();
      }
      stop := length' > cfg.maxPacketLen;
    }

    /**
     * proceedQueueAsync: with no send in flight, pop the first packet the slot can take from
     * the async queue and send it at once; a started Windows send is marked as in flight.
     */
    method ProceedQueueAsync(state: NetState, t: Transport, cfg: Config)
      modifies state
      ensures state.View() == AsyncStepCorrected(old(state.View()), t, cfg)
    {
      if !state.async.enabled || state.async.queue == [] || state.async.sending {
        return;
      }
      ghost var s0 := state.View();
      var found: Option<Packet> := None;
      while state.async.queue != [] && found.None?
        invariant state.View() == s0.(async := s0.async.(queue := state.async.queue))
        invariant found.None? ==> AsyncPop(s0, state.async.queue, t, cfg) == AsyncPop(s0, s0.async.queue, t, cfg)
        invariant found.Some? ==> (found, state.async.queue) == AsyncPop(s0, s0.async.queue, t, cfg)
        decreases |state.async.queue|
      {
        var p := state.async.queue[0];
        state.async := state.async.(queue := state.async.queue[1..]);
        if !Discarded(state.View(), p, t, cfg) {
          found := Some(p);
        }
      }
      if found.Some? {
        var p := found.value;
        var started := t.windows && state.async.enabled && t.onSend(p) &&
                       (t.result(p) == Sent || t.result(p) == Failed(IoPending));
        var ok := SendPacketNow(state, p, t, cfg.maxQueueSize);
        if started {
          state.async := state.async.(sending := true);
        }
        if !ok {
          state.MarkClosed();
        }
      }
    }

    /** onAsyncSendComplete: the overlapped send is over; start the next one. */
    method OnAsyncSendComplete(state: NetState, t: Transport, cfg: Config)
      modifies state
      ensures state.View() == AsyncCompleted(old(state.View()), t, cfg)
    {
      state.async := state.async.(sending := false);
      ProceedQueueAsync(state, t, cfg);
    }

    /** flush: every priority queue from PRI_IDLE upwards, then the async queue. */
    method Flush(state: NetState, t: Transport, cfg: Config)
      modifies state
      ensures state.View() == Flushed(old(state.View()), t, cfg)
    {
      var priority := 0;
      while priority < PriQty
        invariant 0 <= priority <= PriQty
        invariant FlushedFrom(state.View(), priority, t, cfg) == FlushedFrom(old(state.View()), 0, t, cfg)
      {
        ProceedQueue(state, priority, t, cfg);
        priority := priority + 1;
      }
      ProceedQueueAsync(state, t, cfg);
    }

    /** proceedQueue(priority): every live client's queue of that priority, then its async queue. */
    method ProceedQueueAll(network: NetworkIn, priority: Priority, t: Transport, cfg: Config)
      requires network.Valid()
      modifies network.states
      ensures network.states == old(network.states)
      ensures ViewsOf(network.states) == ProceededAll(old(ViewsOf(network.states)), priority, t, cfg)
    {
      ghost var vs := ViewsOf(network.states);
      var id, c := network.NextClient(-1, |network.states|);
      while c.Some?
        invariant network.states == old(network.states)
        invariant Proceeding(network, vs, id, c, priority, t, cfg)
        decreases |network.states| - id
      {
        id, c := ProceedStep(network, vs, id, c, priority, t, cfg);
      }
    }

    /** One client of proceedQueue(priority), then the scan to the next live client. */
    method ProceedStep(network: NetworkIn, ghost vs: seq<Slot>, id: int, c: Option<ClientId>,
                       priority: Priority, t: Transport, cfg: Config) returns (id': int, c': Option<ClientId>)
      requires c.Some? && Proceeding(network, vs, id, c, priority, t, cfg)
      modifies network.states
      ensures id < id' && Proceeding(network, vs, id', c', priority, t, cfg)
    {
      var state := network.states[id];
      ProceedQueue(state, priority, t, cfg);
      ProceedQueueAsync(state, t, cfg);
      assert forall j :: 0 <= j < |network.states| && j != id ==>
          network.states[j].View() == old(network.states[j].View()) by {
        forall j | 0 <= j < |network.states| && j != id
          ensures network.states[j].View() == old(network.states[j].View())
        {
          assert old(network.states[j].id) == j;
        }
      }
      id', c' := network.NextClient(id, |network.states|);
      forall j | 0 <= j < id' && j < |vs|
        ensures network.states[j].View() == ProceededSlot(vs[j], priority, t, cfg)
      {
        if id < j {
          assert !HasLiveClient(vs[j]);
        }
      }
    }

    /**
     * NetworkOut::tick: nothing while the server is not running; otherwise the counter steps
     * on and the queues due on this tick are serviced, highest priority first.
     */
    method Tick(network: NetworkIn, running: bool, t: Transport, cfg: Config)
      requires network.Valid()
      modifies this, network.states
      ensures network.states == old(network.states)
      ensures !running ==> count == old(count) && ViewsOf(network.states) == old(ViewsOf(network.states))
      ensures running ==> (count == (old(count) + 1) % 256 &&
        ViewsOf(network.states) == Ticked(old(ViewsOf(network.states)), TickPlan(count, false), t, cfg))
    {
      if !running {
        return;
      }
      count := (count + 1) % 256;
      ServeQueues(network, count, t, cfg);
    }

    /** The queues one tick drains for counter value `n`, highest priority first. */
    method ServeQueues(network: NetworkIn, n: int, t: Transport, cfg: Config)
      requires network.Valid()
      modifies network.states
      ensures network.states == old(network.states)
      ensures ViewsOf(network.states) == Ticked(old(ViewsOf(network.states)), TickPlan(n, false), t, cfg)
    {
      ghost var v0 := ViewsOf(network.states);
      ghost var done: seq<Priority> := [];
      done := Serve(network, PriHighest, t, cfg, v0, done);
      done := Serve(network, PriHigh, t, cfg, v0, done);
      done := Serve(network, PriNormal, t, cfg, v0, done);
      done := ServeIf(network, CRem(n, 2) == 1, PriLow, t, cfg, v0, done);
      done := ServeIf(network, CRem(n, 4) == 3, PriIdle, t, cfg, v0, done);
      TickPlanSingle(n);
      assert done == TickPlan(n, false);
    }

    /** A throttled pass of the tick: it runs only when its cadence test `due` holds. */
    method ServeIf(network: NetworkIn, due: bool, priority: Priority, t: Transport, cfg: Config,
                   ghost v0: seq<Slot>, ghost done: seq<Priority>) returns (ghost done': seq<Priority>)
      requires network.Valid() && ViewsOf(network.states) == Ticked(v0, done, t, cfg)
      modifies network.states
      ensures network.states == old(network.states) && network.Valid()
      ensures done' == done + (if due then [priority] else []) && ViewsOf(network.states) == Ticked(v0, done', t, cfg)
    {
      if due {
        done' := Serve(network, priority, t, cfg, v0, done);
      } else {
        done' := done;
        assert done + [] == done;
      }
    }

    /** One pass of the tick, recorded after the passes `done` already ran on the slots `v0`. */
    method Serve(network: NetworkIn, priority: Priority, t: Transport, cfg: Config,
                 ghost v0: seq<Slot>, ghost done: seq<Priority>) returns (ghost done': seq<Priority>)
      requires network.Valid() && ViewsOf(network.states) == Ticked(v0, done, t, cfg)
      modifies network.states
      ensures network.states == old(network.states) && network.Valid()
      ensures done' == done + [priority] && ViewsOf(network.states) == Ticked(v0, done', t, cfg)
    {
      ProceedQueueAll(network, priority, t, cfg);
      TickedSnoc(v0, done, priority, t, cfg);
      done' := done + [priority];
    }
  }
}
