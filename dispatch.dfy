/**
 * The handler tables of NetworkIn and the loop of NetworkIn::tick that walks a
 * decrypted buffer and hands each framed message to the handler of its opcode.
 */
module Dispatch {
  import opened Wire

  /**
   * A registered packet handler, reduced to what the loop uses: the length the handler
   * claims for the message at a read position of the buffer, and whether the slot is
   * closed once the handler has received the message.
   */
  datatype Handler = Handler(checkLength: (seq<byte>, nat) -> int, onReceive: seq<byte> -> bool)

  /** One of m_handlers, m_extended or m_encoded: an opcode that is not a key holds NULL. */
  type Table = map<int, Handler>

  /** Every opcode a table holds lies in [0, NETWORK_PACKETCOUNT). */
  predicate InRange(t: Table, packetCount: int)
  {
    forall id :: id in t ==> 0 <= id < packetCount
  }

  /** registerPacket, registerExtended and registerEncoded: out-of-range opcodes are ignored. */
  function Registered(t: Table, id: int, h: Handler, packetCount: int): Table
  {
    if 0 <= id < packetCount then t[id := h] else t
  }

  /** getHandler, getExtendedHandler and getEncodedHandler. */
  function Lookup(t: Table, id: int): Option<Handler>
  {
    if id in t then Some(t[id]) else None
  }

  /**
   * After a registration, the opcode answers the new handler exactly when it is in range,
   * and every other opcode answers what it answered before.
   */
  lemma LookupRegistered(t: Table, id: int, h: Handler, packetCount: int, probe: int)
    ensures Lookup(Registered(t, id, h, packetCount), probe) ==
            if probe == id && 0 <= id < packetCount then Some(h) else Lookup(t, probe)
  {
  }

  /** Registration never stores an opcode outside [0, NETWORK_PACKETCOUNT). */
  lemma RegisteredInRange(t: Table, id: int, h: Handler, packetCount: int)
    requires InRange(t, packetCount)
    ensures InRange(Registered(t, id, h, packetCount), packetCount)
  {
  }

  /** What the loop did at one offset. */
  datatype Event =
    | Skipped(at: int)                 // no handler: one byte is skipped
    | Delivered(at: int, width: int)   // the handler took `width` bytes

  /** Why the loop ended. */
  datatype Stop =
    | Exhausted   // the whole buffer was consumed (len <= 0)
    | Closed      // a handler left the slot closed
    | Filtered    // the packet filter vetoed the rest of the buffer
    | BadLength   // a handler's checkLength answered zero or less

  /** The messages handled, the reason the loop stopped and the offset it stopped at. */
  datatype Run = Run(events: seq<Event>, stop: Stop, end: int)

  function Width(e: Event): int
  {
    if e.Skipped? then 1 else e.width
  }

  /** The bytes of the buffer a handler copies for a message of `width` bytes at `at`. */
  function Frame(data: seq<byte>, at: nat, width: int): seq<byte>
    requires at <= |data|
  {
    if width <= 0 then [] else if at + width <= |data| then data[at..at + width] else data[at..]
  }

  /**
   * The loop from `offset` on, with `events` already done. `closed` is the slot's closed
   * flag; `filter` is the client's packet filter on the rest of the buffer.
   */
  function RunFrom(data: seq<byte>, t: Table, filter: seq<byte> -> bool, offset: nat, closed: bool,
                   events: seq<Event>): Run
    decreases |data| - offset
  {
    if offset >= |data| then Run(events, Exhausted, offset)
    else if closed then Run(events, Closed, offset)
    else if filter(data[offset..]) then Run(events, Filtered, offset)
    else match Lookup(t, data[offset] as int)
      case None => RunFrom(data, t, filter, offset + 1, closed, events + [Skipped(offset)])
      case Some(h) =>
        var n := h.checkLength(data, offset);
        if n <= 0 then Run(events, BadLength, offset)
        else RunFrom(data, t, filter, offset + n, h.onReceive(Frame(data, offset, n)),
                     events + [Delivered(offset, n)])
  }

  /** The loop over a whole buffer, which starts on an open slot. */
  function Dispatched(data: seq<byte>, t: Table, filter: seq<byte> -> bool): Run
  {
    RunFrom(data, t, filter, 0, false, [])
  }

  /**
   * The message-processing loop of the tick: `len` counts the bytes not yet consumed,
   * `offset` the bytes consumed, and `offset + len` stays the buffer length.
   */
  method ProcessMessage(data: seq<byte>, t: Table, filter: seq<byte> -> bool) returns (r: Run)
    ensures r == Dispatched(data, t, filter)
  {
    var len: int := |data|;
    var offset: nat := 0;
    var closed := false;
    var events: seq<Event> := [];
    while len > 0 && !closed
      invariant offset + len == |data|
      invariant RunFrom(data, t, filter, offset, closed, events) == Dispatched(data, t, filter)
      decreases len
    {
      if filter(data[offset..]) {
        return Run(events, Filtered, offset);
      }
      var handler := Lookup(t, data[offset] as int);
      if handler.Some? {
        var n := handler.value.checkLength(data, offset);
        if n <= 0 {
          return Run(events, BadLength, offset);
        }
        len := len - n;
        closed := handler.value.onReceive(Frame(data, offset, n));
        events := events + [Delivered(offset, n)];
        offset := offset + n;
      } else {
        len := len - 1;
        events := events + [Skipped(offset)];
        offset := offset + 1;
      }
    }
    r := Run(events, if len <= 0 then Exhausted else Closed, offset);
  }

  /**
   * An event agrees with the buffer and the table: an unknown opcode takes exactly one byte,
   * a known one the positive length its handler claimed.
   */
  predicate Justified(data: seq<byte>, t: Table, e: Event)
  {
    0 <= e.at < |data| &&
    match e
    case Skipped(at) => Lookup(t, data[at] as int).None?
    case Delivered(at, width) =>
      Lookup(t, data[at] as int).Some? && width > 0 &&
      Lookup(t, data[at] as int).value.checkLength(data, at) == width
  }

  /**
   * Where the events end when each is justified and starts where the one before it ends,
   * the first at offset 0; None when they do not tile the buffer that way.
   */
  function TileEnd(data: seq<byte>, t: Table, events: seq<Event>): Option<int>
    decreases |events|
  {
    if events == [] then Some(0)
    else
      var e := events[|events| - 1];
      match TileEnd(data, t, events[..|events| - 1])
      case None => None
      case Some(k) => if Justified(data, t, e) && e.at == k then Some(k + Width(e)) else None
  }

  /** The events tile the buffer from 0 to `to` without gaps or overlaps. */
  predicate Explains(data: seq<byte>, t: Table, events: seq<Event>, to: int)
  {
    TileEnd(data, t, events) == Some(to)
  }

  /** The tiling spelt out event by event. */
  lemma {:induction false} ExplainsEachEvent(data: seq<byte>, t: Table, events: seq<Event>, to: int)
    requires Explains(data, t, events, to)
    ensures forall i :: 0 <= i < |events| ==> Justified(data, t, events[i])
    ensures forall i :: 0 < i < |events| ==> events[i].at == events[i - 1].at + Width(events[i - 1])
    ensures events == [] ==> to == 0
    ensures events != [] ==> events[0].at == 0 && events[|events| - 1].at + Width(events[|events| - 1]) == to
    decreases |events|
  {
    if events != [] {
      var n := |events| - 1;
      var pre := events[..n];
      var e := events[n];
      var k := TileEnd(data, t, pre).value;
      ExplainsEachEvent(data, t, pre, k);
      assert forall i :: 0 <= i < n ==> events[i] == pre[i];
    }
  }

  /** The last message was delivered, and its handler left the slot closed. */
  predicate ClosedByLast(data: seq<byte>, t: Table, events: seq<Event>)
  {
    events != [] && events[|events| - 1].Delivered? &&
    var e := events[|events| - 1];
    0 <= e.at < |data| && Lookup(t, data[e.at] as int).Some? &&
    Lookup(t, data[e.at] as int).value.onReceive(Frame(data, e.at, e.width))
  }

  /** Why the loop stopped where it did, stated on the buffer and the tables. */
  predicate StopJustified(data: seq<byte>, t: Table, filter: seq<byte> -> bool, r: Run)
  {
    match r.stop
    case Exhausted => r.end >= |data|
    case Closed => 0 <= r.end < |data| && ClosedByLast(data, t, r.events)
    case Filtered => 0 <= r.end < |data| && filter(data[r.end..])
    case BadLength =>
      0 <= r.end < |data| && Lookup(t, data[r.end] as int).Some? &&
      Lookup(t, data[r.end] as int).value.checkLength(data, r.end) <= 0
  }

  /** One more justified event extends a tiling. */
  lemma ExplainsSnoc(data: seq<byte>, t: Table, events: seq<Event>, e: Event)
    requires Explains(data, t, events, e.at) && Justified(data, t, e)
    ensures Explains(data, t, events + [e], e.at + Width(e))
  {
    assert (events + [e])[..|events|] == events;
  }

  /** The tiling invariant of the loop, carried from `offset` to wherever the loop stops. */
  lemma {:induction false} RunFromTiles(data: seq<byte>, t: Table, filter: seq<byte> -> bool,
                                        offset: nat, closed: bool, events: seq<Event>)
    requires Explains(data, t, events, offset)
    ensures var r := RunFrom(data, t, filter, offset, closed, events); Explains(data, t, r.events, r.end)
    decreases |data| - offset
  {
    var r := RunFrom(data, t, filter, offset, closed, events);
    if offset >= |data| || closed || filter(data[offset..]) {
      assert r.events == events && r.end == offset;
    } else {
      var handler := Lookup(t, data[offset] as int);
      if handler.None? {
        var next := events + [Skipped(offset)];
        assert r == RunFrom(data, t, filter, offset + 1, closed, next);
        ExplainsSnoc(data, t, events, Skipped(offset));
        RunFromTiles(data, t, filter, offset + 1, closed, next);
      } else {
        var n := handler.value.checkLength(data, offset);
        if n > 0 {
          var next := events + [Delivered(offset, n)];
          var c := handler.value.onReceive(Frame(data, offset, n));
          assert r == RunFrom(data, t, filter, offset + n, c, next);
          ExplainsSnoc(data, t, events, Delivered(offset, n));
          RunFromTiles(data, t, filter, offset + n, c, next);
        } else {
          assert r.events == events && r.end == offset;
        }
      }
    }
  }

  /** The loop stops only for one of its four reasons, carried from `offset` on. */
  lemma {:induction false} RunFromStops(data: seq<byte>, t: Table, filter: seq<byte> -> bool,
                                        offset: nat, closed: bool, events: seq<Event>)
    requires closed && offset < |data| ==> ClosedByLast(data, t, events)
    ensures StopJustified(data, t, filter, RunFrom(data, t, filter, offset, closed, events))
    decreases |data| - offset
  {
    if offset < |data| && !closed && !filter(data[offset..]) {
      var handler := Lookup(t, data[offset] as int);
      if handler.None? {
        RunFromStops(data, t, filter, offset + 1, closed, events + [Skipped(offset)]);
      } else {
        var n := handler.value.checkLength(data, offset);
        if n > 0 {
          var next := events + [Delivered(offset, n)];
          var c := handler.value.onReceive(Frame(data, offset, n));
          assert c ==> ClosedByLast(data, t, next);
          RunFromStops(data, t, filter, offset + n, c, next);
        }
      }
    }
  }

  /**
   * The loop heeded the filter and the closed flag: no event was taken at an offset
   * where the filter vetoes the rest of the buffer, and no event follows a delivery
   * whose handler closed the slot.
   */
  predicate Heeded(data: seq<byte>, t: Table, filter: seq<byte> -> bool, events: seq<Event>)
  {
    (forall i :: 0 <= i < |events| ==> 0 <= events[i].at < |data| && !filter(data[events[i].at..])) &&
    (forall j :: 0 < j < |events| ==> !ClosedByLast(data, t, events[..j]))
  }

  /** An event taken at an unvetoed offset of an open slot keeps the loop heeded. */
  lemma HeededSnoc(data: seq<byte>, t: Table, filter: seq<byte> -> bool, events: seq<Event>, e: Event)
    requires Heeded(data, t, filter, events)
    requires 0 <= e.at < |data| && !filter(data[e.at..]) && !ClosedByLast(data, t, events)
    ensures Heeded(data, t, filter, events + [e])
  {
    var next := events + [e];
    forall j | 0 < j < |next|
      ensures !ClosedByLast(data, t, next[..j])
    {
      assert next[..j] == events[..j];
      if j == |events| {
        assert events[..j] == events;
      }
    }
    forall i | 0 <= i < |next|
      ensures 0 <= next[i].at < |data| && !filter(data[next[i].at..])
    {
      if i < |events| {
        assert next[i] == events[i];
      }
    }
  }

  /**
   * From `offset` on the loop keeps heeding the filter and the closed flag, `closed` being
   * exactly whether the last delivery closed the slot.
   */
  lemma {:induction false} RunFromHeeds(data: seq<byte>, t: Table, filter: seq<byte> -> bool,
                                        offset: nat, closed: bool, events: seq<Event>)
    requires Heeded(data, t, filter, events)
    requires closed == ClosedByLast(data, t, events)
    ensures Heeded(data, t, filter, RunFrom(data, t, filter, offset, closed, events).events)
    decreases |data| - offset
  {
    if offset < |data| && !closed && !filter(data[offset..]) {
      var handler := Lookup(t, data[offset] as int);
      if handler.None? {
        var next := events + [Skipped(offset)];
        HeededSnoc(data, t, filter, events, Skipped(offset));
        RunFromHeeds(data, t, filter, offset + 1, closed, next);
      } else {
        var n := handler.value.checkLength(data, offset);
        if n > 0 {
          var next := events + [Delivered(offset, n)];
          var c := handler.value.onReceive(Frame(data, offset, n));
          HeededSnoc(data, t, filter, events, Delivered(offset, n));
          assert c == ClosedByLast(data, t, next);
          RunFromHeeds(data, t, filter, offset + n, c, next);
        }
      }
    }
  }

  /**
   * The loop consumes the buffer in consecutive messages from offset 0: each unknown opcode
   * skips one byte, each known opcode the positive length its handler claimed. It ends
   * only when the buffer is exhausted, a handler closed the slot, the filter vetoed, or a
   * handler claimed a length of zero or less. No message is taken at an offset the filter
   * vetoes, and none after a handler closed the slot.
   */
  lemma DispatchExplained(data: seq<byte>, t: Table, filter: seq<byte> -> bool)
    ensures var r := Dispatched(data, t, filter);
      Explains(data, t, r.events, r.end) && StopJustified(data, t, filter, r)
    ensures var r := Dispatched(data, t, filter);
      (forall i :: 0 <= i < |r.events| ==> Justified(data, t, r.events[i])) &&
      (forall i :: 0 < i < |r.events| ==> r.events[i].at == r.events[i - 1].at + Width(r.events[i - 1])) &&
      (r.events == [] ==> r.end == 0) &&
      (r.events != [] ==> r.events[0].at == 0 && r.events[|r.events| - 1].at + Width(r.events[|r.events| - 1]) == r.end)
    ensures var r := Dispatched(data, t, filter);
      (forall i :: 0 <= i < |r.events| ==> !filter(data[r.events[i].at..])) &&
      (forall j :: 0 < j < |r.events| ==> !ClosedByLast(data, t, r.events[..j]))
  {
    var r := Dispatched(data, t, filter);
    RunFromTiles(data, t, filter, 0, false, []);
    RunFromStops(data, t, filter, 0, false, []);
    RunFromHeeds(data, t, filter, 0, false, []);
    ExplainsEachEvent(data, t, r.events, r.end);
  }
}
