/** Sending captured events: copy_ibs_entries and handle_get_ibs_buffer. The core is idle meanwhile:
    nothing else changes its buffer. */
module IbsTransfer {
  import opened Replies
  import opened Ibs

  const MAX_CORE_COUNT := 128
  const MAX_IBS_EVENTS_PER_PACKET := 64
  const HEADER_WORDS := 4

  // ---- what the receiver makes of packets ----

  /** Flags, stored events, room for events, events in this packet; then two words per event. */
  predicate WellFormed(p: Packet) {
    |p.words| >= HEADER_WORDS && |p.words| == HEADER_WORDS + 2 * p.words[3] as int
  }

  function Events(p: Packet): (r: seq<Event>)
    requires WellFormed(p)
    ensures |r| == p.words[3]
  {
    seq(p.words[3], k requires 0 <= k < p.words[3] => Unpack(p.words[4 + 2 * k], p.words[5 + 2 * k]))
  }

  function AllEvents(ps: seq<Packet>): seq<Event>
    requires forall p :: p in ps ==> WellFormed(p)
  {
    if ps == [] then [] else AllEvents(ps[..|ps| - 1]) + Events(ps[|ps| - 1])
  }

  /** At most count events from start on. */
  function Slice(stored: seq<Event>, start: int, count: int): seq<Event>
    requires 0 <= start && 0 <= count
  {
    if start >= |stored| then []
    else if start + count >= |stored| then stored[start..]
    else stored[start..start + count]
  }

  /** The events a request asks for; a count of 0 asks for all from start on. */
  function Requested(stored: seq<Event>, start: Word, count: Word): seq<Event> {
    Slice(stored, start, if count == 0 then |stored| else count)
  }

  // ---- copy_ibs_entries ----

  /** The payload holds the events, two words each, from word at on. */
  ghost predicate Holds(payload: array<Word>, at: nat, events: seq<Event>)
    reads payload
  {
    && at + 2 * |events| <= payload.Length
    && forall k :: 0 <= k < |events| ==> Unpack(payload[at + 2 * k], payload[at + 2 * k + 1]) == events[k]
  }

  method WriteEvent(payload: array<Word>, at: nat, target: nat, event: Event, ghost done: seq<Event>)
    requires target == at + 2 * |done| && Holds(payload, at, done) && target + 1 < payload.Length
    modifies payload
    ensures Holds(payload, at, done + [event])
    ensures payload[..at] == old(payload[..at])
  {
    UnpackPacked(event);
    payload[target] := FirstWord(event);
    payload[target + 1] := event.q2;
    forall k | 0 <= k < |done + [event]|
      ensures Unpack(payload[at + 2 * k], payload[at + 2 * k + 1]) == (done + [event])[k]
    {
      if k < |done| {
        assert at + 2 * k + 1 < target;
      }
    }
  }

  /** What copy_ibs_entries takes for the end; the sum wraps around. */
  function EndIndex(position: Word, start: Word, count: Word): Word {
    Min((start + count) % WORD64, position)
  }

  lemma EndIndexMeans(position: Word, start: Word, count: Word)
    requires start < position
    ensures var end := EndIndex(position, start, count);
            if start + count < WORD64 then
              start <= end && end - start == Min(count, position - start) && (end - start) % WORD64 == end - start
            else
              end < start && (end - start) % WORD64 != 0
  {
  }

  /** The loop of copy_ibs_entries. */
  method CopyRange(buffer: array<Event>, payload: array<Word>, at: nat, start: nat, end: nat)
    requires end <= buffer.Length
    requires at + (if start < end then 2 * (end - start) else 0) <= payload.Length
    modifies payload
    ensures payload[..at] == old(payload[..at])
    ensures start <= end ==> Holds(payload, at, buffer[start..end])
    ensures start >= end ==> payload[..] == old(payload[..])
  {
    var target := at;
    var i := start;
    while i < end
      invariant start <= i && (i <= end || i == start)
      invariant target == at + 2 * (i - start)
      invariant payload[..at] == old(payload[..at])
      invariant start < end ==> Holds(payload, at, buffer[start..i])
      invariant i == start ==> payload[..] == old(payload[..])
    {
      ghost var done := buffer[start..i];
      WriteEvent(payload, at, target, buffer[i], done);
      assert buffer[start..i + 1] == done + [buffer[i]];
      target := target + 2;
      i := i + 1;
    }
  }

  /** Copies the requested events to the payload, from word at on; the result is how many. A request
      whose end wraps around copies nothing, whatever the result says. */
  method CopyIbsEntries(control: IbsControl, payload: array<Word>, at: nat, start: Word, count: Word)
    returns (copied: Word)
    requires control.Shaped()
    requires start + count >= WORD64 ==> at <= payload.Length
    requires start + count < WORD64 ==> at + 2 * |Slice(control.Stored(), start, count)| <= payload.Length
    modifies payload
    ensures payload[..at] == old(payload[..at])
    ensures start + count < WORD64 ==>
              var events := Slice(control.Stored(), start, count); copied == |events| && Holds(payload, at, events)
    ensures start + count >= WORD64 ==>
              payload[..] == old(payload[..]) && (copied == 0 <==> control.currentPosition <= start)
  {
    hide Unpack, EndIndex;
    if control.currentPosition <= start {
      return 0;
    }
    var end := EndIndex(control.currentPosition, start, count);
    EndIndexMeans(control.currentPosition, start, count);
    CopyRange(control.eventBuffer, payload, at, start, end);
    if start + count < WORD64 {
      assert control.Stored()[start..end] == control.eventBuffer[start..end];
    }
    copied := (end - start) % WORD64;
  }

  // ---- handle_get_ibs_buffer ----

  /** What the handler looks at in the context of a core. */
  datatype CoreEntry = CoreEntry(present: int, started: int, control: IbsControl?)

  /** An error status, or the packets that were sent. */
  datatype Reply = Refused(code: int) | Sent(packets: seq<Packet>)

  ghost predicate Headed(p: Packet, stored: int) {
    WellFormed(p) && Sendable(p) && p.words[0] == 1 && p.words[1] == stored && p.words[2] == 0x4_0000
  }

  /** The full packets sent so far carry exactly events. */
  ghost predicate SentSoFar(sent: seq<Packet>, stored: int, events: seq<Event>) {
    && (forall p :: p in sent ==> Headed(p, stored) && p.words[3] == MAX_IBS_EVENTS_PER_PACKET && !p.last)
    && AllEvents(sent) == events
  }

  /** The whole transfer, as the receiver may rely on it: the events in order and nothing else; only
      the last packet is marked so; all others are full; none is too big for construct_message. */
  ghost predicate Complete(sent: seq<Packet>, stored: int, events: seq<Event>) {
    && sent != []
    && (forall i :: 0 <= i < |sent| ==>
          && Headed(sent[i], stored)
          && (sent[i].last <==> i == |sent| - 1)
          && (if i < |sent| - 1 then sent[i].words[3] == 64
              else events != [] ==> sent[i].words[3] > 0))
    && AllEvents(sent) == events
  }

  lemma OneMore(sent: seq<Packet>, p: Packet, stored: int, before: seq<Event>, events: seq<Event>)
    requires SentSoFar(sent, stored, before) && Headed(p, stored) && Events(p) == events
    ensures !p.last && |events| == MAX_IBS_EVENTS_PER_PACKET ==> SentSoFar(sent + [p], stored, before + events)
    ensures p.last && (before + events != [] ==> events != []) ==> Complete(sent + [p], stored, before + events)
  {
    assert (sent + [p])[..|sent + [p]| - 1] == sent;
  }

  ghost predicate HeaderIn(payload: array<Word>, stored: int)
    reads payload
  {
    payload.Length == PAYLOAD_WORDS && payload[0] == 1 && payload[1] == stored && payload[2] == MAX_IBS_ENTRIES
  }

  lemma HeaderKept(before: seq<Word>, payload: array<Word>, stored: int)
    requires payload.Length == PAYLOAD_WORDS && |before| == HEADER_WORDS && payload[..HEADER_WORDS] == before
    requires before[0] == 1 && before[1] == stored && before[2] == MAX_IBS_ENTRIES
    ensures HeaderIn(payload, stored)
  {
    assert payload[0] == before[0] && payload[1] == before[1] && payload[2] == before[2];
  }

  /** Fills in how many events the payload holds, and frames it. */
  method Flush(payload: array<Word>, stored: Word, copied: Word, last: bool, ghost events: seq<Event>)
    returns (p: Packet)
    requires payload.Length == PAYLOAD_WORDS && copied == |events| <= MAX_IBS_EVENTS_PER_PACKET
    requires HeaderIn(payload, stored)
    requires Holds(payload, HEADER_WORDS, events)
    modifies payload
    ensures HeaderIn(payload, stored)
    ensures Headed(p, stored) && Events(p) == events && p.last == last
  {
    payload[3] := copied;
    p := Packet(payload[..HEADER_WORDS + 2 * copied], last);
  }

  /** The packet loop, one round: copy the next events and send them. */
  method SendPacket(payload: array<Word>, control: IbsControl, startIndex: Word, eventsToSend: Word)
    returns (p: Packet, startIndex': Word, eventsToSend': Word)
    requires payload.Length == PAYLOAD_WORDS && control.Shaped() && HeaderIn(payload, control.currentPosition)
    requires 0 < eventsToSend && startIndex + eventsToSend <= control.currentPosition
    modifies payload
    ensures HeaderIn(payload, control.currentPosition)
    ensures eventsToSend' == eventsToSend - Min(MAX_IBS_EVENTS_PER_PACKET, eventsToSend)
    ensures startIndex' + eventsToSend' == startIndex + eventsToSend
    ensures Headed(p, control.currentPosition) && Events(p) == control.Stored()[startIndex..startIndex']
    ensures p.last <==> eventsToSend' == 0
  {
    hide Unpack, Holds, Headed, Events, WellFormed;
    var iterationEventsToSend := Min(MAX_IBS_EVENTS_PER_PACKET, eventsToSend);
    ghost var events := Slice(control.Stored(), startIndex, iterationEventsToSend);
    var copied := CopyIbsEntries(control, payload, HEADER_WORDS, startIndex, iterationEventsToSend);
    HeaderKept(old(payload[..HEADER_WORDS]), payload, control.currentPosition);
    eventsToSend' := 0;
    if copied <= eventsToSend { // it always is
      eventsToSend' := eventsToSend - copied;
    }
    startIndex' := startIndex + copied;
    p := Flush(payload, control.currentPosition, copied, eventsToSend' == 0, events);
  }

  method SendPackets(payload: array<Word>, control: IbsControl, start: Word, count: Word) returns (sent: seq<Packet>)
    requires payload.Length == PAYLOAD_WORDS && control.Shaped() && HeaderIn(payload, control.currentPosition)
    requires 0 < count && start + count <= control.currentPosition
    modifies payload
    ensures Complete(sent, control.currentPosition, control.Stored()[start..start + count])
  {
    hide Unpack, Headed, HeaderIn, Complete;
    var startIndex, eventsToSend := start, count;
    ghost var stored := control.Stored();
    sent := [];
    while eventsToSend > 0
      invariant start <= startIndex && startIndex as int + eventsToSend as int == start + count
      invariant HeaderIn(payload, control.currentPosition)
      invariant if eventsToSend > 0 then SentSoFar(sent, control.currentPosition, stored[start..startIndex])
                else Complete(sent, control.currentPosition, stored[start..startIndex])
    {
      ghost var from := startIndex;
      var p;
      p, startIndex, eventsToSend := SendPacket(payload, control, startIndex, eventsToSend);
      assert stored[start..startIndex] == stored[start..from] + stored[from..startIndex];
      OneMore(sent, p, control.currentPosition, stored[start..from], stored[from..startIndex]);
      sent := sent + [p];
    }
  }

  method SendNothing(payload: array<Word>, stored: Word) returns (sent: seq<Packet>)
    requires HeaderIn(payload, stored)
    modifies payload
    ensures Complete(sent, stored, [])
  {
    var p := Flush(payload, stored, 0, true, []);
    OneMore([], p, stored, [], []);
    sent := [p];
  }

  /** handle_get_ibs_buffer for a core that has a buffer. */
  method SendEvents(payload: array<Word>, control: IbsControl, startIndex: Word, entryCount: Word)
    returns (sent: seq<Packet>)
    requires payload.Length == PAYLOAD_WORDS && control.Shaped()
    modifies payload
    ensures Complete(sent, control.currentPosition, Requested(control.Stored(), startIndex, entryCount))
  {
    hide Complete, Holds, Requested, Slice, Unpack;
    var stored: Word := control.currentPosition;
    payload[0], payload[1], payload[2], payload[3] := 1, stored, MAX_IBS_ENTRIES, 0;
    assert HeaderIn(payload, stored);
    var count := if entryCount == 0 then stored else entryCount;
    // the difference wraps around for a start beyond the stored events
    var eventsToSend := Min(count, (stored - startIndex) % WORD64);
    EventsSelected(control.Stored(), startIndex, entryCount);
    if stored <= startIndex || count == 0 || eventsToSend == 0 {
      sent := SendNothing(payload, stored);
      return;
    }
    sent := SendPackets(payload, control, startIndex, eventsToSend);
  }

  /** The guard admits exactly the requests that ask for something; then the clamped range is what
      they ask for, and the difference has not wrapped around. */
  lemma EventsSelected(stored: seq<Event>, start: Word, entryCount: Word)
    requires |stored| < WORD64
    ensures var count := if entryCount == 0 then |stored| else entryCount;
            var eventsToSend := Min(count, (|stored| - start) % WORD64);
            if |stored| <= start || count == 0 || eventsToSend == 0 then Requested(stored, start, entryCount) == []
            else
              start + eventsToSend <= |stored|
              && stored[start..start + eventsToSend] == Requested(stored, start, entryCount)
  {
  }

  method HandleGetIbsBuffer(payload: array<Word>, cores: seq<CoreEntry>, length: nat, coreId: Word,
                              startIndex: Word, entryCount: Word)
    returns (r: Reply)
    requires payload.Length == PAYLOAD_WORDS && |cores| == MAX_CORE_COUNT
    requires forall c :: c in cores && c.control != null ==> c.control.Shaped()
    modifies payload
    ensures r == Refused(0x1) <==> length < 24
    ensures r == Refused(0x201) <==> length >= 24 && coreId >= 128
    ensures length >= 24 && coreId < 128 ==>
              var core := cores[coreId];
              if core.present != 1 then r == Refused(0x202)
              else if core.started != 1 then r == Refused(0x203)
              else if core.control == null then r == Sent([Packet([0, 0, 0, 0], true)])
              else r.Sent? && Complete(r.packets, core.control.currentPosition,
                                       Requested(core.control.Stored(), startIndex, entryCount))
  {
    if length < 24 { return Refused(0x1); }
    if coreId >= MAX_CORE_COUNT { return Refused(0x201); }
    var core := cores[coreId];
    if core.present != 1 { return Refused(0x202); }
    if core.started != 1 { return Refused(0x203); }
    if core.control == null {
      payload[0], payload[1], payload[2], payload[3] := 0, 0, 0, 0;
      assert payload[..HEADER_WORDS] == [0, 0, 0, 0];
      return Sent([Packet(payload[..HEADER_WORDS], true)]);
    }
    assert core in cores;
    var sent := SendEvents(payload, core.control, startIndex, entryCount);
    return Sent(sent);
  }
}
