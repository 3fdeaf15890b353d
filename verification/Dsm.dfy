/** Reading out the hardware's capture ring: store_dsm_capture. */
module Dsm {
  import opened Replies

  const MAXIMUM_DSM_ENTRIES := 128

  datatype Event = Event(data0: Word, data1: Word)

  function Zero(): Event { Event(0, 0) }

  // ---- the ring ----

  /** The ring after recording events, if prepare_dsm_capture left it all zero and at entry 0. */
  function Ring(events: seq<Event>): (r: seq<Event>)
    ensures |r| == MAXIMUM_DSM_ENTRIES
  {
    if events == [] then seq(MAXIMUM_DSM_ENTRIES, i => Zero())
    else
      var n := |events| - 1;
      Ring(events[..n])[n % MAXIMUM_DSM_ENTRIES := events[n]]
  }

  /** The last 128 events, the oldest first, after zeros where there were fewer. */
  function Latest(events: seq<Event>): (r: seq<Event>)
    ensures |r| == MAXIMUM_DSM_ENTRIES
  {
    var n := |events|;
    if n >= MAXIMUM_DSM_ENTRIES then events[n - MAXIMUM_DSM_ENTRIES..]
    else seq(MAXIMUM_DSM_ENTRIES - n, i => Zero()) + events
  }

  /** The ring read from entry o around to the entry before it. */
  function Unrolled(ring: seq<Event>, o: nat): seq<Event>
    requires o <= |ring|
  {
    ring[o..] + ring[..o]
  }

  /** Entry k counted from entry o, around the end. */
  function Around(o: nat, k: nat): (p: nat)
    requires o < MAXIMUM_DSM_ENTRIES && k < MAXIMUM_DSM_ENTRIES
    ensures p < MAXIMUM_DSM_ENTRIES
  {
    if o + k < MAXIMUM_DSM_ENTRIES then o + k else o + k - MAXIMUM_DSM_ENTRIES
  }

  lemma AroundIsMasked(o: nat, k: nat)
    requires o < MAXIMUM_DSM_ENTRIES && k < MAXIMUM_DSM_ENTRIES
    ensures Around(o, k) == (o + k) % MAXIMUM_DSM_ENTRIES
  {
  }

  /** Once an entry is written, all others move one place nearer to being the oldest. */
  lemma AroundNext(n: nat, k: nat)
    requires k < MAXIMUM_DSM_ENTRIES
    ensures var o, o' := n % MAXIMUM_DSM_ENTRIES, (n + 1) % MAXIMUM_DSM_ENTRIES;
            if k < MAXIMUM_DSM_ENTRIES - 1 then Around(o', k) == Around(o, k + 1) != o else Around(o', k) == o
  {
    var o := n % MAXIMUM_DSM_ENTRIES;
    assert (n + 1) % MAXIMUM_DSM_ENTRIES == if o == MAXIMUM_DSM_ENTRIES - 1 then 0 else o + 1;
  }

  /** Entry k of the ring, counted from the next one to be written, is the k-th of the latest events. */
  lemma {:induction false} RingAt(events: seq<Event>, k: nat)
    requires k < MAXIMUM_DSM_ENTRIES
    ensures Ring(events)[Around(|events| % MAXIMUM_DSM_ENTRIES, k)] == Latest(events)[k]
  {
    hide Latest, Around;
    if events == [] {
      LatestOfNone(k);
    } else {
      var n := |events| - 1;
      AroundNext(n, k);
      OneMoreEvent(events, k);
      if k < MAXIMUM_DSM_ENTRIES - 1 {
        RingAt(events[..n], k + 1);
      }
    }
  }

  lemma LatestOfNone(k: nat)
    requires k < MAXIMUM_DSM_ENTRIES
    ensures Latest([])[k] == Zero()
  {
  }

  lemma OneMoreEvent(events: seq<Event>, k: nat)
    requires events != [] && k < MAXIMUM_DSM_ENTRIES
    ensures Latest(events)[k] ==
            if k < MAXIMUM_DSM_ENTRIES - 1 then Latest(events[..|events| - 1])[k + 1] else events[|events| - 1]
  {
  }

  /** Reading around from entry o, entry by entry. */
  lemma UnrolledAt(ring: seq<Event>, o: nat, read: seq<Event>)
    requires |ring| == |read| == MAXIMUM_DSM_ENTRIES && o < MAXIMUM_DSM_ENTRIES
    requires forall i :: 0 <= i < MAXIMUM_DSM_ENTRIES ==> read[i] == ring[Around(o, i)]
    ensures read == Unrolled(ring, o)
  {
  }

  /** Reading the ring from the next entry to be written yields the latest events in the order in
      which they happened, however often the ring has wrapped around. */
  lemma UnrolledInOrder(events: seq<Event>)
    ensures Unrolled(Ring(events), |events| % MAXIMUM_DSM_ENTRIES) == Latest(events)
  {
    hide Ring, Latest, Unrolled, Around;
    var o := |events| % MAXIMUM_DSM_ENTRIES;
    forall k | 0 <= k < MAXIMUM_DSM_ENTRIES
      ensures Latest(events)[k] == Ring(events)[Around(o, k)]
    {
      RingAt(events, k);
    }
    UnrolledAt(Ring(events), o, Latest(events));
  }

  // ---- store_dsm_capture ----

  class DsmControl {
    const eventBuffer: array<Event>
    var indexInfo: Word
    var numItems: Word

    constructor ()
      ensures fresh(eventBuffer) && eventBuffer.Length == MAXIMUM_DSM_ENTRIES && numItems == 0
    {
      eventBuffer := new Event[MAXIMUM_DSM_ENTRIES](i => Zero());
      indexInfo, numItems := 0, 0;
    }

    /** Bits 48 to 54 of the index register name the next entry to be written. For whatever the
        ring has recorded, the buffer then lists the latest events in order. */
    method StoreDsmCapture(indexRegister: Word, ring: seq<Event>, ghost events: seq<Event>)
      requires eventBuffer.Length == MAXIMUM_DSM_ENTRIES && |ring| == MAXIMUM_DSM_ENTRIES
      modifies this, eventBuffer
      ensures eventBuffer[..] == Unrolled(ring, indexRegister / 0x1_0000_0000_0000 % 128)
      ensures indexInfo == indexRegister && numItems == 128
      ensures ring == Ring(events) &&
              indexRegister / 0x1_0000_0000_0000 % MAXIMUM_DSM_ENTRIES == |events| % MAXIMUM_DSM_ENTRIES ==>
                eventBuffer[..] == Latest(events)
    {
      indexInfo := indexRegister;
      var indexOffset := indexRegister / 0x1_0000_0000_0000 % MAXIMUM_DSM_ENTRIES;
      for index := 0 to MAXIMUM_DSM_ENTRIES
        invariant indexInfo == indexRegister
        invariant forall i :: 0 <= i < index ==> eventBuffer[i] == ring[Around(indexOffset, i)]
      {
        AroundIsMasked(indexOffset, index);
        eventBuffer[index] := ring[(indexOffset + index) % MAXIMUM_DSM_ENTRIES];
      }
      numItems := MAXIMUM_DSM_ENTRIES;
      UnrolledAt(ring, indexOffset, eventBuffer[..]);
      UnrolledInOrder(events);
    }
  }
}
