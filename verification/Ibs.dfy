/** Capturing IBS samples: packing the sample registers into an event, the filter, the bounded
    buffer, and programming the sample offset. Words that are only taken apart are integers below
    2^64; the control register, in which single fields are replaced, is a bit vector. */
module Ibs {
  import opened Replies

  const MAX_IBS_ENTRIES: nat := 64 * 1024 * 4

  // ---- one sample ----

  /** The MSRs that store_ibs_entry reads. */
  datatype Sample = Sample(control: Word, data1: Word, data2: Word, data3: Word, phys: Word, lin: Word)

  type Bit = b: int | 0 <= b < 2
  type Bits3 = b: int | 0 <= b < 8
  type Bits4 = b: int | 0 <= b < 16
  type Bits36 = b: int | 0 <= b < 0x10_0000_0000

  /** IBSEvent: the bit fields of the first word, and the second word. */
  datatype Event = Event(
    phys: Bits36, microcode: Bit, dataSource: Bits3, size: Bits4, prefetch: Bit, physValid: Bit,
    linearValid: Bit, uncachable: Bit, store: Bit, load: Bit, valid: Bit, q2: Word)

  /** What store_ibs_entry makes of a sample. If the linear address is not valid, its low 12 bits
      give way to those of the physical address. */
  function Pack(s: Sample): Event {
    var linearValid := s.data3 / 0x2_0000 % 2;
    Event(
      s.phys / 0x1000 % 0x10_0000_0000,
      s.data1 / 0x80_0000 % 2, s.data2 / 0x2000_0000_0000_0000 % 8, s.data3 / 0x40_0000 % 16,
      s.data3 / 0x20_0000 % 2, s.data3 / 0x4_0000 % 2, linearValid, s.data3 / 0x4000 % 2,
      s.data3 / 2 % 2, s.data3 % 2, s.control / 0x4_0000 % 2,
      if linearValid == 0 then s.lin / 0x1000 * 0x1000 + s.phys % 0x1000 else s.lin)
  }

  /** How a reader of events puts the physical address together. */
  function PhysicalOf(e: Event): int { e.phys * 0x1000 + e.q2 % 0x1000 }

  /** The physical address comes back exactly if it has at most 48 bits and its low 12 bits were
      either taken from it (linear address invalid) or shared by the linear address. The linear
      address keeps its upper 52 bits, and all of them when it is valid. */
  lemma AddressesRecovered(s: Sample)
    ensures var e := Pack(s);
            PhysicalOf(e) == s.phys <==>
              s.phys < 0x1_0000_0000_0000 && (e.linearValid == 0 || s.lin % 0x1000 == s.phys % 0x1000)
    ensures Pack(s).q2 / 0x1000 == s.lin / 0x1000
    ensures Pack(s).linearValid != 0 ==> Pack(s).q2 == s.lin
  {
  }

  // ---- the first word of an event, as it is stored and sent ----

  /** The bit fields, the least significant first. */
  function FirstWord(e: Event): (w: Word)
    ensures w < 0x8_0000_0000_0000
  {
    e.phys + 0x10_0000_0000 * (e.microcode + 2 * (e.dataSource + 8 * (e.size + 16 * HighFields(e))))
  }

  function HighFields(e: Event): (h: int)
    ensures 0 <= h < 128
  {
    e.prefetch + 2 * (e.physValid + 2 * (e.linearValid + 2 * (
      e.uncachable + 2 * (e.store + 2 * (e.load + 2 * e.valid)))))
  }

  /** Taking an event apart again, field by field. */
  function Unpack(q1: Word, q2: Word): Event {
    var r := q1 / 0x10_0000_0000;
    var high := r / 2 / 8 / 16;
    Event(q1 % 0x10_0000_0000, r % 2, r / 2 % 8, r / 2 / 8 % 16,
          high % 2, high / 2 % 2, high / 2 / 2 % 2, high / 2 / 2 / 2 % 2, high / 2 / 2 / 2 / 2 % 2,
          high / 2 / 2 / 2 / 2 / 2 % 2, high / 2 / 2 / 2 / 2 / 2 / 2 % 2, q2)
  }

  /** No two fields overlap: an event is recovered from its two words. */
  lemma UnpackPacked(e: Event)
    ensures Unpack(FirstWord(e), e.q2) == e
  {
    hide HighFields;
    LowFieldsApart(e.phys, e.microcode, e.dataSource, e.size, HighFields(e));
    HighPartApart(e);
  }

  lemma HighPartApart(e: Event)
    ensures var high := HighFields(e);
            && high % 2 == e.prefetch && high / 2 % 2 == e.physValid && high / 2 / 2 % 2 == e.linearValid
            && high / 2 / 2 / 2 % 2 == e.uncachable && high / 2 / 2 / 2 / 2 % 2 == e.store
            && high / 2 / 2 / 2 / 2 / 2 % 2 == e.load && high / 2 / 2 / 2 / 2 / 2 / 2 % 2 == e.valid
  {
    HighFieldsApart(e.prefetch, e.physValid, e.linearValid, e.uncachable, e.store, e.load, e.valid);
  }

  lemma LowFieldsApart(phys: int, microcode: int, dataSource: int, size: int, high: int)
    requires 0 <= phys < 0x10_0000_0000 && 0 <= microcode < 2 && 0 <= dataSource < 8
    requires 0 <= size < 16 && 0 <= high < 128
    ensures var w := phys + 0x10_0000_0000 * (microcode + 2 * (dataSource + 8 * (size + 16 * high)));
            var r := w / 0x10_0000_0000;
            && w % 0x10_0000_0000 == phys && r % 2 == microcode && r / 2 % 8 == dataSource && r / 2 / 8 % 16 == size
            && r / 2 / 8 / 16 == high && 0 <= w < 0x8_0000_0000_0000
  {
  }

  lemma HighFieldsApart(a: int, b: int, c: int, d: int, e: int, f: int, g: int)
    requires 0 <= a < 2 && 0 <= b < 2 && 0 <= c < 2 && 0 <= d < 2 && 0 <= e < 2 && 0 <= f < 2 && 0 <= g < 2
    ensures var w := a + 2 * (b + 2 * (c + 2 * (d + 2 * (e + 2 * (f + 2 * g)))));
            && w % 2 == a && w / 2 % 2 == b && w / 2 / 2 % 2 == c && w / 2 / 2 / 2 % 2 == d
            && w / 2 / 2 / 2 / 2 % 2 == e
            && w / 2 / 2 / 2 / 2 / 2 % 2 == f && w / 2 / 2 / 2 / 2 / 2 / 2 == g && 0 <= w < 128
  {
  }

  // ---- set_ibs_offset on the execution control register ----

  /** The register after set_ibs_offset: current count in bits 32-58, maximum count in bits 0-15 and
      20-26. */
  function WithOffset(control: bv64, offset: bv64): bv64 {
    var maxCount: bv64 := (1 << 20) >> 4;
    var currentCount: bv64 := (1 << 20) - offset;
    var c1 := (control & !0x7FF_FFFF_0000_0000) | ((currentCount & 0x7FF_FFFF) << 32);
    var c2 := (c1 & !0xFFFF) | (maxCount & 0xFFFF);
    (c2 & !0x7F0_0000) | (((maxCount >> 16) & 0x7F) << 20)
  }

  /** The count at which the hardware takes a sample, which the register holds in units of 16. */
  function MaxCount(control: bv64): bv64 { ((control & 0xFFFF) | (((control >> 20) & 0x7F) << 16)) << 4 }

  function CurrentCount(control: bv64): bv64 { (control >> 32) & 0x7FF_FFFF }

  /** The distance to the sample is the requested offset, for offsets up to 2^20 and only for them;
      no other control bit changes. */
  lemma OffsetProgrammed(control: bv64, offset: bv64)
    ensures var r := WithOffset(control, offset);
            && (CurrentCount(r) <= MaxCount(r) && MaxCount(r) - CurrentCount(r) == offset <==> offset <= 0x10_0000)
            && r & !0x7FF_FFFF_07F0_FFFF == control & !0x7FF_FFFF_07F0_FFFF
  {
    CountsRead(control, (1 << 20) - offset);
    DistanceIsOffset(offset);
  }

  /** The maximum is 2^20 in units of 16, that is 2^16: bits 0-15 are zero and bits 20-26 hold 1. Bits 32-58
      hold what is missing from it. */
  lemma OffsetPlaced(control: bv64, offset: bv64)
    ensures var r := WithOffset(control, offset);
            r & 0xFFFF == 0 && (r >> 20) & 0x7F == 1 && (r >> 32) & 0x7FF_FFFF == (0x10_0000 - offset) & 0x7FF_FFFF
  {
    CountsRead(control, (1 << 20) - offset);
  }

  lemma CountsRead(control: bv64, current: bv64)
    ensures var c1 := (control & !0x7FF_FFFF_0000_0000) | ((current & 0x7FF_FFFF) << 32);
            var r := (((c1 & !0xFFFF) | 0) & !0x7F0_0000) | (1 << 20);
            && (r >> 32) & 0x7FF_FFFF == current & 0x7FF_FFFF
            && r & 0xFFFF == 0 && (r >> 20) & 0x7F == 1
            && ((r & 0xFFFF) | (((r >> 20) & 0x7F) << 16)) << 4 == 0x10_0000
            && r & !0x7FF_FFFF_07F0_FFFF == control & !0x7FF_FFFF_07F0_FFFF
  {}

  lemma DistanceIsOffset(offset: bv64)
    ensures var current := (0x10_0000 - offset) & 0x7FF_FFFF;
            current <= 0x10_0000 && 0x10_0000 - current == offset <==> offset <= 0x10_0000
  {}

  // ---- the filter ----

  const FILTER_ALL := 0
  const FILTER_ALU := 1
  const FILTER_LOAD := 2
  const FILTER_STORE := 3
  const FILTER_LOAD_STORE := 4
  const FILTER_UPDATE := 5

  predicate ShouldStore(filter: int, e: Event) {
    if filter == FILTER_ALU then e.load == 0 && e.store == 0
    else if filter == FILTER_LOAD then e.load == 1 && e.store == 0
    else if filter == FILTER_STORE then e.load == 0 && e.store == 1
    else if filter == FILTER_LOAD_STORE then e.load == 1 || e.store == 1
    else if filter == FILTER_UPDATE then e.load == 1 && e.store == 1
    else true
  }

  // ---- what the buffer should hold, told from everything that happened ----

  datatype Op =
    | Sampled(s: Sample)     // store_ibs_entry
    | Cleared                // clear_ibs_results
    | ClearedAndReset        // clear_ibs_results_reset_filter
    | Recovered              // init_ibs_on_core, at start and after each recovered fault
    | FilterSet(filter: int) // the job writes ibs_filter

  predicate Clears(op: Op) { op.Cleared? || op.ClearedAndReset? }

  function FilterAfter(log: seq<Op>): int {
    if log == [] then FILTER_ALL
    else match log[|log| - 1]
      case FilterSet(f) => f
      case ClearedAndReset => FILTER_ALL
      case Recovered => FILTER_ALL
      case _ => FilterAfter(log[..|log| - 1])
  }

  /** Operation i is a sample that passed the filter in force at that time and was not cleared since. */
  predicate Kept(log: seq<Op>, i: nat)
    requires i < |log|
  {
    && log[i].Sampled?
    && ShouldStore(FilterAfter(log[..i]), Pack(log[i].s))
    && forall j :: i < j < |log| ==> !Clears(log[j])
  }

  /** The kept samples among the first n operations, in order. */
  function Captured(log: seq<Op>, n: nat): seq<Event>
    requires n <= |log|
  {
    if n == 0 then [] else Captured(log, n - 1) + if Kept(log, n - 1) then [Pack(log[n - 1].s)] else []
  }

  lemma {:induction false} CapturedExtended(log: seq<Op>, op: Op, n: nat)
    requires n <= |log|
    ensures Captured(log + [op], n) == if Clears(op) then [] else Captured(log, n)
  {
    hide Pack, ShouldStore, FilterAfter;
    if n > 0 {
      CapturedExtended(log, op, n - 1);
      var i := n - 1;
      var log' := log + [op];
      assert log'[..i] == log[..i];
      assert log'[|log|] == op;
      if !Clears(op) && Kept(log, i) {
        forall j | i < j < |log'|
          ensures !Clears(log'[j])
        {
        }
      }
      if Kept(log', i) {
        forall j | i < j < |log|
          ensures !Clears(log[j])
        {
          assert log'[j] == log[j];
        }
      }
    }
  }

  /** One more operation, seen from what was captured before it. */
  lemma CapturedNext(log: seq<Op>, op: Op)
    ensures var all, all' := Captured(log, |log|), Captured(log + [op], |log| + 1);
            all' == if Clears(op) then []
                    else if op.Sampled? && ShouldStore(FilterAfter(log), Pack(op.s)) then all + [Pack(op.s)]
                    else all
  {
    hide Pack, ShouldStore;
    CapturedExtended(log, op, |log|);
    assert (log + [op])[..|log|] == log;
  }

  function Truncated(s: seq<Event>): seq<Event> { if |s| <= MAX_IBS_ENTRIES then s else s[..MAX_IBS_ENTRIES] }

  // ---- the control structure ----

  class IbsControl {
    var eventBuffer: array<Event>
    var currentPosition: nat
    var ibsFilter: int
    ghost var log: seq<Op>

    predicate Shaped()
      reads this
    {
      eventBuffer.Length == MAX_IBS_ENTRIES && currentPosition <= MAX_IBS_ENTRIES
    }

    ghost function Stored(): seq<Event>
      requires Shaped()
      reads this, eventBuffer
    {
      eventBuffer[..currentPosition]
    }

    /** What is stored is the first MAX_IBS_ENTRIES of the captured samples. */
    ghost predicate Valid()
      reads this, eventBuffer
    {
      && Shaped()
      && ibsFilter == FilterAfter(log)
      && Stored() == Truncated(Captured(log, |log|))
    }

    constructor (zero: Event)
      ensures Valid() && log == [] && fresh(eventBuffer)
    {
      eventBuffer := new Event[MAX_IBS_ENTRIES](i => zero);
      currentPosition := 0;
      ibsFilter := FILTER_ALL;
      log := [];
    }

    /** store_ibs_entry: returns the room that is left. Bits 0 and 1 of the third data register tell loads
        and stores. */
    method StoreIbsEntry(s: Sample) returns (room: nat)
      requires Valid()
      modifies this`currentPosition, this`log, eventBuffer
      ensures Valid() && log == old(log) + [Sampled(s)]
      ensures var load, store := s.data3 % 2 == 1, s.data3 / 2 % 2 == 1;
              var passes :=
                && (ibsFilter == 1 ==> !load && !store) && (ibsFilter == 2 ==> load && !store)
                && (ibsFilter == 3 ==> !load && store) && (ibsFilter == 4 ==> load || store)
                && (ibsFilter == 5 ==> load && store);
              Stored() == old(Stored()) + if old(currentPosition) < MAX_IBS_ENTRIES && passes then [Pack(s)] else []
      ensures room == MAX_IBS_ENTRIES - currentPosition
    {
      CapturedNext(log, Sampled(s));
      log := log + [Sampled(s)];
      if currentPosition >= MAX_IBS_ENTRIES {
        return 0;
      }
      var event := Pack(s);
      if !ShouldStore(ibsFilter, event) {
        return MAX_IBS_ENTRIES - currentPosition;
      }
      eventBuffer[currentPosition] := event;
      currentPosition := currentPosition + 1;
      room := MAX_IBS_ENTRIES - currentPosition;
    }

    method ClearIbsResults() returns (room: nat)
      requires Valid()
      modifies this`currentPosition, this`log
      ensures Valid() && log == old(log) + [Cleared]
      ensures currentPosition == 0 && room == 0x4_0000
    {
      CapturedNext(log, Cleared);
      log := log + [Cleared];
      currentPosition := 0;
      room := MAX_IBS_ENTRIES;
    }

    method ClearIbsResultsResetFilter() returns (room: nat)
      requires Valid()
      modifies this`currentPosition, this`ibsFilter, this`log
      ensures Valid() && log == old(log) + [ClearedAndReset]
      ensures currentPosition == 0 && room == 0x4_0000
    {
      CapturedNext(log, ClearedAndReset);
      log := log + [ClearedAndReset];
      ibsFilter := FILTER_ALL;
      currentPosition := 0;
      room := MAX_IBS_ENTRIES;
    }

    /** init_ibs_on_core as far as this structure goes: recovery keeps the events. */
    method InitIbsOnCore()
      requires Valid()
      modifies this`ibsFilter, this`log
      ensures Valid() && log == old(log) + [Recovered]
    {
      CapturedNext(log, Recovered);
      log := log + [Recovered];
      ibsFilter := FILTER_ALL;
    }

    method SetFilter(filter: int)
      requires Valid()
      modifies this`ibsFilter, this`log
      ensures Valid() && log == old(log) + [FilterSet(filter)]
    {
      CapturedNext(log, FilterSet(filter));
      log := log + [FilterSet(filter)];
      ibsFilter := filter;
    }
  }
}
