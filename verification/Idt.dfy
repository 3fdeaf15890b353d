/** The interrupt descriptor table of one core, as init_fault_handlers_on_core builds it. */
module Idt {
  import opened Replies

  type Half = h: int | 0 <= h < 0x1_0000
  type Long = w: int | 0 <= w < 0x1_0000_0000
  type Octet = b: int | 0 <= b < 0x100

  const CODE_SEGMENT: Half := 0x38
  const ENTRIES := 0x100
  const HANDLERS := 22                // length of proto_fault_handlers_offsets
  const HANDLERS_COUNT := 21          // proto_fault_handlers_count

  datatype Entry = Entry(
    offsetLow: Half, segmentSelector: Half, ist: Octet, attributes: Octet,
    offsetMid: Half, offsetHigh: Long, reserved: Long)

  /** Where the processor finds the handler (section 8.9.1 of the AMD64 Architecture Programmer's
      Manual Volume 2: the target offset is held in three parts). */
  function TargetOf(e: Entry): Word { e.offsetLow + 0x1_0000 * e.offsetMid + 0x1_0000_0000 * e.offsetHigh }

  /** A present 64-bit interrupt gate of privilege level 0 on the current stack. */
  predicate IsGate(e: Entry) {
    e.segmentSelector == CODE_SEGMENT && e.ist == 0 && e.attributes == 0x8E && e.reserved == 0
  }

  function Split(address: Word): Entry {
    Entry(address % 0x1_0000, CODE_SEGMENT, 0, 0x8E, address / 0x1_0000 % 0x1_0000, address / 0x1_0000_0000, 0)
  }

  /** The three parts of an address put together again are the address, for every 64-bit address. */
  lemma Reassembled(address: Word)
    ensures TargetOf(Split(address)) == address
  {
    var high := address / 0x1_0000;
    assert address == high * 0x1_0000 + address % 0x1_0000;
    assert high == high / 0x1_0000 * 0x1_0000 + high % 0x1_0000;
    assert high / 0x1_0000 == address / 0x1_0000_0000;
  }

  /** The entries whose vector has a handler of its own lead to this core's copy of it; the others
      to this core's copy of the fallback handler. */
  method InitFaultHandlersOnCore(handlers: Word, offsets: seq<Word>, fallback: Word) returns (idt: array<Entry>)
    requires |offsets| == HANDLERS
    ensures fresh(idt) && idt.Length == 256
    ensures forall i :: 0 <= i < 256 ==>
              && IsGate(idt[i]) && idt[i].segmentSelector == 0x38
              && TargetOf(idt[i]) == (handlers + if i <= 20 then offsets[i] else fallback) % WORD64
  {
    idt := new Entry[ENTRIES](i => Entry(0, 0, 0, 0, 0, 0, 0));
    for i := 0 to ENTRIES
      invariant forall j :: 0 <= j < i ==>
                  && IsGate(idt[j])
                  && TargetOf(idt[j]) == (handlers + if j < HANDLERS_COUNT then offsets[j] else fallback) % WORD64
    {
      var handlerAddress: Word := (handlers + fallback) % WORD64;
      if i < HANDLERS_COUNT {
        handlerAddress := (handlers + offsets[i]) % WORD64;
      }
      Reassembled(handlerAddress);
      idt[i] := Split(handlerAddress);
    }
  }
}
