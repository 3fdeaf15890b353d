/** Sending a page table in packets: send_table, write_entry and send_pageinfo_message. */
module PageTransfer {
  import opened Replies

  const MAX_ENTRIES_PER_PACKET := 80

  // ---- what the receiver makes of packets ----

  /** One table entry: its index in the table, the paging level, and the entry itself. */
  datatype Item = Item(position: int, level: int, entry: Word)

  /** Only the low 24 bits of the first word of an entry are meaningful. */
  function ItemOf(tag: Word, entry: Word): Item {
    Item(tag as int % 0x1_0000, tag as int / 0x1_0000 % 0x100, entry)
  }

  function ItemAt(words: seq<Word>, i: nat): Item
    requires 4 + 2 * i < |words|
  {
    ItemOf(words[3 + 2 * i], words[4 + 2 * i])
  }

  /** Header of three words (flags, CR3, number of entries), then two words per entry. */
  predicate WellFormed(p: Packet) { |p.words| >= 3 && |p.words| == 3 + 2 * p.words[2] as int }

  function Items(p: Packet): (r: seq<Item>)
    requires WellFormed(p)
    ensures |r| == p.words[2]
  {
    seq(p.words[2], i requires 0 <= i < p.words[2] => ItemAt(p.words, i))
  }

  function AllItems(ps: seq<Packet>): seq<Item>
    requires forall p :: p in ps ==> WellFormed(p)
  {
    if ps == [] then [] else AllItems(ps[..|ps| - 1]) + Items(ps[|ps| - 1])
  }

  /** The table as it should arrive. */
  function Listing(table: seq<Word>, level: int): seq<Item> {
    seq(|table|, i requires 0 <= i < |table| => Item(i, level, table[i]))
  }

  // ---- the sender ----

  /** The first word of an entry: two bytes of position, one of level, and five stale ones. */
  function Tagged(stale: Word, position: nat, level: nat): (w: Word)
    requires position < 0x1_0000 && level < 0x100
    ensures w % 0x1_0000 == position && w / 0x1_0000 % 0x100 == level
  {
    var high := stale / 0x100_0000 * 0x100 + level;
    KeepsPosition(high, position);
    high * 0x1_0000 + position
  }

  lemma KeepsPosition(high: int, low: int)
    requires 0 <= low < 0x1_0000
    ensures (high * 0x1_0000 + low) % 0x1_0000 == low && (high * 0x1_0000 + low) / 0x1_0000 == high
  {
  }

  method WriteEntry(payload: array<Word>, at: nat, entry: Word, position: nat, level: nat)
    requires at + 1 < payload.Length && position < 0x1_0000 && level < 0x100
    modifies payload
    ensures forall x :: 0 <= x < at ==> payload[x] == old(payload[x])
    ensures ItemOf(payload[at], payload[at + 1]) == Item(position, level, entry)
  {
    payload[at] := Tagged(payload[at], position, level);
    payload[at + 1] := entry;
  }

  method SendPageinfoMessage(payload: array<Word>, entries: nat, last: bool) returns (p: Packet)
    requires payload.Length == PAYLOAD_WORDS && entries <= MAX_ENTRIES_PER_PACKET
    modifies payload
    ensures payload[..2] == old(payload[..2])
    ensures p == Packet(payload[..2] + [entries as Word] + old(payload[3..3 + 2 * entries]), last)
    ensures WellFormed(p) && p.words[2] == entries && Sendable(p)
  {
    payload[2] := entries;
    p := Packet(payload[..3 + 2 * entries], last);
    assert payload[3..3 + 2 * entries] == old(payload[3..3 + 2 * entries]);
  }

  /** Entries from..to of the table are in the buffer. */
  ghost predicate Buffered(payload: array<Word>, table: seq<Word>, level: int, from: nat, to: nat)
    requires payload.Length == PAYLOAD_WORDS
    requires from <= to <= |table| && to - from <= MAX_ENTRIES_PER_PACKET
    reads payload
  {
    forall k :: 0 <= k < to - from ==>
      ItemOf(payload[3 + 2 * k], payload[4 + 2 * k]) == Item(from + k, level, table[from + k])
  }

  /** A packet with the entries from..to of the table. */
  ghost predicate Carries(p: Packet, table: seq<Word>, level: int, from: nat, to: nat)
    requires from <= to <= |table|
  {
    WellFormed(p) && Sendable(p) && Items(p) == Listing(table, level)[from..to]
  }

  /** Sending what is buffered yields such a packet. */
  method Flush(payload: array<Word>, table: seq<Word>, level: nat, ghost from: nat, ghost to: nat,
               entries: nat, last: bool)
    returns (p: Packet)
    requires payload.Length == PAYLOAD_WORDS && from <= to <= |table| && entries == to - from <= MAX_ENTRIES_PER_PACKET
    requires Buffered(payload, table, level, from, to)
    modifies payload
    ensures payload[0] == old(payload[0]) && payload[1] == old(payload[1])
    ensures Carries(p, table, level, from, to) && p.last == last
    ensures p.words[0] == payload[0] && p.words[1] == payload[1] && p.words[2] == entries
  {
    p := SendPageinfoMessage(payload, entries, last);
    assert payload[..2][0] == old(payload[..2])[0] && payload[..2][1] == old(payload[..2])[1];
    ghost var body := old(payload[3..3 + 2 * entries]);
    forall k | 0 <= k < entries
      ensures Items(p)[k] == Listing(table, level)[from..to][k]
    {
      assert p.words[3 + 2 * k] == body[2 * k] && p.words[4 + 2 * k] == body[2 * k + 1];
    }
  }

  /** The full packets sent before entry from: 80 entries each, none of them marked last. */
  ghost predicate SentSoFar(sent: seq<Packet>, table: seq<Word>, level: int, flags: Word, cr3: Word, from: nat)
    requires from <= |table|
  {
    && from == MAX_ENTRIES_PER_PACKET * |sent|
    && (forall p :: p in sent ==>
          WellFormed(p) && Sendable(p) && p.words[0] == flags && p.words[1] == cr3
          && p.words[2] == MAX_ENTRIES_PER_PACKET && !p.last)
    && AllItems(sent) == Listing(table, level)[..from]
  }

  /** The whole transfer, as the receiver may rely on it: every entry exactly once and in order, with
      its index and level; all packets but the last are full; only the last is marked so; none is too
      big for construct_message. */
  ghost predicate Complete(sent: seq<Packet>, table: seq<Word>, level: int, flags: Word, cr3: Word) {
    && sent != []
    && (forall i :: 0 <= i < |sent| ==>
          && WellFormed(sent[i]) && Sendable(sent[i]) && sent[i].words[0] == flags && sent[i].words[1] == cr3
          && (sent[i].last <==> i == |sent| - 1)
          && (if i < |sent| - 1 then sent[i].words[2] == 80
              else table != [] ==> sent[i].words[2] > 0))
    && AllItems(sent) == Listing(table, level)
  }

  lemma OneMore(sent: seq<Packet>, p: Packet, table: seq<Word>, level: int, flags: Word, cr3: Word, from: nat, to: nat)
    requires from <= to <= |table| && SentSoFar(sent, table, level, flags, cr3, from)
    requires Carries(p, table, level, from, to)
    requires p.words[0] == flags && p.words[1] == cr3
    ensures !p.last && p.words[2] == to - from == MAX_ENTRIES_PER_PACKET ==>
              SentSoFar(sent + [p], table, level, flags, cr3, to)
    ensures p.last && p.words[2] == to - from && to == |table| && (table != [] ==> from < to) ==>
              Complete(sent + [p], table, level, flags, cr3)
  {
    assert (sent + [p])[..|sent + [p]| - 1] == sent;
    assert Listing(table, level)[..to] == Listing(table, level)[..from] + Listing(table, level)[from..to];
    assert Listing(table, level)[..|table|] == Listing(table, level);
  }

  method SendTable(payload: array<Word>, table: seq<Word>, level: nat, flags: Word, cr3: Word)
    returns (sent: seq<Packet>)
    requires payload.Length == PAYLOAD_WORDS
    requires |table| < 0x1_0000 && level < 0x100
    modifies payload
    ensures Complete(sent, table, level, flags, cr3)
  {
    hide ItemOf, Complete, Carries, Tagged;
    payload[0] := flags;
    payload[1] := cr3;
    sent := [];
    var position := 3;
    ghost var from := 0;
    for i := 0 to |table|
      invariant payload[0] == flags && payload[1] == cr3
      invariant 0 <= from <= i && i - from <= MAX_ENTRIES_PER_PACKET && position == 3 + 2 * (i - from)
      invariant i > 0 ==> from < i
      invariant Buffered(payload, table, level, from, i)
      invariant SentSoFar(sent, table, level, flags, cr3, from)
    {
      if i % MAX_ENTRIES_PER_PACKET == 0 && i != 0 {
        var p := Flush(payload, table, level, from, i, MAX_ENTRIES_PER_PACKET, false);
        OneMore(sent, p, table, level, flags, cr3, from, i);
        sent := sent + [p];
        from := i;
        position := 3;
      }
      WriteEntry(payload, position, table[i], i, level);
      position := position + 2;
    }
    // what is left of the table, be it nothing
    var p := Flush(payload, table, level, from, |table|, (position - 3) / 2, true);
    OneMore(sent, p, table, level, flags, cr3, from, |table|);
    sent := sent + [p];
  }
}
