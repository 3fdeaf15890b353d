/** Replies that are cut into packets: each is a payload of 64-bit words, framed by
    construct_message. */
module Replies {
  import Framing

  type Word = w: int | 0 <= w < 0x1_0000_0000_0000_0000

  const WORD64 := 0x1_0000_0000_0000_0000

  const PAYLOAD_WORDS := 175            // 1400 bytes

  /** A message as it leaves: its payload, and whether it is marked as the last one. */
  datatype Packet = Packet(words: seq<Word>, last: bool)

  /** construct_message accepts a payload of that many words. */
  predicate Sendable(p: Packet) { 8 * |p.words| + Framing.HEADER_SIZE <= Framing.RESPONSE_BUFFER_SIZE }

  function Min(a: Word, b: Word): Word { if a <= b then a else b }
}
