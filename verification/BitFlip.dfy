/** FLIPBITS: mutating a microcode update by inverting chosen bits. */
module BitFlip {

  // ---- bits of a byte sequence ----

  /** Bit p of a sequence of bytes, least significant bit of the first byte first. */
  predicate Bit(s: seq<bv8>, p: nat)
    requires p / 8 < |s|
  {
    s[p / 8] & Mask(p % 8) != 0
  }

  function Mask(i: nat): bv8
    requires i < 8
  {
    1 << i
  }

  lemma MaskCases(i: nat)
    requires i < 8
    ensures Mask(i) == [1, 2, 4, 8, 16, 32, 64, 128][i]
  {
  }

  /** XOR with a mask inverts that bit and no other. */
  lemma XorMask(b: bv8, i: nat, j: nat)
    requires i < 8 && j < 8
    ensures ((b ^ Mask(i)) & Mask(j) != 0) == (if i == j then b & Mask(j) == 0 else b & Mask(j) != 0)
  {
    MaskCases(i);
    MaskCases(j);
  }

  /** A byte is determined by its bits. */
  lemma ByteExtensional(a: bv8, b: bv8)
    requires forall i: nat :: i < 8 ==> (a & Mask(i) != 0) == (b & Mask(i) != 0)
    ensures a == b
  {
    assert Mask(0) == 1 && Mask(1) == 2 && Mask(2) == 4 && Mask(3) == 8;
    assert Mask(4) == 16 && Mask(5) == 32 && Mask(6) == 64 && Mask(7) == 128;
    assert forall i: nat :: i < 8 ==> (a & Mask(i) != 0) == (b & Mask(i) != 0);
  }

  lemma SameBits(s: seq<bv8>, t: seq<bv8>)
    requires |s| == |t|
    requires forall p: nat :: p / 8 < |s| ==> Bit(s, p) == Bit(t, p)
    ensures s == t
  {
    forall k | 0 <= k < |s|
      ensures s[k] == t[k]
    {
      forall i: nat | i < 8
        ensures (s[k] & Mask(i) != 0) == (t[k] & Mask(i) != 0)
      {
        assert (8 * k + i) / 8 == k && (8 * k + i) % 8 == i;
        assert Bit(s, 8 * k + i) == Bit(t, 8 * k + i);
      }
      ByteExtensional(s[k], t[k]);
    }
  }

  // ---- flip_bit and its repetition, on values ----

  function Flip(s: seq<bv8>, p: nat): (r: seq<bv8>)
    ensures |r| == |s|
  {
    if p / 8 >= |s| then s else s[p / 8 := s[p / 8] ^ Mask(p % 8)]
  }

  /** Bits are numbered from the least significant one of each byte, bytes from the first; positions beyond
      the end are ignored. */
  lemma FlipAt(s: seq<bv8>, k: nat, i: nat)
    requires i < 8
    ensures var value: bv8 := [1, 2, 4, 8, 16, 32, 64, 128][i];
            Flip(s, 8 * k + i) == if k < |s| then s[k := s[k] ^ value] else s
  {
    MaskCases(i);
    assert (8 * k + i) / 8 == k && (8 * k + i) % 8 == i;
  }

  function FlipAll(s: seq<bv8>, flips: seq<nat>): (r: seq<bv8>)
    ensures |r| == |s|
  {
    if flips == [] then s else Flip(FlipAll(s, flips[..|flips| - 1]), flips[|flips| - 1])
  }

  function Count(flips: seq<nat>, p: nat): nat { multiset(flips)[p] }

  lemma FlipOne(s: seq<bv8>, p: nat, q: nat)
    requires q / 8 < |s|
    ensures Bit(Flip(s, p), q) == if p == q then !Bit(s, q) else Bit(s, q)
  {
    if p / 8 == q / 8 {
      XorMask(s[p / 8], p % 8, q % 8);
    }
  }

  /** A bit is inverted iff its position occurs an odd number of times. */
  lemma {:induction false} FlipParity(s: seq<bv8>, flips: seq<nat>, q: nat)
    requires q / 8 < |s|
    ensures Bit(FlipAll(s, flips), q) == (Bit(s, q) != (Count(flips, q) % 2 == 1))
  {
    if flips != [] {
      var n := |flips| - 1;
      FlipParity(s, flips[..n], q);
      FlipOne(FlipAll(s, flips[..n]), flips[n], q);
      assert flips == flips[..n] + [flips[n]];
    }
  }

  /** The result depends on the parity with which each position occurs, and on nothing else. */
  lemma SameParity(s: seq<bv8>, a: seq<nat>, b: seq<nat>)
    ensures FlipAll(s, a) == FlipAll(s, b) <==> forall q: nat :: q / 8 < |s| ==> Count(a, q) % 2 == Count(b, q) % 2
  {
    forall q: nat | q / 8 < |s|
      ensures Bit(FlipAll(s, a), q) == Bit(FlipAll(s, b), q) <==> Count(a, q) % 2 == Count(b, q) % 2
    {
      FlipParity(s, a, q);
      FlipParity(s, b, q);
    }
    if forall q: nat :: q / 8 < |s| ==> Count(a, q) % 2 == Count(b, q) % 2 {
      SameBits(FlipAll(s, a), FlipAll(s, b));
    }
  }

  /** In particular not on their order. */
  lemma OrderIrrelevant(s: seq<bv8>, a: seq<nat>, b: seq<nat>)
    requires multiset(a) == multiset(b)
    ensures FlipAll(s, a) == FlipAll(s, b)
  {
    SameParity(s, a, b);
  }

  /** Two requests in a row amount to one with the lists joined. */
  lemma {:induction false} Joined(s: seq<bv8>, a: seq<nat>, b: seq<nat>)
    ensures FlipAll(FlipAll(s, a), b) == FlipAll(s, a + b)
  {
    if b == [] {
      assert a + b == a;
    } else {
      var n := |b| - 1;
      Joined(s, a, b[..n]);
      assert (a + b)[..|a + b| - 1] == a + b[..n];
    }
  }

  /** The same request again undoes the first. */
  lemma Involution(s: seq<bv8>, a: seq<nat>)
    ensures FlipAll(FlipAll(s, a), a) == s
  {
    Joined(s, a, a);
    forall q: nat | q / 8 < |s|
      ensures Count(a + a, q) % 2 == Count([], q) % 2
    {
      assert multiset(a + a) == multiset(a) + multiset(a);
    }
    SameParity(s, a + a, []);
  }

  // ---- the slots ----

  const UCODE_SLOTS := 10
  const UCODE_SIZE := 4 * 4096

  class Slots {
    var ucode: seq<array?<bv8>>
    var length: seq<nat>

    /** Ten slots, each empty or with a buffer of its own that holds at least its update. */
    ghost predicate Valid()
      reads this
    {
      && |ucode| == |length| == UCODE_SLOTS
      && (forall i :: 0 <= i < UCODE_SLOTS && ucode[i] != null ==> length[i] <= ucode[i].Length == UCODE_SIZE)
      && (forall i, j :: 0 <= i < j < UCODE_SLOTS && ucode[i] != null ==> ucode[i] != ucode[j])
    }

    ghost function Contents(i: nat): seq<bv8>
      requires Valid() && i < UCODE_SLOTS && ucode[i] != null
      reads this, ucode[i]
    {
      ucode[i][..length[i]]
    }

    constructor ()
      ensures Valid() && forall i :: 0 <= i < UCODE_SLOTS ==> ucode[i] == null
    {
      ucode := seq(UCODE_SLOTS, i => null);
      length := seq(UCODE_SLOTS, i => 0);
    }

    /** flip_bit on one buffer. */
    static method FlipBit(buffer: array<bv8>, n: nat, position: nat)
      requires n <= buffer.Length
      modifies buffer
      ensures buffer[..n] == Flip(old(buffer[..n]), position)
      ensures buffer[n..] == old(buffer[n..])
    {
      if position / 8 >= n {
        return;
      }
      buffer[position / 8] := buffer[position / 8] ^ Mask(position % 8);
    }

    /** The flip loop. */
    static method FlipList(buffer: array<bv8>, n: nat, flips: seq<nat>)
      requires n <= buffer.Length
      modifies buffer
      ensures buffer[..n] == FlipAll(old(buffer[..n]), flips)
      ensures buffer[n..] == old(buffer[n..])
    {
      assert flips[..0] == [];
      for i := 0 to |flips|
        invariant buffer[..n] == FlipAll(old(buffer[..n]), flips[..i])
        invariant buffer[n..] == old(buffer[n..])
      {
        assert flips[..i + 1][..i] == flips[..i];
        FlipBit(buffer, n, flips[i]);
      }
      assert flips[..|flips|] == flips;
    }

    /** handle_flip_bits. Slot 1 becomes the target slot's update with the listed bits flipped; with
        target 1 it is flipped where it stands. No other slot changes. */
    method HandleFlipBits(payloadLength: nat, target: nat, flips: seq<nat>) returns (status: int)
      requires Valid()
      modifies this, if |ucode| > 1 && ucode[1] != null then {ucode[1]} else {}
      ensures Valid()
      ensures status == if payloadLength < 8 then 0x1 else if target > UCODE_SLOTS - 1 then 0x2
                        else if old(ucode[target]) == null then 0x3 else 0x0
      ensures status != 0x0 ==> unchanged(this) && (ucode[1] != null ==> unchanged(ucode[1]))
      ensures status == 0x0 ==> ucode[1] != null && (ucode[1] == old(ucode[1]) || fresh(ucode[1]))
      ensures status == 0x0 ==> Contents(1) == FlipAll(old(Contents(target)), flips)
      ensures forall i :: 0 <= i < UCODE_SLOTS && i != 1 ==>
                ucode[i] == old(ucode[i]) && length[i] == old(length[i])
                && (ucode[i] != null ==> Contents(i) == old(Contents(i)))
    {
      if payloadLength < 8 {
        return 0x1;
      }
      if target > UCODE_SLOTS - 1 {
        return 0x2;
      }
      if ucode[target] == null {
        return 0x3;
      }
      ghost var source := Contents(target);
      if target != 1 {
        if ucode[1] == null {
          var pages := new bv8[UCODE_SIZE];
          ucode := ucode[1 := pages];
          length := length[1 := UCODE_SIZE];
        }
        var to, from, n := ucode[1], ucode[target], length[target];
        forall i | 0 <= i < n {
          to[i] := from[i];
        }
        length := length[1 := n];
      }
      assert Contents(1) == source;
      FlipList(ucode[1], length[target], flips);
      return 0x0;
    }

    /** Two requests with the same list, the second on slot 1, leave the original update in slot 1. */
    method FlipAndUndo(target: nat, flips: seq<nat>) returns (status: int)
      requires Valid() && target < UCODE_SLOTS && ucode[target] != null
      modifies this, if |ucode| > 1 && ucode[1] != null then {ucode[1]} else {}
      ensures Valid() && status == 0x0 && ucode[1] != null && Contents(1) == old(Contents(target))
    {
      ghost var source := Contents(target);
      status := HandleFlipBits(8, target, flips);
      Involution(source, flips);
      status := HandleFlipBits(8, 1, flips);
    }
  }
}
