/** The registers that a sample is read from, field by field, and what store_ibs_entry makes of them: which
    field of an event comes from which field of a register, and which samples a filter lets through. */
module IbsRegisters {
  import opened Replies
  import opened Ibs

  // ---- words made of bit fields ----

  function Pow2(n: nat): (p: nat)
    ensures p > 0
  {
    if n == 0 then 1 else 2 * Pow2(n - 1)
  }

  datatype Field = Field(value: nat, width: nat)

  /** No value is too big for its field. */
  predicate Fits(fs: seq<Field>) { forall i :: 0 <= i < |fs| ==> fs[i].value < Pow2(fs[i].width) }

  /** A word with these bit fields, the least significant first. */
  function Joined(fs: seq<Field>): nat {
    if fs == [] then 0 else fs[0].value + Pow2(fs[0].width) * Joined(fs[1..])
  }

  /** The bit at which field i begins. */
  function Offset(fs: seq<Field>, i: nat): nat
    requires i <= |fs|
  {
    if i == 0 then 0 else Offset(fs, i - 1) + fs[i - 1].width
  }

  function Product(a: nat, b: nat): (p: nat)
    ensures a > 0 && b > 0 ==> p > 0
  {
    a * b
  }

  lemma AtLeastOnce(d: nat, k: nat)
    requires k > 0
    ensures d * k >= d
  {
    assert d * k == d * (k - 1) + d;
  }

  /** Quotient and remainder are unique. */
  lemma Unique(d: nat, q: nat, r: nat, q': nat, r': nat)
    requires r < d && r' < d && d * q + r == d * q' + r'
    ensures q == q' && r == r'
  {
    if q < q' {
      assert d * q' == d * q + d * (q' - q);
      AtLeastOnce(d, q' - q);
    } else if q' < q {
      assert d * q == d * q' + d * (q - q');
      AtLeastOnce(d, q - q');
    }
  }

  lemma QuotientIs(d: nat, q: nat, r: nat)
    requires r < d
    ensures (d * q + r) / d == q && (d * q + r) % d == r
  {
    var n := d * q + r;
    assert n == d * (n / d) + n % d;
    Unique(d, q, r, n / d, n % d);
  }

  lemma DivideTwice(n: nat, a: nat, b: nat)
    requires a > 0 && b > 0
    ensures n / Product(a, b) == n / a / b
  {
    var q, r := n / a, n % a;
    var v, u := q / b, q % b;
    var rest := a * u + r;
    calc {
      n;
      a * q + r;
      a * (b * v + u) + r;
      { Distributes(a, b, v, u); }
      Product(a, b) * v + rest;
    }
    assert rest < Product(a, b) by {
      AtMostOnce(a, u, b);
    }
    QuotientIs(Product(a, b), v, rest);
  }

  lemma Distributes(a: nat, b: nat, v: nat, u: nat)
    ensures a * (b * v + u) == Product(a, b) * v + a * u
  {
    assert a * (b * v) == (a * b) * v;
  }

  lemma AtMostOnce(a: nat, u: nat, b: nat)
    requires u < b
    ensures a * u + a <= Product(a, b)
  {
    AtLeastOnce(a, b - u);
    assert a * (b - u) == Product(a, b) - a * u;
  }

  lemma {:induction false} PowersAdd(a: nat, b: nat)
    ensures Pow2(a + b) == Product(Pow2(a), Pow2(b))
  {
    if a > 0 {
      PowersAdd(a - 1, b);
      assert Pow2(a + b) == 2 * Pow2(a - 1 + b);
    }
  }

  /** Shifting out the lower fields leaves a word of the others. */
  lemma {:induction false} ShiftedOut(fs: seq<Field>, i: nat)
    requires Fits(fs) && i <= |fs|
    ensures Joined(fs) / Pow2(Offset(fs, i)) == Joined(fs[i..])
  {
    if i == 0 {
      assert fs[0..] == fs;
    } else {
      var f := fs[i - 1];
      ShiftedOut(fs, i - 1);
      assert fs[i - 1..][1..] == fs[i..];
      PowersAdd(Offset(fs, i - 1), f.width);
      DivideTwice(Joined(fs), Pow2(Offset(fs, i - 1)), Pow2(f.width));
      QuotientIs(Pow2(f.width), Joined(fs[i..]), f.value);
    }
  }

  /** A field is read back at its bit offset. */
  lemma FieldRead(fs: seq<Field>, i: nat)
    requires Fits(fs) && i < |fs|
    ensures Joined(fs) / Pow2(Offset(fs, i)) % Pow2(fs[i].width) == fs[i].value
  {
    ShiftedOut(fs, i);
    QuotientIs(Pow2(fs[i].width), Joined(fs[i..][1..]), fs[i].value);
  }

  // ---- the registers ----

  /** IBS_OP_CTL */
  datatype OpCtl = OpCtl(
    maxCntLow: nat, reserved0: nat, en: nat, val: nat, cntCtl: nat, maxCntHigh: nat, reserved1: nat, curCnt: nat,
    reserved2: nat)

  function CtlFields(r: OpCtl): seq<Field> {
    [Field(r.maxCntLow, 16), Field(r.reserved0, 1), Field(r.en, 1), Field(r.val, 1), Field(r.cntCtl, 1),
     Field(r.maxCntHigh, 7), Field(r.reserved1, 5), Field(r.curCnt, 27), Field(r.reserved2, 5)]
  }

  /** IBS_OP_DATA_REGISTER */
  datatype OpData = OpData(
    reserved1: nat, microcode: nat, brnFuse: nat, ripInvalid: nat, brnRet: nat, brnMisp: nat, brnTaken: nat,
    opReturn: nat, reserved2: nat, tagToRetCtr: nat, compToRetCtr: nat)

  function DataFields(r: OpData): seq<Field> {
    [Field(r.reserved1, 23), Field(r.microcode, 1), Field(r.brnFuse, 1), Field(r.ripInvalid, 1), Field(r.brnRet, 1),
     Field(r.brnMisp, 1), Field(r.brnTaken, 1), Field(r.opReturn, 1), Field(r.reserved2, 2), Field(r.tagToRetCtr, 16),
     Field(r.compToRetCtr, 16)]
  }

  /** IBS_OP_DATA2_REGISTER */
  datatype OpData2 = OpData2(reserved1: nat, cacheHitSt: nat, rmtNode: nat, reserved2: nat, dataSrc: nat)

  function Data2Fields(r: OpData2): seq<Field> {
    [Field(r.reserved1, 58), Field(r.cacheHitSt, 1), Field(r.rmtNode, 1), Field(r.reserved2, 1), Field(r.dataSrc, 3)]
  }

  /** IBS_OP_DATA3_REGISTER */
  datatype OpData3 = OpData3(
    ldOp: nat, stOp: nat, l1TlbMiss: nat, l2TlbMiss: nat, l1TlbHit2M: nat, l1TlbHit1G: nat, l2TlbHit2M: nat,
    dcMiss: nat, misAcc: nat, reserved0: nat, wcMemAcc: nat, ucMemAcc: nat, lockedOp: nat, noMabAlloc: nat,
    linAddrValid: nat, phyAddrValid: nat, l2TlbHit1G: nat, l2Miss: nat, swPf: nat, memWidth: nat, openMemReqs: nat,
    missLat: nat, tlbRefillLat: nat)

  function Data3Fields(r: OpData3): seq<Field> {
    [Field(r.ldOp, 1), Field(r.stOp, 1), Field(r.l1TlbMiss, 1), Field(r.l2TlbMiss, 1), Field(r.l1TlbHit2M, 1),
     Field(r.l1TlbHit1G, 1), Field(r.l2TlbHit2M, 1), Field(r.dcMiss, 1), Field(r.misAcc, 1), Field(r.reserved0, 4),
     Field(r.wcMemAcc, 1), Field(r.ucMemAcc, 1), Field(r.lockedOp, 1), Field(r.noMabAlloc, 1),
     Field(r.linAddrValid, 1), Field(r.phyAddrValid, 1), Field(r.l2TlbHit1G, 1), Field(r.l2Miss, 1), Field(r.swPf, 1),
     Field(r.memWidth, 4), Field(r.openMemReqs, 6), Field(r.missLat, 16), Field(r.tlbRefillLat, 16)]
  }

  lemma WholeWord(fs: seq<Field>)
    requires Fits(fs)
    ensures Joined(fs) < Pow2(Offset(fs, |fs|))
  {
    ShiftedOut(fs, |fs|);
    assert Joined(fs[|fs|..]) == 0;
    var n, d := Joined(fs), Pow2(Offset(fs, |fs|));
    assert n == d * (n / d) + n % d;
  }

  lemma CtlOffsets(r: OpCtl)
    ensures var fs := CtlFields(r);
            && |fs| == 9 && Offset(fs, 9) == 64
            && Offset(fs, 3) == 18
  {
    var fs := CtlFields(r);
    assert Offset(fs, 1) == 16;
    assert Offset(fs, 2) == 17;
    assert Offset(fs, 3) == 18;
    assert Offset(fs, 4) == 19;
    assert Offset(fs, 5) == 20;
    assert Offset(fs, 6) == 27;
    assert Offset(fs, 7) == 32;
    assert Offset(fs, 8) == 59;
  }

  lemma DataOffsets(r: OpData)
    ensures var fs := DataFields(r);
            && |fs| == 11 && Offset(fs, 11) == 64
            && Offset(fs, 1) == 23
  {
    var fs := DataFields(r);
    assert Offset(fs, 1) == 23;
    assert Offset(fs, 2) == 24;
    assert Offset(fs, 3) == 25;
    assert Offset(fs, 4) == 26;
    assert Offset(fs, 5) == 27;
    assert Offset(fs, 6) == 28;
    assert Offset(fs, 7) == 29;
    assert Offset(fs, 8) == 30;
    assert Offset(fs, 9) == 32;
    assert Offset(fs, 10) == 48;
  }

  lemma Data2Offsets(r: OpData2)
    ensures var fs := Data2Fields(r);
            && |fs| == 5 && Offset(fs, 5) == 64
            && Offset(fs, 4) == 61
  {
    var fs := Data2Fields(r);
    assert Offset(fs, 1) == 58;
    assert Offset(fs, 2) == 59;
    assert Offset(fs, 3) == 60;
    assert Offset(fs, 4) == 61;
  }

  lemma Data3Offsets(r: OpData3)
    ensures var fs := Data3Fields(r);
            && |fs| == 23 && Offset(fs, 23) == 64
            && Offset(fs, 0) == 0 && Offset(fs, 1) == 1 && Offset(fs, 11) == 14 && Offset(fs, 14) == 17
            && Offset(fs, 15) == 18 && Offset(fs, 18) == 21 && Offset(fs, 19) == 22
  {
    var fs := Data3Fields(r);
    assert Offset(fs, 1) == 1;
    assert Offset(fs, 2) == 2;
    assert Offset(fs, 3) == 3;
    assert Offset(fs, 4) == 4;
    assert Offset(fs, 5) == 5;
    assert Offset(fs, 6) == 6;
    assert Offset(fs, 7) == 7;
    assert Offset(fs, 8) == 8;
    assert Offset(fs, 9) == 9;
    assert Offset(fs, 10) == 13;
    assert Offset(fs, 11) == 14;
    assert Offset(fs, 12) == 15;
    assert Offset(fs, 13) == 16;
    assert Offset(fs, 14) == 17;
    assert Offset(fs, 15) == 18;
    assert Offset(fs, 16) == 19;
    assert Offset(fs, 17) == 20;
    assert Offset(fs, 18) == 21;
    assert Offset(fs, 19) == 22;
    assert Offset(fs, 20) == 26;
    assert Offset(fs, 21) == 32;
    assert Offset(fs, 22) == 48;
  }

  lemma Powers()
    ensures Pow2(0) == 1 && Pow2(1) == 2 && Pow2(3) == 8 && Pow2(4) == 16 && Pow2(14) == 0x4000
    ensures Pow2(17) == 0x2_0000 && Pow2(18) == 0x4_0000 && Pow2(21) == 0x20_0000 && Pow2(22) == 0x40_0000
    ensures Pow2(23) == 0x80_0000 && Pow2(36) == 0x10_0000_0000 && Pow2(61) == 0x2000_0000_0000_0000
    ensures Pow2(64) == WORD64
  {
    SmallPowers();
    hide Pow2;
    PowersAdd(7, 7);
    PowersAdd(14, 3);
    PowersAdd(14, 4);
    PowersAdd(14, 7);
    PowersAdd(18, 4);
    PowersAdd(22, 1);
    PowersAdd(18, 18);
    PowersAdd(36, 21);
    PowersAdd(57, 4);
    PowersAdd(61, 3);
  }

  lemma SmallPowers()
    ensures Pow2(0) == 1 && Pow2(1) == 2 && Pow2(3) == 8 && Pow2(4) == 16 && Pow2(7) == 128
  {
  }

  function CtlWord(r: OpCtl): (w: Word)
    requires Fits(CtlFields(r))
  {
    CtlOffsets(r);
    WholeWord(CtlFields(r));
    Powers();
    Joined(CtlFields(r))
  }

  function DataWord(r: OpData): (w: Word)
    requires Fits(DataFields(r))
  {
    DataOffsets(r);
    WholeWord(DataFields(r));
    Powers();
    Joined(DataFields(r))
  }

  function Data2Word(r: OpData2): (w: Word)
    requires Fits(Data2Fields(r))
  {
    Data2Offsets(r);
    WholeWord(Data2Fields(r));
    Powers();
    Joined(Data2Fields(r))
  }

  function Data3Word(r: OpData3): (w: Word)
    requires Fits(Data3Fields(r))
  {
    Data3Offsets(r);
    WholeWord(Data3Fields(r));
    Powers();
    Joined(Data3Fields(r))
  }

  // ---- what becomes of a sample ----

  lemma OtherFieldsRead(c: OpCtl, d1: OpData, d2: OpData2)
    requires Fits(CtlFields(c)) && Fits(DataFields(d1)) && Fits(Data2Fields(d2))
    ensures CtlWord(c) / 0x4_0000 % 2 == c.val
    ensures DataWord(d1) / 0x80_0000 % 2 == d1.microcode
    ensures Data2Word(d2) / 0x2000_0000_0000_0000 % 8 == d2.dataSrc
  {
    hide Joined, Pow2, Offset, Fits;
    Powers();
    CtlOffsets(c);
    FieldRead(CtlFields(c), 3);
    DataOffsets(d1);
    FieldRead(DataFields(d1), 1);
    Data2Offsets(d2);
    FieldRead(Data2Fields(d2), 4);
  }

  lemma Data3Read(d: OpData3)
    requires Fits(Data3Fields(d))
    ensures var w := Data3Word(d);
            && w % 2 == d.ldOp && w / 2 % 2 == d.stOp && w / 0x4000 % 2 == d.ucMemAcc
            && w / 0x2_0000 % 2 == d.linAddrValid && w / 0x4_0000 % 2 == d.phyAddrValid
            && w / 0x20_0000 % 2 == d.swPf && w / 0x40_0000 % 16 == d.memWidth
  {
    hide Joined, Pow2, Offset, Fits;
    Powers();
    Data3Offsets(d);
    var fs := Data3Fields(d);
    FieldRead(fs, 0);
    FieldRead(fs, 1);
    FieldRead(fs, 11);
    FieldRead(fs, 14);
    FieldRead(fs, 15);
    FieldRead(fs, 18);
    FieldRead(fs, 19);
  }

  function SampleOf(c: OpCtl, d1: OpData, d2: OpData2, d3: OpData3, phys: Word, lin: Word): Sample
    requires Fits(CtlFields(c)) && Fits(DataFields(d1)) && Fits(Data2Fields(d2)) && Fits(Data3Fields(d3))
  {
    Sample(CtlWord(c), DataWord(d1), Data2Word(d2), Data3Word(d3), phys, lin)
  }

  /** Whatever the registers hold, each field of the event is the field of the register that it stands for;
      of the physical address it takes bits 12-47, and bits 0-11 go into a linear address that is not valid. */
  lemma EventFields(c: OpCtl, d1: OpData, d2: OpData2, d3: OpData3, phys: Word, lin: Word)
    requires Fits(CtlFields(c)) && Fits(DataFields(d1)) && Fits(Data2Fields(d2)) && Fits(Data3Fields(d3))
    ensures var e := Pack(SampleOf(c, d1, d2, d3, phys, lin));
            && e.valid == c.val && e.microcode == d1.microcode && e.dataSource == d2.dataSrc
            && e.load == d3.ldOp && e.store == d3.stOp && e.uncachable == d3.ucMemAcc && e.prefetch == d3.swPf
            && e.linearValid == d3.linAddrValid && e.physValid == d3.phyAddrValid && e.size == d3.memWidth
            && (phys < 0x1_0000_0000_0000 ==> e.phys == phys / 0x1000)
            && e.q2 / 0x1000 == lin / 0x1000
            && e.q2 % 0x1000 == (if d3.linAddrValid == 0 then phys else lin) % 0x1000
  {
    hide CtlWord, DataWord, Data2Word, Data3Word, Fits, CtlFields, DataFields, Data2Fields, Data3Fields;
    OtherFieldsRead(c, d1, d2);
    Data3Read(d3);
  }

  /** Which samples a filter lets through, by the load and store bits of the register. A value that names
      no filter lets all through. */
  lemma FilterMeans(filter: int, c: OpCtl, d1: OpData, d2: OpData2, d3: OpData3, phys: Word, lin: Word)
    requires Fits(CtlFields(c)) && Fits(DataFields(d1)) && Fits(Data2Fields(d2)) && Fits(Data3Fields(d3))
    ensures var e := Pack(SampleOf(c, d1, d2, d3, phys, lin));
            && (filter == 1 ==> (ShouldStore(filter, e) <==> d3.ldOp == 0 && d3.stOp == 0))
            && (filter == 2 ==> (ShouldStore(filter, e) <==> d3.ldOp == 1 && d3.stOp == 0))
            && (filter == 3 ==> (ShouldStore(filter, e) <==> d3.ldOp == 0 && d3.stOp == 1))
            && (filter == 4 ==> (ShouldStore(filter, e) <==> d3.ldOp == 1 || d3.stOp == 1))
            && (filter == 5 ==> (ShouldStore(filter, e) <==> d3.ldOp == 1 && d3.stOp == 1))
            && (filter < 1 || filter > 5 ==> ShouldStore(filter, e))
  {
    hide CtlWord, DataWord, Data2Word, Data3Word, Fits, CtlFields, DataFields, Data2Fields, Data3Fields, Pack;
    EventFields(c, d1, d2, d3, phys, lin);
  }

  // ---- the first word of an event ----

  /** The bit fields of IBSEvent. */
  function EventFieldsOf(e: Event): seq<Field> {
    [Field(e.phys, 36), Field(e.microcode, 1), Field(e.dataSource, 3), Field(e.size, 4), Field(e.prefetch, 1),
     Field(e.physValid, 1), Field(e.linearValid, 1), Field(e.uncachable, 1), Field(e.store, 1), Field(e.load, 1),
     Field(e.valid, 1), Field(0, 13)]
  }

  lemma Peeled(fs: seq<Field>, i: nat)
    requires i < |fs|
    ensures Joined(fs[i..]) == fs[i].value + Pow2(fs[i].width) * Joined(fs[i + 1..])
  {
    assert fs[i..][1..] == fs[i + 1..];
  }

  lemma HighFieldsAre(e: Event)
    ensures HighFields(e) == Joined(EventFieldsOf(e)[4..])
  {
    Powers();
    var fs := EventFieldsOf(e);
    hide Joined, Pow2;
    Peeled(fs, 11);
    Peeled(fs, 10);
    Peeled(fs, 9);
    Peeled(fs, 8);
    Peeled(fs, 7);
    Peeled(fs, 6);
    Peeled(fs, 5);
    Peeled(fs, 4);
    assert Joined(fs[12..]) == 0 by { NoFields(fs[12..]); }
  }

  lemma NoFields(fs: seq<Field>)
    requires fs == []
    ensures Joined(fs) == 0
  {
  }

  /** The word that is stored and sent has them in this order. */
  lemma FirstWordIs(e: Event)
    ensures FirstWord(e) == Joined(EventFieldsOf(e))
  {
    HighFieldsAre(e);
    Powers();
    var fs := EventFieldsOf(e);
    hide Joined, Pow2, HighFields;
    assert fs[0..] == fs;
    Peeled(fs, 3);
    Peeled(fs, 2);
    Peeled(fs, 1);
    Peeled(fs, 0);
  }
}
