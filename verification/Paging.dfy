/** create_minimal_paging: cutting a set of page tables down to the first 4 GiB, against the
    hardware's own reading of page tables (section 5.3 of the AMD64 Architecture Programmer's
    Manual Volume 2). Physical memory is a map of 8-byte entries; pointers are physical addresses,
    as the code assumes identity paging. */
module Paging {

  /** The bit fields that the four kinds of entry share. bit7 is PS in a PDPT or PD entry. */
  datatype Entry = Entry(
    present: bool, rw: bool, us: bool, pwt: bool, pcd: bool, accessed: bool, bit6: bool, bit7: bool,
    avl: nat, addr: nat, reserved: nat, nx: bool)

  const BLANK := Entry(false, false, false, false, false, false, false, false, 0, 0, 0, false)

  type Memory = map<nat, Entry>

  function At(mem: Memory, a: nat): Entry { if a in mem then mem[a] else BLANK }

  const PAGE: nat := 4096
  const ADDRESS_FIELD: nat := 0x100_0000_0000       // the addr field has 40 bits
  const GIB: nat := 0x4000_0000
  const FOUR_GIB: nat := 4 * GIB
  const PML4_SPAN: nat := 512 * GIB                // what one PML4 entry covers

  /** The address of entry i of a table. */
  function Slot(table: nat, i: nat): nat { table + 8 * i }

  // ---- address helpers ----

  function GetFullAddress(addr: nat): nat { addr * PAGE }

  function GetShortAddress(address: nat): nat { address / PAGE }

  function GetPdptAt(mem: Memory, cr3: nat, pml4Index: nat): nat {
    if pml4Index >= 512 then 0 else GetFullAddress(At(mem, Slot(cr3, pml4Index)).addr)
  }

  function GetPdAt(mem: Memory, cr3: nat, pml4Index: nat, pdptIndex: nat): nat {
    var pdpt := GetPdptAt(mem, cr3, pml4Index);
    if pdpt == 0 || pdptIndex >= 1024 then 0 else GetFullAddress(At(mem, Slot(pdpt, pdptIndex)).addr)
  }

  // ---- the hardware walk ----

  datatype Rights = Rights(rw: bool, us: bool, nx: bool)

  datatype Translation = Fault | Mapped(physical: nat, rights: Rights)

  function Meet(r: Rights, e: Entry): Rights { Rights(r.rw && e.rw, r.us && e.us, r.nx || e.nx) }

  /** The four table indices of a virtual address. */
  datatype Indices = Indices(i4: nat, i3: nat, i2: nat, i1: nat)

  function Split(va: nat): Indices {
    Indices(va / PML4_SPAN % 512, va / GIB % 512, va / 0x20_0000 % 512, va / PAGE % 512)
  }

  /** A page of 4 KiB, 2 MiB or 1 GiB: level 1, 2 or 3. Low bits of a large page's address are ignored. */
  function Page(e: Entry, level: nat, va: nat, r: Rights): Translation {
    Mapped(
      (if level == 1 then e.addr * PAGE + va % PAGE
       else if level == 2 then e.addr / 512 * 0x20_0000 + va % 0x20_0000
       else e.addr / 0x4_0000 * GIB + va % GIB),
      Meet(r, e))
  }

  function WalkPt(mem: Memory, table: nat, x: Indices, va: nat, r: Rights): Translation {
    var e := At(mem, Slot(table, x.i1));
    if !e.present then Fault else Page(e, 1, va, r)
  }

  function WalkPd(mem: Memory, table: nat, x: Indices, va: nat, r: Rights): Translation {
    var e := At(mem, Slot(table, x.i2));
    if !e.present then Fault
    else if e.bit7 then Page(e, 2, va, r)
    else WalkPt(mem, GetFullAddress(e.addr), x, va, Meet(r, e))
  }

  function WalkPdpt(mem: Memory, table: nat, x: Indices, va: nat, r: Rights): Translation {
    var e := At(mem, Slot(table, x.i3));
    if !e.present then Fault
    else if e.bit7 then Page(e, 3, va, r)
    else WalkPd(mem, GetFullAddress(e.addr), x, va, Meet(r, e))
  }

  function WalkPml4(mem: Memory, table: nat, x: Indices, va: nat): Translation {
    var e := At(mem, Slot(table, x.i4));
    if !e.present || e.bit7 then Fault
    else WalkPdpt(mem, GetFullAddress(e.addr), x, va, Meet(Rights(true, true, false), e))
  }

  /** The translation of va with the tables at cr3. A PML4 entry with bit 7 set is reserved. */
  function Walk(mem: Memory, cr3: nat, va: nat): Translation { WalkPml4(mem, cr3, Split(va), va) }

  /** The PD and PT entries that a walk looks at once it has read PDPT entry pdpte: none behind a
      1 GiB page or an absent entry, no PT entry behind a 2 MiB page or an absent PD entry. */
  function LowerReads(mem: Memory, pdpte: nat, x: Indices): set<nat> {
    var e3 := At(mem, pdpte);
    if !e3.present || e3.bit7 then {}
    else
      var pde := Slot(GetFullAddress(e3.addr), x.i2);
      var e2 := At(mem, pde);
      if !e2.present || e2.bit7 then {pde} else {pde, Slot(GetFullAddress(e2.addr), x.i1)}
  }

  /** All entries that the walk for va looks at. */
  function WalkReads(mem: Memory, cr3: nat, va: nat): set<nat> {
    var x := Split(va);
    var pml4e := Slot(cr3, x.i4);
    var e4 := At(mem, pml4e);
    if !e4.present || e4.bit7 then {pml4e}
    else
      var pdpte := Slot(GetFullAddress(e4.addr), x.i3);
      {pml4e, pdpte} + LowerReads(mem, pdpte, x)
  }

  predicate Canonical(va: nat) { va < 0x8000_0000_0000 || 0xFFFF_8000_0000_0000 <= va < 0x1_0000_0000_0000_0000 }

  // ---- what the new tables are ----

  predicate InTable(a: nat, base: nat, entries: nat) { base <= a < base + 8 * entries }

  /** The three allocations: one page, two pages, two pages. */
  datatype Fresh = Fresh(pml4: nat, pdpt: nat, pd: nat)

  predicate InFresh(f: Fresh, a: nat) { InTable(a, f.pml4, 512) || InTable(a, f.pdpt, 1024) || InTable(a, f.pd, 1024) }

  predicate Disjoint(x: nat, n: nat, y: nat, k: nat) { x + 8 * n <= y || y + 8 * k <= x }

  /** Page-aligned addresses below 2^52 that overlap neither each other nor the PML4 in use. */
  predicate Allocated(cr3: nat, f: Fresh) {
    && f.pml4 % PAGE == 0 && f.pdpt % PAGE == 0 && f.pd % PAGE == 0
    && f.pdpt < ADDRESS_FIELD * PAGE
    && Disjoint(f.pml4, 512, f.pdpt, 1024) && Disjoint(f.pml4, 512, f.pd, 1024) && Disjoint(f.pdpt, 1024, f.pd, 1024)
    && Disjoint(f.pml4, 512, cr3, 512) && Disjoint(f.pdpt, 1024, cr3, 512) && Disjoint(f.pd, 1024, cr3, 512)
  }

  /** The walk for va consults nothing in the fresh pages. */
  predicate Untouched(mem: Memory, cr3: nat, f: Fresh, va: nat) {
    forall a :: a in WalkReads(mem, cr3, va) ==> !InFresh(f, a)
  }

  /** Memory after create_minimal_paging, cell by cell. Twice as many entries are copied as a table
      has; those that lie in the fresh pages themselves are copied in whatever state they are then. */
  ghost predicate Minimal(mem: Memory, mem': Memory, cr3: nat, f: Fresh) {
    var pdpt := GetPdptAt(mem, cr3, 0);
    && (forall a: nat :: !InFresh(f, a) ==> At(mem', a) == At(mem, a))
    && (forall i: nat :: i < 512 ==> At(mem', Slot(f.pml4, i)) == NewPml4e(At(mem, Slot(cr3, i)), i, f))
    && (forall i: nat :: i < 1024 && !InFresh(f, Slot(pdpt, i)) ==>
          At(mem', Slot(f.pdpt, i)) == NewPdpte(At(mem, Slot(pdpt, i)), i))
    && (forall i: nat :: 4 <= i < 1024 ==>
          !At(mem', Slot(f.pdpt, i)).present && !At(mem', Slot(f.pdpt, i)).bit7)
    && (!InFresh(f, Slot(pdpt, 0)) ==>
          forall i: nat :: i < 1024 && !InFresh(f, Slot(GetPdAt(mem, cr3, 0, 0), i)) ==>
            At(mem', Slot(f.pd, i)) == At(mem, Slot(GetPdAt(mem, cr3, 0, 0), i)))
  }

  function NewPml4e(e: Entry, i: nat, f: Fresh): Entry {
    if i == 0 then e.(addr := GetShortAddress(f.pdpt) % ADDRESS_FIELD) else e.(present := false)
  }

  function NewPdpte(e: Entry, i: nat): Entry {
    if i < 4 then e else e.(present := false, bit7 := false)
  }

  // ---- the transformation ----

  ghost predicate SameBut(mem: Memory, mem': Memory, table: nat, n: nat) {
    forall a: nat :: !InTable(a, table, n) ==> At(mem', a) == At(mem, a)
  }

  /** CopyMem on table entries; source and target may overlap. */
  method CopyTable(mem: Memory, target: nat, source: nat, n: nat) returns (mem': Memory)
    ensures SameBut(mem, mem', target, n)
    ensures forall i: nat :: i < n ==> At(mem', Slot(target, i)) == At(mem, Slot(source, i))
  {
    mem' := mem;
    for k := 0 to n
      invariant SameBut(mem, mem', target, k)
      invariant forall i: nat :: i < k ==> At(mem', Slot(target, i)) == At(mem, Slot(source, i))
    {
      mem' := mem'[Slot(target, k) := At(mem, Slot(source, k))];
    }
  }

  /** The three copies at the start of create_minimal_paging: each finds its source as it was, except
      for entries that lie in the fresh pages. */
  method CopyTables(mem: Memory, cr3: nat, f: Fresh) returns (mem': Memory)
    requires Allocated(cr3, f)
    ensures forall a: nat :: !InFresh(f, a) ==> At(mem', a) == At(mem, a)
    ensures forall i: nat :: i < 512 ==> At(mem', Slot(f.pml4, i)) == At(mem, Slot(cr3, i))
    ensures var pdpt := GetPdptAt(mem, cr3, 0);
            && (forall i: nat :: i < 1024 && !InFresh(f, Slot(pdpt, i)) ==>
                  At(mem', Slot(f.pdpt, i)) == At(mem, Slot(pdpt, i)))
            && (!InFresh(f, Slot(pdpt, 0)) ==>
                  forall i: nat :: i < 1024 && !InFresh(f, Slot(GetPdAt(mem, cr3, 0, 0), i)) ==>
                    At(mem', Slot(f.pd, i)) == At(mem, Slot(GetPdAt(mem, cr3, 0, 0), i)))
  {
    var m1 := CopyTable(mem, f.pml4, cr3, 512);
    assert At(m1, Slot(cr3, 0)) == At(mem, Slot(cr3, 0));
    var m2 := CopyTable(m1, f.pdpt, GetPdptAt(m1, cr3, 0), 1024);
    assert At(m2, Slot(cr3, 0)) == At(mem, Slot(cr3, 0));
    // this copy of the PD is never linked into the new tables
    mem' := CopyTable(m2, f.pd, GetPdAt(m2, cr3, 0, 0), 1024);
    forall i: nat | i < 512
      ensures At(mem', Slot(f.pml4, i)) == At(mem, Slot(cr3, i))
    {
      assert InTable(Slot(f.pml4, i), f.pml4, 512);
    }
    forall i: nat | i < 1024
      ensures At(mem', Slot(f.pdpt, i)) == At(m2, Slot(f.pdpt, i))
    {
      assert InTable(Slot(f.pdpt, i), f.pdpt, 1024);
    }
  }

  method CreateMinimalPaging(mem: Memory, cr3: nat, f: Fresh) returns (newCr3: nat, mem': Memory)
    requires Allocated(cr3, f)
    ensures newCr3 == f.pml4
    ensures Minimal(mem, mem', cr3, f)
  {
    mem' := CopyTables(mem, cr3, f);
    mem' := CutPdpt(mem', f);
    mem' := CutPml4(mem', f);
    newCr3 := f.pml4;
  }

  /** Makes every entry of the new PDPT from the fourth on absent. */
  method CutPdpt(mem: Memory, f: Fresh) returns (mem': Memory)
    ensures SameBut(mem, mem', f.pdpt, 1024)
    ensures forall i: nat :: i < 1024 ==> At(mem', Slot(f.pdpt, i)) == NewPdpte(At(mem, Slot(f.pdpt, i)), i)
  {
    mem' := mem;
    for k := 4 to 1024
      invariant SameBut(mem, mem', f.pdpt, 1024)
      invariant forall i: nat :: i < 1024 ==>
        At(mem', Slot(f.pdpt, i)) == if i < k then NewPdpte(At(mem, Slot(f.pdpt, i)), i) else At(mem, Slot(f.pdpt, i))
    {
      mem' := mem'[Slot(f.pdpt, k) := At(mem', Slot(f.pdpt, k)).(present := false, bit7 := false)];
    }
  }

  /** Links the new PDPT into the new PML4, and makes every other entry of that absent. */
  method CutPml4(mem: Memory, f: Fresh) returns (mem': Memory)
    ensures SameBut(mem, mem', f.pml4, 512)
    ensures forall i: nat :: i < 512 ==> At(mem', Slot(f.pml4, i)) == NewPml4e(At(mem, Slot(f.pml4, i)), i, f)
  {
    mem' := mem[Slot(f.pml4, 0) := At(mem, Slot(f.pml4, 0)).(addr := GetShortAddress(f.pdpt) % ADDRESS_FIELD)];
    for k := 1 to 512
      invariant SameBut(mem, mem', f.pml4, 512)
      invariant forall i: nat :: i < 512 ==>
        At(mem', Slot(f.pml4, i)) ==
          if i < k then NewPml4e(At(mem, Slot(f.pml4, i)), i, f) else At(mem, Slot(f.pml4, i))
    {
      mem' := mem'[Slot(f.pml4, k) := At(mem', Slot(f.pml4, k)).(present := false)];
    }
  }

  // ---- what it means for translation ----

  lemma SplitLow(va: nat)
    requires va < FOUR_GIB
    ensures Split(va).i4 == 0 && Split(va).i3 < 4
  {
  }

  lemma SplitHigh(va: nat)
    requires Canonical(va) && va >= FOUR_GIB
    ensures 0 < Split(va).i4 < 512 || (Split(va).i4 == 0 && 4 <= Split(va).i3 < 512)
  {
  }

  /** The new PML4 entry points to the new PDPT: no address bit is lost in the 40-bit field. */
  lemma Linked(f: Fresh)
    requires f.pdpt % PAGE == 0 && f.pdpt < ADDRESS_FIELD * PAGE
    ensures GetFullAddress(GetShortAddress(f.pdpt) % ADDRESS_FIELD) == f.pdpt
  {
  }

  /** Walks from the PDPT on agree when they start from equal entries and read equal entries. */
  lemma SameWalk(mem: Memory, mem': Memory, table: nat, table': nat, x: Indices, va: nat, r: Rights)
    requires At(mem', Slot(table', x.i3)) == At(mem, Slot(table, x.i3))
    requires forall a :: a in LowerReads(mem, Slot(table, x.i3), x) ==> At(mem', a) == At(mem, a)
    ensures WalkPdpt(mem', table', x, va, r) == WalkPdpt(mem, table, x, va, r)
  {
  }

  /** Below 4 GiB nothing changes: same physical address, same rights, same faults. */
  lemma TranslationPreserved(mem: Memory, mem': Memory, cr3: nat, f: Fresh, va: nat)
    requires Allocated(cr3, f) && Minimal(mem, mem', cr3, f)
    requires va < FOUR_GIB && Untouched(mem, cr3, f, va)
    ensures Walk(mem', f.pml4, va) == Walk(mem, cr3, va)
  {
    SplitLow(va);
    Linked(f);
    var x := Split(va);
    var e4 := At(mem, Slot(cr3, 0));
    if e4.present && !e4.bit7 {
      var pdpt := GetPdptAt(mem, cr3, 0);
      assert Slot(pdpt, x.i3) in WalkReads(mem, cr3, va);
      SameWalk(mem, mem', pdpt, f.pdpt, x, va, Meet(Rights(true, true, false), e4));
    }
  }

  /** Entries are cut off by their bits present and PS alone; whatever else they hold is kept. */
  lemma RestKept(mem: Memory, mem': Memory, cr3: nat, f: Fresh, i: nat)
    requires Allocated(cr3, f) && Minimal(mem, mem', cr3, f)
    ensures i == 0 ==> At(mem', Slot(f.pml4, 0)) == At(mem, Slot(cr3, 0)).(addr := f.pdpt / 4096)
    ensures 0 < i < 512 ==> At(mem', Slot(f.pml4, i)) == At(mem, Slot(cr3, i)).(present := false)
    ensures var table := At(mem, Slot(cr3, 0)).addr * 4096;
            i < 1024 && !InFresh(f, Slot(table, i)) ==>
              At(mem', Slot(f.pdpt, i)) ==
                if i < 4 then At(mem, Slot(table, i)) else At(mem, Slot(table, i)).(present := false, bit7 := false)
  {
  }

  /** Every other canonical address is unmapped. */
  lemma RestUnmapped(mem: Memory, mem': Memory, cr3: nat, f: Fresh, va: nat)
    requires Allocated(cr3, f) && Minimal(mem, mem', cr3, f)
    requires Canonical(va) && va >= FOUR_GIB
    ensures Walk(mem', f.pml4, va) == Fault
  {
    SplitHigh(va);
    Linked(f);
    assert Split(va).i4 > 0 ==> !At(mem', Slot(f.pml4, Split(va).i4)).present;
    assert Split(va).i4 == 0 ==> !At(mem', Slot(f.pdpt, Split(va).i3)).present;
  }

  /** The tables that were copied from still translate every address as before, 4 GiB or not. */
  lemma BaseUnchanged(mem: Memory, mem': Memory, cr3: nat, f: Fresh, va: nat)
    requires Minimal(mem, mem', cr3, f)
    requires Untouched(mem, cr3, f, va)
    ensures Walk(mem', cr3, va) == Walk(mem, cr3, va)
  {
    var x := Split(va);
    var pml4e := Slot(cr3, x.i4);
    var e4 := At(mem, pml4e);
    assert pml4e in WalkReads(mem, cr3, va);
    if e4.present && !e4.bit7 {
      var pdpt := GetFullAddress(e4.addr);
      assert Slot(pdpt, x.i3) in WalkReads(mem, cr3, va);
      SameWalk(mem, mem', pdpt, pdpt, x, va, Meet(Rights(true, true, false), e4));
    }
  }

  /** A page of data is no table: where a 2 MiB page maps it, a fresh page may lie in it. */
  lemma DataPagesMayBeReused(mem: Memory)
    requires At(mem, 0x1000) == BLANK.(present := true, addr := 0x4)
    requires At(mem, 0x4000) == BLANK.(present := true, addr := 0x10)
    requires At(mem, 0x1_0008) == BLANK.(present := true, bit7 := true, addr := 0x200)
    ensures var f := Fresh(0x20_0000, 0x20_1000, 0x20_3000);
            Allocated(0x1000, f) && Untouched(mem, 0x1000, f, 0x20_0000)
  {
    assert Split(0x20_0000) == Indices(0, 0, 1, 0);
    assert WalkReads(mem, 0x1000, 0x20_0000) == {0x1000, 0x4000, 0x1_0008};
  }
}
