/**
 The recursive page-table map and the direct map: the address arithmetic of the macros on
 64-bit words, and what it means for a four-level page walk.
 */
module PageTable {

  type Addr = bv64

  const PG_V: bv64 := 0x1
  const PG_PS: bv64 := 0x80
  const PG_FRAME: bv64 := 0x000f_ffff_ffff_f000

  const PML4PML4I: bv64 := 256
  const KPML4I: bv64 := 511
  const NDMPML4E: bv64 := 2
  const DMPML4I: bv64 := 508

  function KVADDR(l4: bv64, l3: bv64, l2: bv64, l1: bv64): Addr {
    (0xffff_ffff_ffff_ffff << 47) | (l4 << 39) | (l3 << 30) | (l2 << 21) | (l1 << 12)
  }

  function UVADDR(l4: bv64, l3: bv64, l2: bv64, l1: bv64): Addr {
    (l4 << 39) | (l3 << 30) | (l2 << 21) | (l1 << 12)
  }

  /** The table index a level of the walk takes from an address. */
  function I4(va: Addr): bv64 { (va >> 39) & 511 }
  function I3(va: Addr): bv64 { (va >> 30) & 511 }
  function I2(va: Addr): bv64 { (va >> 21) & 511 }
  function I1(va: Addr): bv64 { (va >> 12) & 511 }
  function Offset(va: Addr): bv64 { va & 0xfff }

  predicate Index(i: bv64) { i < 512 }

  /** The address at which the recursive map shows the page-table entry of `va`. */
  function PteAddr(va: Addr): Addr {
    KVADDR(PML4PML4I, 0, 0, 0) | (((va >> 12) & 0xf_ffff_ffff) << 3)
  }

  // ------------------------------------------------------------------ levels shift by one

  /** The entry of a page is found one level up, at the page's own last index. */
  lemma {:induction false} LevelsShift(va: Addr)
    ensures I4(PteAddr(va)) == PML4PML4I && I3(PteAddr(va)) == I4(va)
    ensures I2(PteAddr(va)) == I3(va) && I1(PteAddr(va)) == I2(va)
    ensures Offset(PteAddr(va)) == I1(va) << 3
  {
  }

  /** A user address is made of its four indices and lies below the user maximum. */
  lemma {:induction false} UserIndices(l4: bv64, l3: bv64, l2: bv64, l1: bv64)
    requires l4 < 256 && Index(l3) && Index(l2) && Index(l1)
    ensures
      var va := UVADDR(l4, l3, l2, l1);
      I4(va) == l4 && I3(va) == l3 && I2(va) == l2 && I1(va) == l1 && Offset(va) == 0 && va < UVADDR(256, 0, 0, 0)
  {
  }

  /** A kernel address of its four indices, sign-extended into the upper half. */
  lemma {:induction false} KernelIndices(l4: bv64, l3: bv64, l2: bv64, l1: bv64)
    requires 256 <= l4 < 512 && Index(l3) && Index(l2) && Index(l1)
    ensures
      var va := KVADDR(l4, l3, l2, l1);
      I4(va) == l4 && I3(va) == l3 && I2(va) == l2 && I1(va) == l1 && Offset(va) == 0 && va >= KVADDR(256, 0, 0, 0)
  {
  }

  lemma {:induction false} PteOfPage(l4: bv64, l3: bv64, l2: bv64, l1: bv64)
    requires Index(l4) && Index(l3) && Index(l2) && Index(l1) && l4 >= 256
    ensures PteAddr(KVADDR(l4, l3, l2, l1)) == KVADDR(256, l4, l3, l2) + (l1 << 3)
  {
  }

  /** From the first page table on, iterating gives the four maps and ends in a fixed point. */
  lemma {:induction false} MapsIterate()
    ensures PteAddr(KVADDR(256, 0, 0, 0)) == KVADDR(256, 256, 0, 0)
    ensures PteAddr(KVADDR(256, 256, 0, 0)) == KVADDR(256, 256, 256, 0)
    ensures PteAddr(KVADDR(256, 256, 256, 0)) == KVADDR(256, 256, 256, 256)
    ensures PteAddr(KVADDR(256, 256, 256, 256)) == KVADDR(256, 256, 256, 256) + 256 * 8
    ensures PteAddr(KVADDR(256, 256, 256, 256) + 256 * 8) == KVADDR(256, 256, 256, 256) + 256 * 8
  {
  }

  // ------------------------------------------------------------------ what the walk makes of it

  /** Physical memory, read in eight-byte entries. */
  type Memory = bv64 -> bv64

  /** Where a step of the walk arrives. */
  datatype Place = Fault | At(addr: bv64)

  function Frame(e: bv64): bv64 { e & PG_FRAME }
  function ByteOf(frame: bv64, offset: bv64): bv64 { frame | offset }
  function EntryAddr(table: bv64, i: bv64): bv64 { ByteOf(table, i << 3) }
  predicate Valid(e: bv64) { (e & PG_V) != 0 }
  predicate Table(e: bv64) { Valid(e) && (e & PG_PS) == 0 }

  /** An entry's frame is the page of its 52-bit physical address. */
  lemma {:induction false} FrameIsThePage(e: bv64)
    ensures Offset(Frame(e)) == 0 && Frame(e) < 0x10_0000_0000_0000
    ensures e < 0x10_0000_0000_0000 ==> (Frame(e) | Offset(e)) == e
  {
  }

  /** An entry read as a pointer to a table, and as one to a page with a byte in it. */
  function AsTable(e: bv64): Place { if Table(e) then At(Frame(e)) else Fault }
  function AsPage(e: bv64, offset: bv64): Place { if Valid(e) then At(ByteOf(Frame(e), offset)) else Fault }

  /** Follow one level: the table the entry points to, if it points to one. */
  function Descend(mem: Memory, table: bv64, i: bv64): Place { AsTable(mem(EntryAddr(table, i))) }

  /** The last level: the page and the byte in it. */
  function Leaf(mem: Memory, table: bv64, i: bv64, offset: bv64): Place {
    AsPage(mem(EntryAddr(table, i)), offset)
  }

  /** The table of level 3, 2, 1 that the walk of `va` goes through, large pages excepted. */
  function Table3(mem: Memory, root: bv64, va: Addr): Place { Descend(mem, root, I4(va)) }

  function Table2(mem: Memory, root: bv64, va: Addr): Place {
    var t := Table3(mem, root, va);
    if t.Fault? then Fault else Descend(mem, t.addr, I3(va))
  }

  function Table1(mem: Memory, root: bv64, va: Addr): Place {
    var t := Table2(mem, root, va);
    if t.Fault? then Fault else Descend(mem, t.addr, I2(va))
  }

  /** The physical address `va` translates to. */
  function Walk(mem: Memory, root: bv64, va: Addr): Place {
    var t := Table1(mem, root, va);
    if t.Fault? then Fault else Leaf(mem, t.addr, I1(va), Offset(va))
  }

  lemma {:induction false} PresentTable(e: bv64)
    ensures AsTable(e).At? <==> (e & 0x1) != 0 && (e & 0x80) == 0
    ensures AsPage(e, 0).At? <==> (e & 0x1) != 0
  {
  }

  /** A walk arrives only through present entries, the upper ones pointing to tables. */
  lemma {:induction false} WalkNeedsPresent(mem: Memory, root: bv64, va: Addr)
    requires Walk(mem, root, va).At?
    ensures
      var e := mem(EntryAddr(root, I4(va)));
      Table3(mem, root, va) == AsTable(e) && (e & 0x1) != 0 && (e & 0x80) == 0
  {
    var e := mem(EntryAddr(root, I4(va)));
    assert Table3(mem, root, va) == AsTable(e);
    PresentTable(e);
  }

  /** The slot PML4PML4I of the root table points back at the root table. */
  predicate SelfMapped(mem: Memory, root: bv64) {
    Frame(root) == root && Descend(mem, root, PML4PML4I) == At(root)
  }

  lemma {:induction false} TablesShift(mem: Memory, root: bv64, va: Addr)
    requires SelfMapped(mem, root)
    ensures Table3(mem, root, PteAddr(va)) == At(root)
    ensures Table2(mem, root, PteAddr(va)) == Table3(mem, root, va)
    ensures Table1(mem, root, PteAddr(va)) == Table2(mem, root, va)
  {
    LevelsShift(va);
  }

  /** A table entry read as a page entry: the byte address lands inside that table. */
  lemma {:induction false} TableAsPage(e: bv64, t: bv64, offset: bv64)
    requires AsTable(e) == At(t)
    ensures AsPage(e, offset) == At(ByteOf(t, offset))
  {
    assert Valid(e) && t == Frame(e);
  }

  lemma {:induction false} WalkEnds(mem: Memory, root: bv64, va: Addr, t: bv64, i: bv64, offset: bv64)
    requires Table1(mem, root, va) == At(t) && I1(va) == i && Offset(va) == offset
    ensures Walk(mem, root, va) == Leaf(mem, t, i, offset)
  {
  }

  /** So entry `i` of the table `t` that `e` points to is a byte of `e` as a page. */
  lemma {:induction false} EntryIsAByteOfItsTable(e: bv64, t: bv64, i: bv64)
    requires AsTable(e) == At(t)
    ensures AsPage(e, i << 3) == At(EntryAddr(t, i))
  {
    TableAsPage(e, t, i << 3);
  }

  lemma {:induction false} ReadsOneEntry(mem: Memory, t: bv64, i: bv64, offset: bv64)
    ensures Descend(mem, t, i) == AsTable(mem(EntryAddr(t, i)))
    ensures Leaf(mem, t, i, offset) == AsPage(mem(EntryAddr(t, i)), offset)
  {
  }

  lemma {:induction false} TableEndsWalk(mem: Memory, root: bv64, va: Addr, t: bv64)
    requires Table2(mem, root, va) == At(t)
    ensures Table1(mem, root, va) == Descend(mem, t, I2(va))
  {
  }

  /**
   The recursive map is right: wherever a table of 4K entries covers `va`, reading through
   `PteAddr(va)` reads the page-table entry of `va`, at its physical place.
   */
  lemma {:induction false} PteAddrTranslates(mem: Memory, root: bv64, va: Addr)
    requires SelfMapped(mem, root) && Table1(mem, root, va).At?
    ensures Walk(mem, root, PteAddr(va)) == At(EntryAddr(Table1(mem, root, va).addr, I1(va)))
  {
    var t2, t1 := Table2(mem, root, va).addr, Table1(mem, root, va).addr;
    var i, offset := I2(va), I1(va) << 3;
    TableEndsWalk(mem, root, va, t2);
    ReadsOneEntry(mem, t2, i, offset);
    EntryIsAByteOfItsTable(mem(EntryAddr(t2, i)), t1, I1(va));
    LevelsShift(va);
    TablesShift(mem, root, va);
    WalkEnds(mem, root, PteAddr(va), t2, i, offset);
  }

  /**
   And recursively so: the entry of the entry is the directory entry that maps the page
   table, then the one above, up to the root's own slot.
   */
  lemma {:induction false} PteAddrRecurses(mem: Memory, root: bv64, va: Addr)
    requires SelfMapped(mem, root) && Table1(mem, root, va).At?
    ensures Walk(mem, root, PteAddr(PteAddr(va))) == At(EntryAddr(Table2(mem, root, va).addr, I2(va)))
    ensures Walk(mem, root, PteAddr(PteAddr(PteAddr(va)))) == At(EntryAddr(Table3(mem, root, va).addr, I3(va)))
    ensures Walk(mem, root, PteAddr(PteAddr(PteAddr(PteAddr(va))))) == At(EntryAddr(root, I4(va)))
  {
    var p1 := PteAddr(va);
    var p2 := PteAddr(p1);
    var p3 := PteAddr(p2);
    LevelsShift(va);
    LevelsShift(p1);
    LevelsShift(p2);
    TablesShift(mem, root, va);
    TablesShift(mem, root, p1);
    TablesShift(mem, root, p2);
    PteAddrTranslates(mem, root, p1);
    PteAddrTranslates(mem, root, p2);
    PteAddrTranslates(mem, root, p3);
  }

  // ------------------------------------------------------------------ the direct map

  const DMAP_MIN_ADDRESS: Addr := 0xffff_fe00_0000_0000
  const DMAP_MAX_ADDRESS: Addr := 0xffff_ff00_0000_0000

  lemma {:induction false} DirectMapBounds()
    ensures DMAP_MIN_ADDRESS == KVADDR(DMPML4I, 0, 0, 0)
    ensures DMAP_MAX_ADDRESS == KVADDR(DMPML4I + NDMPML4E, 0, 0, 0)
  {
  }

  /** The regions at the addresses the memory map documents. */
  lemma {:induction false} RegionLiterals()
    ensures UVADDR(256, 0, 0, 0) == 0x0000_8000_0000_0000
    ensures KVADDR(PML4PML4I, 0, 0, 0) == 0xffff_8000_0000_0000
    ensures KVADDR(KPML4I, 0, 0, 0) == 0xffff_ff80_0000_0000
    ensures KVADDR(PML4PML4I, PML4PML4I, PML4PML4I, PML4PML4I) == 0xffff_8040_2010_0000
  {
  }

  function PhysToDmap(x: bv64): Addr { x | DMAP_MIN_ADDRESS }
  function DmapToPhys(x: Addr): bv64 { x & !DMAP_MIN_ADDRESS }
  predicate InDmap(va: Addr) { DMAP_MIN_ADDRESS <= va < DMAP_MAX_ADDRESS }

  /** Exactly the first terabyte of physical memory has a direct-map address that leads back. */
  lemma {:induction false} DirectMapRoundTrip(x: bv64)
    ensures InDmap(PhysToDmap(x)) && DmapToPhys(PhysToDmap(x)) == x <==> x < 0x100_0000_0000
  {
  }

  lemma {:induction false} DirectMapInverse(va: Addr)
    requires InDmap(va)
    ensures DmapToPhys(va) < 0x100_0000_0000 && PhysToDmap(DmapToPhys(va)) == va
  {
  }

  /** The regions of the address space by their top-level index: no address is in two of them. */
  lemma {:induction false} RegionsByTopIndex(va: Addr)
    ensures InDmap(va) <==> va >= KVADDR(256, 0, 0, 0) && DMPML4I <= I4(va) < DMPML4I + NDMPML4E
    ensures KVADDR(256, 0, 0, 0) <= va < KVADDR(257, 0, 0, 0) <==>
              va >= KVADDR(256, 0, 0, 0) && I4(va) == PML4PML4I
    ensures va >= KVADDR(KPML4I, 0, 0, 0) <==> va >= KVADDR(256, 0, 0, 0) && I4(va) == KPML4I
    ensures va < UVADDR(256, 0, 0, 0) ==> !(va >= KVADDR(256, 0, 0, 0)) && I4(va) < 256
  {
  }
}
