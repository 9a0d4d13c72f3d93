/** The start-up computations and the older bring-up path of
    plat/kvm/arm/setup.c: PSCI conduit selection, the memory layout, the
    command-line copy, the `cpu_possible_map` fill and the CONFIG_SMP
    counters shared by `start_cpu`, `init_secondary` and `release_aps`. */
module Setup {
  import opened Machine
  import opened Devicetree
  import Psci
  import Polling
  import Smp

  // ---------------------------------------------------------------------
  // _dtb_get_psci_method
  // ---------------------------------------------------------------------

  /** A PSCI node: the raw value of its `method` property, if any. */
  datatype PsciNode = PsciNode(methodValue: Option<seq<char>>)

  /** The conduit a node's `method` names: "hvc" or "smc"; a missing or
      empty property, or any other string, names none. */
  function ConduitOf(node: PsciNode): (c: Option<Psci.Conduit>)
    ensures c == Some(Psci.Hvc) <==>
      node.methodValue.Some? && |node.methodValue.value| > 0 && StrEq(node.methodValue.value, "hvc")
    ensures c == Some(Psci.Smc) <==>
      node.methodValue.Some? && |node.methodValue.value| > 0 && StrEq(node.methodValue.value, "smc")
  {
    match node.methodValue
    case None => None
    case Some(m) =>
      if |m| == 0 then None
      else if StrEq(m, "hvc") then Some(Psci.Hvc)
      else if StrEq(m, "smc") then Some(Psci.Smc)
      else None
  }

  /** `smcc_psci_call` after start-up, from the first "arm,psci-1.0" node
      and the first "arm,psci-0.2" node; None stands for NULL. */
  function PsciMethod(psci10: Option<PsciNode>, psci02: Option<PsciNode>): (c: Option<Psci.Conduit>)
    ensures psci10.Some? ==> c == ConduitOf(psci10.value)
    ensures psci10.None? && psci02.Some? ==> c == ConduitOf(psci02.value)
    ensures psci10.None? && psci02.None? ==> c.None?
  {
    var node := if psci10.Some? then psci10 else psci02;
    if node.None? then None else ConduitOf(node.value)
  }

  /** A PSCI 1.0 node decides alone, whatever the 0.2 node says; without
      one the 0.2 node decides; without either no conduit is selected. */
  lemma PsciMethodPreference(a: Option<PsciNode>, b: Option<PsciNode>, b': Option<PsciNode>)
    ensures a.Some? ==> PsciMethod(a, b) == PsciMethod(a, b') == ConduitOf(a.value)
    ensures b.Some? ==> PsciMethod(None, b) == ConduitOf(b.value)
    ensures PsciMethod(None, None) == None
    ensures PsciMethod(a, b).Some? ==> a.Some? || b.Some?
  {
  }

  /** The strings the selection accepts: the property value is compared
      up to its first NUL, so bytes after it do not matter. */
  lemma ConduitNamesAccepted()
    ensures ConduitOf(PsciNode(Some("hvc\0"))) == Some(Psci.Hvc)
    ensures ConduitOf(PsciNode(Some("smc\0"))) == Some(Psci.Smc)
    ensures ConduitOf(PsciNode(Some("smc\0junk"))) == Some(Psci.Smc)
  {
    assert CStr("hvc\0") == "hvc" by { CStrUpTo("hvc\0", 3); }
    assert CStr("smc\0") == "smc" by { CStrUpTo("smc\0", 3); }
    assert CStr("smc\0junk") == "smc" by { CStrUpTo("smc\0junk", 3); }
  }

  /** Some strings it rejects: the comparison is case-sensitive and exact,
      and an empty property names no conduit. */
  lemma ConduitNamesRejected()
    ensures ConduitOf(PsciNode(Some("HVC\0"))) == None
    ensures ConduitOf(PsciNode(Some("hvcx\0"))) == None
    ensures ConduitOf(PsciNode(Some([]))) == None
  {
    assert CStr("HVC\0") == "HVC" by { CStrUpTo("HVC\0", 3); }
    assert CStr("hvcx\0") == "hvcx" by { CStrUpTo("hvcx\0", 4); }
  }

  // ---------------------------------------------------------------------
  // _init_dtb_mem
  // ---------------------------------------------------------------------

  /** __PAGE_SIZE on arm64 and __STACK_ALIGN_SIZE. */
  const PAGE_SIZE: nat := 4096
  const STACK_ALIGN_SIZE: nat := 16

  /** The memory node: the values fdt_address_cells and fdt_size_cells
      return, its `reg` cells, and the cells stored right after `reg` in
      the blob (which a load past the end of `reg` reads). */
  datatype MemNode = MemNode(addressCells: int, sizeCells: int, reg: Option<seq<u32>>, following: seq<u32>)

  /** Link-time symbols and configuration: __TEXT, __END,
      page_table_size and __STACK_SIZE. */
  datatype Image = Image(text: u64, imageEnd: u64, pageTableSize: u64, stackSize: u64)

  datatype Region = Region(start: u64, end: u64, len: u64)

  /** The three regions of `_libkvmplat_cfg`. */
  datatype Layout = Layout(pagetable: Region, heap: Region, bstack: Region)

  datatype MemError = AddressCellsRange | SizeCellsRange | RegTooShort | ImageOutsideRam | NotEnoughMemory | MemoryWraps

  /** No memory node (the configuration stays zero), a crash, or a layout. */
  datatype MemOutcome = NoMemory | Crash(reason: MemError) | Configured(layout: Layout)

  /** The first bank as written: `regs[0]` and `regs[1]`, two big-endian
      64-bit loads from the start of `reg`, whatever the cell counts. */
  function BankAsWritten(reg: seq<u32>, following: seq<u32>): (bank: (u64, u64))
    requires |reg| + |following| >= 4
    ensures |reg| >= 4 ==> bank == (reg[0] * U32_LIMIT + reg[1], reg[2] * U32_LIMIT + reg[3])
  {
    var c := reg + following;
    (c[0] * U32_LIMIT + c[1], c[2] * U32_LIMIT + c[3])
  }

  /** The first bank read with the node's cell counts: `naddr` cells of
      base address followed by `nsize` cells of size. */
  function Bank(reg: seq<u32>, naddr: nat, nsize: nat): (bank: (u64, u64))
    requires naddr + nsize <= |reg|
    ensures naddr == 2 && nsize == 2 ==> bank == (reg[0] * U32_LIMIT + reg[1], reg[2] * U32_LIMIT + reg[3])
    ensures naddr == 1 && nsize == 1 ==> bank == (reg[0], reg[1])
    ensures naddr == 0 ==> bank.0 == 0
    ensures nsize > 0 ==> bank.1 % U32_LIMIT == reg[naddr + nsize - 1]
  {
    ReadNumberPrefix(reg);
    ReadNumberPrefix(reg[naddr..]);
    (ReadNumber(reg, naddr), ReadNumber(reg[naddr..], nsize))
  }

  /** With two cells each (the layout QEMU's virt machine uses) both reads
      agree; with one cell each the loads as written run the address and
      the size together. */
  lemma BankCellCounts(hiBase: u32, loBase: u32, hiSize: u32, loSize: u32, following: seq<u32>)
    ensures var reg := [hiBase, loBase, hiSize, loSize];
      BankAsWritten(reg, following) == Bank(reg, 2, 2)
    ensures |following| >= 2 ==>
      BankAsWritten([0x4000_0000, 0x0800_0000], following).0 == 0x4000_0000_0800_0000
    ensures Bank([0x4000_0000, 0x0800_0000], 1, 1) == (0x4000_0000, 0x0800_0000)
  {
    var reg := [hiBase, loBase, hiSize, loSize];
    ReadNumberCells(hiBase, loBase);
    assert reg[..2] == [hiBase, loBase] && reg[2..] == [hiSize, loSize];
    assert [hiSize, loSize][..2] == [hiSize, loSize];
    assert ReadNumber(reg, 2) == ReadNumber([hiBase, loBase], 2);
    ReadNumberCells(hiSize, loSize);
    ReadNumberCells(0x4000_0000, 0x0800_0000);
    ReadNumberCells(0, 0x0800_0000);
    assert [0x4000_0000, 0x0800_0000][1..] == [0x0800_0000];
  }

  /** The page-table region as written: start rounded down to a page,
      length rounded up to a page, end their uint64_t sum. */
  function PageTable(img: Image): (r: Region)
    ensures r.start % PAGE_SIZE == 0 && r.start <= img.imageEnd < r.start + PAGE_SIZE
    ensures r.len % PAGE_SIZE == 0
    ensures r.end == Wrap64(r.start + r.len)
  {
    var start := AlignDown(img.imageEnd, PAGE_SIZE);
    var len := AlignUp(img.pageTableSize, PAGE_SIZE);
    Region(start, Wrap64(start + len), len)
  }

  /** The boot-stack region as written: end rounded down from the uint64_t
      end of RAM, length rounded up, start their uint64_t difference. */
  function BootStack(base: u64, size: u64, img: Image): (r: Region)
    ensures r.end % STACK_ALIGN_SIZE == 0 && r.end <= Wrap64(base + size) < r.end + STACK_ALIGN_SIZE
    ensures r.len % STACK_ALIGN_SIZE == 0
    ensures r.start == Wrap64(r.end - r.len)
  {
    var end := AlignDown(Wrap64(base + size), STACK_ALIGN_SIZE);
    var len := AlignUp(img.stackSize, STACK_ALIGN_SIZE);
    Region(Wrap64(end - len), end, len)
  }

  /** The layout arithmetic as written, in uint64_t: a crash when the
      image starts below RAM or the heap would be negative. */
  function LayoutAsWritten(base: u64, size: u64, img: Image): (r: Result<Layout, MemError>)
    ensures r == Err(ImageOutsideRam) <==> base > img.text
    ensures r == Err(NotEnoughMemory) <==>
      base <= img.text && PageTable(img).end > BootStack(base, size, img).start
    ensures r.Err? ==> r.error == ImageOutsideRam || r.error == NotEnoughMemory
    ensures r.Ok? ==>
      && r.value.pagetable == PageTable(img) && r.value.bstack == BootStack(base, size, img)
      && r.value.heap.start == r.value.pagetable.end && r.value.heap.end == r.value.bstack.start
      && r.value.heap.start <= r.value.heap.end && r.value.heap.len == r.value.heap.end - r.value.heap.start
  {
    if base > img.text then Err(ImageOutsideRam)
    else
      var pt := PageTable(img);
      var st := BootStack(base, size, img);
      if pt.end > st.start then Err(NotEnoughMemory)
      else Ok(Layout(pt, Region(pt.end, st.start, Wrap64(st.start - pt.end)), st))
  }

  /** Whether one of the sums or differences wraps: RAM end, either
      rounding up, the page-table end, or the stack start. */
  predicate Wraps(base: u64, size: u64, img: Image)
  {
    || base + size >= U64_LIMIT
    || img.pageTableSize + PAGE_SIZE - 1 >= U64_LIMIT
    || img.stackSize + STACK_ALIGN_SIZE - 1 >= U64_LIMIT
    || AlignDown(img.imageEnd, PAGE_SIZE) + AlignUp(img.pageTableSize, PAGE_SIZE) >= U64_LIMIT
    || AlignDown(base + size, STACK_ALIGN_SIZE) < AlignUp(img.stackSize, STACK_ALIGN_SIZE)
  }

  /** The layout with every wrap-around rejected. */
  function Layout64(base: u64, size: u64, img: Image): (r: Result<Layout, MemError>)
    ensures r == Err(ImageOutsideRam) <==> base > img.text
    ensures r == Err(MemoryWraps) <==> base <= img.text && Wraps(base, size, img)
    ensures r == Err(NotEnoughMemory) <==>
      base <= img.text && !Wraps(base, size, img) && PageTable(img).end > BootStack(base, size, img).start
    ensures r.Ok? ==> LayoutSound(base, size, img, r.value)
  {
    if base > img.text then Err(ImageOutsideRam)
    else if Wraps(base, size, img) then Err(MemoryWraps)
    else
      PageTableSound(img);
      BootStackSound(base, size, img);
      LayoutAsWritten(base, size, img)
  }

  /** Without wrap-around the page table starts at the image end's page
      and its length is the configured size rounded up to a page. */
  lemma PageTableSound(img: Image)
    requires img.pageTableSize + PAGE_SIZE - 1 < U64_LIMIT
    requires AlignDown(img.imageEnd, PAGE_SIZE) + AlignUp(img.pageTableSize, PAGE_SIZE) < U64_LIMIT
    ensures var pt := PageTable(img);
      && pt.start % PAGE_SIZE == 0 && pt.start <= img.imageEnd < pt.start + PAGE_SIZE
      && pt.len % PAGE_SIZE == 0 && img.pageTableSize <= pt.len < img.pageTableSize + PAGE_SIZE
      && pt.end == pt.start + pt.len
  {
  }

  /** Without wrap-around the boot stack ends at the last 16-byte-aligned
      address of RAM and is at least the configured size. */
  lemma BootStackSound(base: u64, size: u64, img: Image)
    requires base + size < U64_LIMIT && img.stackSize + STACK_ALIGN_SIZE - 1 < U64_LIMIT
    requires AlignDown(base + size, STACK_ALIGN_SIZE) >= AlignUp(img.stackSize, STACK_ALIGN_SIZE)
    ensures var st := BootStack(base, size, img);
      && st.end % STACK_ALIGN_SIZE == 0 && st.end <= base + size < st.end + STACK_ALIGN_SIZE
      && st.len % STACK_ALIGN_SIZE == 0 && img.stackSize <= st.len
      && st.start + st.len == st.end
  {
  }

  /** What the layout promises: a page-aligned page table starting at the
      image end's page, a 16-byte-aligned boot stack ending at the last
      aligned address of RAM, and the heap exactly between them, each
      region's length its end minus its start, all in exact arithmetic. */
  ghost predicate LayoutSound(base: u64, size: u64, img: Image, l: Layout)
  {
    && base <= img.text
    && l.pagetable.start % PAGE_SIZE == 0
    && l.pagetable.start <= img.imageEnd < l.pagetable.start + PAGE_SIZE
    && l.pagetable.len % PAGE_SIZE == 0
    && img.pageTableSize <= l.pagetable.len < img.pageTableSize + PAGE_SIZE
    && l.pagetable.end == l.pagetable.start + l.pagetable.len
    && l.heap.start == l.pagetable.end
    && l.heap.end == l.bstack.start
    && l.heap.start <= l.heap.end
    && l.heap.len == l.heap.end - l.heap.start
    && l.bstack.end % STACK_ALIGN_SIZE == 0
    && l.bstack.end <= base + size < l.bstack.end + STACK_ALIGN_SIZE
    && l.bstack.len % STACK_ALIGN_SIZE == 0
    && img.stackSize <= l.bstack.len
    && l.bstack.start + l.bstack.len == l.bstack.end
  }

  /** Without wrap-around the code as written computes exactly the sound
      layout. */
  lemma LayoutAgreesWithoutWrap(base: u64, size: u64, img: Image)
    requires !Wraps(base, size, img)
    ensures LayoutAsWritten(base, size, img) == Layout64(base, size, img)
  {
  }

  /** A memory bank reaching the top of the address space: the end of RAM
      wraps, and as long as the page table ends below the (wrapped) stack
      start the layout as written is accepted, with a boot stack that ends
      below the start of RAM; the layout with wrap-around rejected refuses
      it. */
  lemma LayoutWrapsAsWritten(base: u64, size: u64, img: Image)
    requires base <= img.text && base + size >= U64_LIMIT
    requires PageTable(img).end <= BootStack(base, size, img).start
    ensures LayoutAsWritten(base, size, img).Ok?
    ensures LayoutAsWritten(base, size, img).value.bstack.end < base
    ensures Layout64(base, size, img) == Err(MemoryWraps)
  {
  }

  /** A bank at 0x4000_0000 reaching exactly 2^64 with a 64 KiB stack
      meets that condition: the stack is [2^64 - 64 KiB, 0). */
  lemma WrapExample()
    ensures var img := Image(0x4008_0000, 0x4010_0000, 0x1000, 0x1_0000);
      && 0x4000_0000 + 0xffff_ffff_c000_0000 >= U64_LIMIT
      && PageTable(img).end <= BootStack(0x4000_0000, 0xffff_ffff_c000_0000, img).start
      && BootStack(0x4000_0000, 0xffff_ffff_c000_0000, img) == Region(0xffff_ffff_ffff_0000, 0, 0x1_0000)
  {
    WrappedPageTable();
    WrappedStack();
  }

  /** The page table of that image. */
  lemma WrappedPageTable()
    ensures PageTable(Image(0x4008_0000, 0x4010_0000, 0x1000, 0x1_0000)) == Region(0x4010_0000, 0x4010_1000, 0x1000)
  {
    assert AlignDown(0x4010_0000, PAGE_SIZE) == 0x4010_0000;
    assert AlignUp(0x1000, PAGE_SIZE) == 0x1000 by {
      assert Wrap64(0x1000 + PAGE_SIZE - 1) == 0x1fff;
    }
  }

  /** The boot stack of that bank, each uint64_t step on its own. */
  lemma WrappedStack()
    ensures BootStack(0x4000_0000, 0xffff_ffff_c000_0000, Image(0x4008_0000, 0x4010_0000, 0x1000, 0x1_0000))
      == Region(0xffff_ffff_ffff_0000, 0, 0x1_0000)
  {
    var top := Wrap64(0x4000_0000 + 0xffff_ffff_c000_0000);
    assert top == 0;
    assert AlignDown(top, STACK_ALIGN_SIZE) == 0;
    assert AlignUp(0x1_0000, STACK_ALIGN_SIZE) == 0x1_0000 by {
      assert Wrap64(0x1_0000 + STACK_ALIGN_SIZE - 1) == 0x1_000f;
    }
    WrapBelowZero();
  }

  lemma WrapBelowZero()
    ensures Wrap64(0 - 0x1_0000) == 0xffff_ffff_ffff_0000
  {
  }

  /** _init_dtb_mem as written. */
  function MemConfigAsWritten(node: Option<MemNode>, img: Image): (r: MemOutcome)
    requires node.Some? && node.value.reg.Some? ==> |node.value.reg.value| + |node.value.following| >= 4
    ensures node.None? <==> r == NoMemory
    ensures r == Crash(SizeCellsRange) <==>
      node.Some? && 0 <= node.value.addressCells < FDT_MAX_NCELLS
      && (node.value.sizeCells < 0 || node.value.sizeCells >= FDT_MAX_NCELLS)
    ensures r == Crash(RegTooShort) <==>
      && node.Some? && 0 <= node.value.addressCells < FDT_MAX_NCELLS && 0 <= node.value.sizeCells < FDT_MAX_NCELLS
      && (node.value.reg.None? || |node.value.reg.value| < node.value.addressCells + node.value.sizeCells)
    ensures r != Crash(MemoryWraps)
  {
    match node
    case None => NoMemory
    case Some(n) =>
      if n.addressCells < 0 || n.addressCells >= FDT_MAX_NCELLS then Crash(AddressCellsRange)
      else if n.sizeCells < 0 || n.sizeCells >= FDT_MAX_NCELLS then Crash(SizeCellsRange)
      else if n.reg.None? || |n.reg.value| < n.addressCells + n.sizeCells then Crash(RegTooShort)
      else
        var bank := BankAsWritten(n.reg.value, n.following);
        match LayoutAsWritten(bank.0, bank.1, img)
        case Ok(l) => Configured(l)
        case Err(e) => Crash(e)
  }

  /** _init_dtb_mem with the bank read by cell counts and wrap-around
      rejected: every check of the code as written, in the same order. */
  function MemConfig(node: Option<MemNode>, img: Image): (r: MemOutcome)
    ensures node.None? <==> r == NoMemory
    ensures node.Some? && (node.value.addressCells < 0 || node.value.addressCells >= FDT_MAX_NCELLS)
      ==> r == Crash(AddressCellsRange)
    ensures r == Crash(SizeCellsRange) <==>
      node.Some? && 0 <= node.value.addressCells < FDT_MAX_NCELLS
      && (node.value.sizeCells < 0 || node.value.sizeCells >= FDT_MAX_NCELLS)
    ensures r == Crash(RegTooShort) <==>
      && node.Some? && 0 <= node.value.addressCells < FDT_MAX_NCELLS && 0 <= node.value.sizeCells < FDT_MAX_NCELLS
      && (node.value.reg.None? || |node.value.reg.value| < node.value.addressCells + node.value.sizeCells)
    ensures r.Configured? ==>
      && node.Some? && node.value.reg.Some?
      && 0 <= node.value.addressCells && 0 <= node.value.sizeCells
      && node.value.addressCells + node.value.sizeCells <= |node.value.reg.value|
      && var n := node.value;
      var bank := Bank(n.reg.value, n.addressCells, n.sizeCells);
      LayoutSound(bank.0, bank.1, img, r.layout)
  {
    match node
    case None => NoMemory
    case Some(n) =>
      if n.addressCells < 0 || n.addressCells >= FDT_MAX_NCELLS then Crash(AddressCellsRange)
      else if n.sizeCells < 0 || n.sizeCells >= FDT_MAX_NCELLS then Crash(SizeCellsRange)
      else if n.reg.None? || |n.reg.value| < n.addressCells + n.sizeCells then Crash(RegTooShort)
      else
        var bank := Bank(n.reg.value, n.addressCells, n.sizeCells);
        match Layout64(bank.0, bank.1, img)
        case Ok(l) => Configured(l)
        case Err(e) => Crash(e)
  }

  /** With two address and two size cells and a bank that does not wrap,
      the code as written and the corrected configuration agree. */
  lemma MemConfigAgrees(n: MemNode, img: Image)
    requires n.addressCells == 2 && n.sizeCells == 2
    requires n.reg.Some? ==> |n.reg.value| + |n.following| >= 4
    requires n.reg.Some? && |n.reg.value| >= 4 ==>
      var reg := n.reg.value;
      !Wraps(reg[0] * U32_LIMIT + reg[1], reg[2] * U32_LIMIT + reg[3], img)
    ensures MemConfigAsWritten(Some(n), img) == MemConfig(Some(n), img)
  {
    if n.reg.Some? && |n.reg.value| >= 4 {
      var reg := n.reg.value;
      LayoutAgreesWithoutWrap(reg[0] * U32_LIMIT + reg[1], reg[2] * U32_LIMIT + reg[3], img);
    }
  }

  // ---------------------------------------------------------------------
  // _dtb_get_cmdline
  // ---------------------------------------------------------------------

  /** sizeof(cmdline). */
  const MAX_CMDLINE_SIZE: nat := 1024

  /** strncpy(dst, src, n) where `src` holds at least `n` characters: the
      first `n` characters of `dst` become the C string of `src`, cut at
      `n`, padded with NULs. */
  function StrNCpy(dst: seq<char>, src: seq<char>, n: nat): (r: seq<char>)
    requires n <= |dst| && n <= |src|
    ensures |r| == |dst| && r[n..] == dst[n..]
    ensures forall i :: 0 <= i < n ==> r[i] == (if i < |CStr(src)| then src[i] else '\0')
  {
    seq(|dst|, i requires 0 <= i < |dst| =>
      if i < n then (if i < |CStr(src)| then src[i] else '\0') else dst[i])
  }

  /** How many bytes are copied: the property length, cut to the buffer. */
  function CopyLen(len: nat): (n: nat)
    ensures n <= MAX_CMDLINE_SIZE && n <= len
    ensures n == len || n == MAX_CMDLINE_SIZE
  {
    if MAX_CMDLINE_SIZE >= len then len else MAX_CMDLINE_SIZE
  }

  /** The command-line buffer after _dtb_get_cmdline; `bootargs` is the raw
      `bootargs` value of /chosen (None when either is missing). A missing
      or empty value leaves the buffer alone; otherwise the copied prefix
      ends in a NUL and the rest of the buffer is untouched. */
  function Cmdline(buf: seq<char>, bootargs: Option<seq<char>>): (r: seq<char>)
    requires |buf| == MAX_CMDLINE_SIZE
    ensures |r| == MAX_CMDLINE_SIZE
    ensures bootargs.None? || |bootargs.value| == 0 ==> r == buf
    ensures bootargs.Some? && |bootargs.value| > 0 ==>
      var n := CopyLen(|bootargs.value|);
      r[n - 1] == '\0' && r[n..] == buf[n..]
  {
    if bootargs.None? || |bootargs.value| == 0 then buf
    else
      var n := CopyLen(|bootargs.value|);
      StrNCpy(buf, bootargs.value, n)[n - 1 := '\0']
  }

  /** The command line the application sees is the `bootargs` string cut
      to the copied length minus one, so it always ends inside the
      buffer: a string that fits arrives whole, a longer one is truncated
      to MAX_CMDLINE_SIZE - 1 characters. */
  lemma CmdlineString(buf: seq<char>, bootargs: seq<char>)
    requires |buf| == MAX_CMDLINE_SIZE && |bootargs| > 0
    ensures var s := CStr(bootargs);
      var n := CopyLen(|bootargs|);
      CStr(Cmdline(buf, Some(bootargs))) == s[..if |s| < n then |s| else n - 1]
    ensures |CStr(Cmdline(buf, Some(bootargs)))| < MAX_CMDLINE_SIZE
  {
    var s := CStr(bootargs);
    var n := CopyLen(|bootargs|);
    var r := Cmdline(buf, Some(bootargs));
    var m := if |s| < n then |s| else n - 1;
    forall i | 0 <= i < m
      ensures r[i] == s[i] && r[i] != '\0'
    {
      assert r[i] == bootargs[i];
    }
    CStrUpTo(r, m);
    assert r[..m] == s[..m];
  }

  // ---------------------------------------------------------------------
  // _init_dtb_cpu
  // ---------------------------------------------------------------------

  /** What one subnode leaves in `cpu_possible_map`: a hole, or a core id. */
  datatype MapEntry = Skipped | Possible(id: int)

  datatype MapScan = MapScan(entries: seq<MapEntry>, failure: Option<ScanError>)

  /** `cpu_possible_map[index-1] = core_id`: the uint64_t id stored in an int. */
  function PossibleId(core: u64): (id: int)
    ensures -0x8000_0000 <= id < 0x8000_0000 && (id - core) % U32_LIMIT == 0
  {
    ToInt32(core % U32_LIMIT)
  }

  /** The entry a well-formed node leaves. */
  function EntryOf(n: CpuNode, naddr: nat): MapEntry
  {
    if IsCpu(n) && HasReg(n) then Possible(PossibleId(CpuId(n, naddr))) else Skipped
  }

  function Cons(e: MapEntry, s: MapScan): MapScan
  {
    MapScan([e] + s.entries, s.failure)
  }

  function Below(cap: nat): nat
  {
    if cap == 0 then 0 else cap - 1
  }

  /** The subnode loop of _init_dtb_cpu over a map of `cap` entries. Every
      subnode advances the position, so a skipped node leaves a hole; a
      missing or non-psci enable-method or a cpu node without `reg` stops
      the loop; a cpu node whose position is past the map stops it too,
      instead of writing past the map. */
  function ScanMap(nodes: seq<CpuNode>, naddr: nat, cap: nat): (r: MapScan)
    ensures |r.entries| <= |nodes|
    ensures forall i :: 0 <= i < |r.entries| && r.entries[i].Possible? ==> i < cap
    decreases |nodes|
  {
    if nodes == [] then MapScan([], None)
    else
      var n := nodes[0];
      if n.enableMethod.None? then MapScan([], Some(NoEnableMethod))
      else if !StrEq(n.enableMethod.value, "psci") then MapScan([], Some(NotPsci))
      else if !IsCpu(n) then Cons(Skipped, ScanMap(nodes[1..], naddr, Below(cap)))
      else if !HasReg(n) then MapScan([], Some(BadReg))
      else if cap == 0 then MapScan([], Some(TooManyCpus))
      else Cons(EntryOf(n, naddr), ScanMap(nodes[1..], naddr, cap - 1))
  }

  /** Position i of the map holds what node i says, for every node the
      loop got through; a loop that completes got through every node. */
  lemma {:induction false} ScanMapEntries(nodes: seq<CpuNode>, naddr: nat, cap: nat)
    ensures var s := ScanMap(nodes, naddr, cap);
      && (forall i :: 0 <= i < |s.entries| ==> WellFormed(nodes[i]) && s.entries[i] == EntryOf(nodes[i], naddr))
      && (s.failure.None? ==> |s.entries| == |nodes|)
    decreases |nodes|
  {
    if nodes != [] {
      var n := nodes[0];
      var tail := nodes[1..];
      if UsesPsci(n) && !IsCpu(n) {
        ScanMapEntries(tail, naddr, Below(cap));
      } else if UsesPsci(n) && HasReg(n) && cap > 0 {
        ScanMapEntries(tail, naddr, cap - 1);
      }
      var s := ScanMap(nodes, naddr, cap);
      forall i | 1 <= i < |s.entries| ensures WellFormed(nodes[i]) && s.entries[i] == EntryOf(nodes[i], naddr) {
        assert nodes[i] == tail[i - 1];
      }
    }
  }

  /** Every cpu node's position fits a map of `cap` entries. */
  ghost predicate CpusFit(nodes: seq<CpuNode>, cap: nat)
  {
    forall i :: 0 <= i < |nodes| && IsCpu(nodes[i]) ==> i < cap
  }

  lemma CpusFitCons(nodes: seq<CpuNode>, cap: nat, cap': nat)
    requires nodes != [] && (IsCpu(nodes[0]) ==> cap > 0) && cap' == Below(cap)
    ensures CpusFit(nodes, cap) <==> CpusFit(nodes[1..], cap')
  {
    var tail := nodes[1..];
    if CpusFit(tail, cap') {
      forall i | 0 <= i < |nodes| && IsCpu(nodes[i]) ensures i < cap {
        if i > 0 { assert nodes[i] == tail[i - 1]; }
      }
    }
    if CpusFit(nodes, cap) {
      forall i | 0 <= i < |tail| && IsCpu(tail[i]) ensures i < cap' {
        assert tail[i] == nodes[i + 1];
      }
    }
  }

  /** The loop completes exactly when every node is well formed and every
      cpu node's position fits the map. */
  lemma {:induction false} ScanMapCompletes(nodes: seq<CpuNode>, naddr: nat, cap: nat)
    ensures ScanMap(nodes, naddr, cap).failure.None? <==> Smp.AllWellFormed(nodes) && CpusFit(nodes, cap)
    decreases |nodes|
  {
    if nodes != [] {
      var n := nodes[0];
      var tail := nodes[1..];
      Smp.AllWellFormedCons(nodes);
      if UsesPsci(n) && !IsCpu(n) {
        ScanMapCompletes(tail, naddr, Below(cap));
        CpusFitCons(nodes, cap, Below(cap));
      } else if UsesPsci(n) && HasReg(n) && cap > 0 {
        ScanMapCompletes(tail, naddr, cap - 1);
        CpusFitCons(nodes, cap, cap - 1);
      } else if UsesPsci(n) && HasReg(n) {
        assert !CpusFit(nodes, cap) by { assert IsCpu(nodes[0]); }
      }
    }
  }

  /** The core ids a map holds, in position order. */
  function PossibleIds(entries: seq<MapEntry>): (ids: seq<int>)
    ensures |ids| <= |entries|
  {
    if entries == [] then []
    else if entries[0].Possible? then [entries[0].id] + PossibleIds(entries[1..])
    else PossibleIds(entries[1..])
  }

  function TruncateAll(ids: seq<u64>): seq<int>
  {
    if ids == [] then [] else [PossibleId(ids[0])] + TruncateAll(ids[1..])
  }

  /** The two scans of /cpus agree: a complete map fill holds, in order,
      the ids smp_init writes into `cpus[]`, narrowed to int. */
  lemma {:induction false} ScansAgree(nodes: seq<CpuNode>, naddr: nat, cap: nat)
    requires ScanMap(nodes, naddr, cap).failure.None?
    ensures PossibleIds(ScanMap(nodes, naddr, cap).entries) == TruncateAll(Smp.Accepted(nodes, naddr))
    decreases |nodes|
  {
    if nodes != [] {
      var n := nodes[0];
      var s := ScanMap(nodes, naddr, cap);
      if !IsCpu(n) {
        ScansAgree(nodes[1..], naddr, Below(cap));
        assert s.entries[1..] == ScanMap(nodes[1..], naddr, Below(cap)).entries;
      } else {
        ScansAgree(nodes[1..], naddr, cap - 1);
        assert s.entries[1..] == ScanMap(nodes[1..], naddr, cap - 1).entries;
      }
    }
  }

  /** One node more than the map has entries: the loop as written (no
      bound) reaches a cpu node at position MAXCPU and stores its id past
      the map; the bounded loop stops with TooManyCpus. */
  lemma ScanMapOverflow(maxCpu: nat, naddr: nat)
    ensures var nodes := seq(maxCpu + 1, _ => Smp.GOOD_CPU);
      var unbounded := ScanMap(nodes, naddr, |nodes|);
      && unbounded.failure.None?
      && |unbounded.entries| == maxCpu + 1
      && unbounded.entries[maxCpu].Possible?
      && ScanMap(nodes, naddr, maxCpu).failure == Some(TooManyCpus)
  {
    var nodes := seq(maxCpu + 1, _ => Smp.GOOD_CPU);
    Smp.GoodNodesAccepted(nodes, naddr);
    ScanMapEntries(nodes, naddr, |nodes|);
    ScanMapCompletes(nodes, naddr, |nodes|);
    ScanMapCompletes(nodes, naddr, maxCpu);
    assert IsCpu(nodes[maxCpu]) && HasReg(nodes[maxCpu]);
    ScanMapErrorIsTooMany(nodes, naddr, maxCpu);
  }

  lemma {:induction false} ScanMapErrorIsTooMany(nodes: seq<CpuNode>, naddr: nat, cap: nat)
    requires Smp.AllWellFormed(nodes)
    ensures ScanMap(nodes, naddr, cap).failure.None? || ScanMap(nodes, naddr, cap).failure == Some(TooManyCpus)
    decreases |nodes|
  {
    if nodes != [] {
      assert WellFormed(nodes[0]);
      var tail := nodes[1..];
      assert forall i :: 0 <= i < |tail| ==> tail[i] == nodes[i + 1];
      ScanMapErrorIsTooMany(tail, naddr, Below(cap));
      if cap > 0 {
        ScanMapErrorIsTooMany(tail, naddr, cap - 1);
      }
    }
  }

  /** The enable-method test as written: when the property is missing, the
      error message dereferences the NULL property pointer. */
  datatype MethodCheck = Accept | Reject | NullDeref

  function EnableMethodCheckAsWritten(prop: Option<seq<char>>): (c: MethodCheck)
    ensures c == NullDeref <==> prop.None?
    ensures c == Accept <==> prop.Some? && StrEq(prop.value, "psci")
  {
    if prop.None? then NullDeref
    else if !StrEq(prop.value, "psci") then Reject
    else Accept
  }

  /** The test with the message not reading the missing property. */
  function EnableMethodCheck(prop: Option<seq<char>>): (c: MethodCheck)
    ensures c != NullDeref
    ensures c == Accept <==> prop.Some? && StrEq(prop.value, "psci")
  {
    if prop.None? || !StrEq(prop.value, "psci") then Reject else Accept
  }

  /** The two tests differ exactly on a node without enable-method. */
  lemma EnableMethodNullDeref(prop: Option<seq<char>>)
    ensures EnableMethodCheckAsWritten(prop) == NullDeref <==> prop.None?
    ensures prop.Some? ==> EnableMethodCheckAsWritten(prop) == EnableMethodCheck(prop)
    ensures EnableMethodCheck(None) == Reject
  {
  }

  /** `map` holds each entry's id at its position and -1 everywhere else. */
  predicate MapIs(m: seq<int>, entries: seq<MapEntry>)
  {
    forall i :: 0 <= i < |m| ==>
      m[i] == (if i < |entries| && entries[i].Possible? then entries[i].id else -1)
  }

  /** The number of ids in a map. */
  function CountPossible(entries: seq<MapEntry>): nat
  {
    if entries == [] then 0
    else CountPossible(entries[..|entries| - 1]) + (if entries[|entries| - 1].Possible? then 1 else 0)
  }

  /** Every id counted is an id of the map, so `mp_ncpus` grows by
      exactly the number of ids stored. */
  lemma {:induction false} CountIsIds(entries: seq<MapEntry>)
    ensures CountPossible(entries) == |PossibleIds(entries)|
    decreases |entries|
  {
    if entries != [] {
      var front := entries[..|entries| - 1];
      CountIsIds(front);
      PossibleIdsAppend(front, entries[|entries| - 1]);
      assert front + [entries[|entries| - 1]] == entries;
    }
  }

  lemma {:induction false} PossibleIdsAppend(es: seq<MapEntry>, e: MapEntry)
    ensures PossibleIds(es + [e]) == PossibleIds(es) + (if e.Possible? then [e.id] else [])
    decreases |es|
  {
    if es != [] {
      assert (es + [e])[1..] == es[1..] + [e];
      PossibleIdsAppend(es[1..], e);
    }
  }

  /** One node of the fill loop, unfolded: a psci node that is not a cpu
      leaves a hole, a cpu node with `reg` and room leaves its id. */
  lemma ScanMapStep(rest: seq<CpuNode>, naddr: nat, room: nat, done: seq<MapEntry>)
    requires rest != [] && UsesPsci(rest[0])
    ensures !IsCpu(rest[0]) ==>
      var next := ScanMap(rest[1..], naddr, Below(room));
      ScanMap(rest, naddr, room) == Cons(Skipped, next)
      && done + ScanMap(rest, naddr, room).entries == (done + [Skipped]) + next.entries
    ensures IsCpu(rest[0]) && HasReg(rest[0]) && room > 0 ==>
      var next := ScanMap(rest[1..], naddr, room - 1);
      ScanMap(rest, naddr, room) == Cons(EntryOf(rest[0], naddr), next)
      && done + ScanMap(rest, naddr, room).entries == (done + [EntryOf(rest[0], naddr)]) + next.entries
  {
  }

  /** One more node through the fill loop: the map and the count follow
      the entry it leaves. */
  lemma StepMap(done: seq<MapEntry>, e: MapEntry, m: seq<int>, m': seq<int>)
    requires MapIs(m, done)
    requires e.Possible? ==> |done| < |m| && m' == m[|done| := e.id]
    requires e.Skipped? ==> m' == m
    ensures MapIs(m', done + [e])
    ensures CountPossible(done + [e]) == CountPossible(done) + (if e.Possible? then 1 else 0)
  {
    assert (done + [e])[..|done|] == done;
  }

  /** The view the bootstrap core has of the AP counters at one check. */
  datatype ApView = ApView(smpStarted: int, smpCpus: Polling.Counter)

  function ReleaseProbes(obs: nat -> ApView): nat -> Polling.Probe
  {
    (k: nat) => Polling.Probe(obs(k).smpStarted != 0, obs(k).smpCpus)
  }

  /** The CONFIG_SMP globals of setup.c. */
  class SmpBoot {
    var cpuPossibleMap: array<int>
    var mpNcpus: int
    var smpCpus: int
    var smpStarted: int
    var apsReady: int
    var cpu0: int

    /** Static storage: zeroes, except `smp_cpus = 1` and `cpu0 = -1`. */
    constructor (maxCpu: nat)
      ensures fresh(cpuPossibleMap) && cpuPossibleMap.Length == maxCpu
      ensures forall i :: 0 <= i < maxCpu ==> cpuPossibleMap[i] == 0
      ensures mpNcpus == 0 && smpCpus == 1 && smpStarted == 0 && apsReady == 0 && cpu0 == -1
    {
      cpuPossibleMap := new int[maxCpu](_ => 0);
      mpNcpus, smpCpus, smpStarted, apsReady, cpu0 := 0, 1, 0, 0, -1;
    }

    /** The first loop of _init_dtb_cpu. */
    method ClearMap()
      modifies cpuPossibleMap
      ensures MapIs(cpuPossibleMap[..], [])
    {
      var i := 0;
      while i < cpuPossibleMap.Length
        invariant 0 <= i <= cpuPossibleMap.Length
        invariant forall j :: 0 <= j < i ==> cpuPossibleMap[j] == -1
      {
        cpuPossibleMap[i] := -1;
        i := i + 1;
      }
    }

    /** The subnode loop of _init_dtb_cpu on a cleared map, checked against
        `ScanMap`; `mp_ncpus` grows by one per id stored. */
    method FillMap(nodes: seq<CpuNode>, naddr: nat) returns (failure: Option<ScanError>)
      requires MapIs(cpuPossibleMap[..], [])
      modifies this, cpuPossibleMap
      ensures cpuPossibleMap == old(cpuPossibleMap)
      ensures var s := ScanMap(nodes, naddr, cpuPossibleMap.Length);
        && failure == s.failure
        && MapIs(cpuPossibleMap[..], s.entries)
        && mpNcpus == old(mpNcpus) + CountPossible(s.entries)
      ensures smpCpus == old(smpCpus) && smpStarted == old(smpStarted)
      ensures apsReady == old(apsReady) && cpu0 == old(cpu0)
    {
      ghost var cap := cpuPossibleMap.Length;
      ghost var done: seq<MapEntry> := [];
      ghost var room := cap;
      var rest := nodes;
      var index := 0;
      while rest != []
        invariant cpuPossibleMap == old(cpuPossibleMap) && index == |done|
        invariant room == (if index < cap then cap - index else 0)
        invariant ScanMap(nodes, naddr, cap)
          == MapScan(done + ScanMap(rest, naddr, room).entries, ScanMap(rest, naddr, room).failure)
        invariant MapIs(cpuPossibleMap[..], done)
        invariant mpNcpus == old(mpNcpus) + CountPossible(done)
        invariant smpCpus == old(smpCpus) && smpStarted == old(smpStarted)
        invariant apsReady == old(apsReady) && cpu0 == old(cpu0)
        decreases |rest|
      {
        var n := rest[0];
        index := index + 1;
        assert done + [] == done;
        if n.enableMethod.None? {
          return Some(NoEnableMethod);
        }
        if !StrEq(n.enableMethod.value, "psci") {
          return Some(NotPsci);
        }
        ScanMapStep(rest, naddr, room, done);
        if !IsCpu(n) {
          StepMap(done, Skipped, cpuPossibleMap[..], cpuPossibleMap[..]);
          done := done + [Skipped];
          room := Below(room);
          rest := rest[1..];
          continue;
        }
        if !HasReg(n) {
          return Some(BadReg);
        }
        if index - 1 >= cpuPossibleMap.Length {
          return Some(TooManyCpus);
        }
        var id := PossibleId(CpuId(n, naddr));
        ghost var before := cpuPossibleMap[..];
        cpuPossibleMap[index - 1] := id;
        StepMap(done, Possible(id), before, cpuPossibleMap[..]);
        mpNcpus := mpNcpus + 1;
        done := done + [Possible(id)];
        room := room - 1;
        rest := rest[1..];
      }
      assert done + [] == done;
      failure := None;
    }

    /** _init_dtb_cpu: every entry becomes -1, then the map is filled from
        /cpus. A bad #address-cells is a crash; a missing /cpus node has no
        #address-cells and takes that path. */
    method InitDtbCpu(dt: Option<CpusNode>) returns (failure: Option<ScanError>)
      modifies this, cpuPossibleMap
      ensures cpuPossibleMap == old(cpuPossibleMap)
      ensures AddressCells(Smp.AddressCellsOf(dt)).Err? ==>
        failure == Some(BadAddressCells) && MapIs(cpuPossibleMap[..], []) && mpNcpus == old(mpNcpus)
      ensures AddressCells(Smp.AddressCellsOf(dt)).Ok? ==>
        var s := ScanMap(Smp.SubnodesOf(dt), AddressCells(Smp.AddressCellsOf(dt)).value, cpuPossibleMap.Length);
        && failure == s.failure
        && MapIs(cpuPossibleMap[..], s.entries)
        && mpNcpus == old(mpNcpus) + CountPossible(s.entries)
      ensures smpCpus == old(smpCpus) && smpStarted == old(smpStarted)
      ensures apsReady == old(apsReady) && cpu0 == old(cpu0)
    {
      ClearMap();
      var cells := AddressCells(Smp.AddressCellsOf(dt));
      if cells.Err? {
        return Some(BadAddressCells);
      }
      failure := FillMap(Smp.SubnodesOf(dt), cells.value);
    }

    /** start_cpu: no firmware call for the core already running as cpu0
        (compared as uint64_t, so cpu0 == -1 matches nothing); otherwise
        CPU_ON with the core id as both target and context, and
        `mp_ncpus` drops by one when the call fails or cannot be made.
        `phys` is the physical address of `mpentry`; it is stored in a
        `uint32_t` before the call, so only its low 32 bits reach the
        firmware. `fw` is the status the firmware returns. */
    method StartCpu(target: u64, conduit: Option<Psci.Conduit>, phys: u64, fw: Psci.Ret)
      returns (call: Option<Psci.Call>)
      requires target < cpuPossibleMap.Length
      modifies this
      ensures target == Wrap64(cpu0) ==> call.None? && mpNcpus == old(mpNcpus)
      ensures target != Wrap64(cpu0) ==> call == Psci.PowerOn(conduit, target, phys % U32_LIMIT, target)
      ensures call.Some? ==> call.value.arg1 == phys % U32_LIMIT && call.value.arg1 < U32_LIMIT
      ensures target != Wrap64(cpu0) ==>
        mpNcpus == old(mpNcpus) - (if call.Some? && fw == Psci.Success then 0 else 1)
      ensures cpuPossibleMap == old(cpuPossibleMap) && smpCpus == old(smpCpus)
      ensures smpStarted == old(smpStarted) && apsReady == old(apsReady) && cpu0 == old(cpu0)
    {
      if target == Wrap64(cpu0) {
        return None;
      }
      var pa: u32 := phys % U32_LIMIT;
      call := Psci.PowerOn(conduit, target, pa, target);
      var err := if call.Some? then fw else Psci.NotSupported;
      if err != Psci.Success {
        mpNcpus := mpNcpus - 1;
      }
    }

    /** One pass of init_secondary after its wfe loop would test
        `aps_ready`: not yet released, nothing changes; released, the core
        counts itself and the last expected core sets `smp_started`. */
    method InitSecondaryStep() returns (released: bool)
      modifies this
      ensures released <==> old(apsReady) != 0
      ensures released ==> smpCpus == old(smpCpus) + 1
      ensures released ==> smpStarted == (if smpCpus == mpNcpus then 1 else old(smpStarted))
      ensures !released ==> smpCpus == old(smpCpus) && smpStarted == old(smpStarted)
      ensures cpuPossibleMap == old(cpuPossibleMap) && mpNcpus == old(mpNcpus)
      ensures apsReady == old(apsReady) && cpu0 == old(cpu0)
    {
      released := apsReady != 0;
      if released {
        smpCpus := smpCpus + 1;
        if smpCpus == mpNcpus {
          smpStarted := 1;
        }
      }
    }

    /** release_aps: with a single cpu nothing happens; otherwise
        `aps_ready` becomes 1 and the wait polls `smp_started`, restarting
        its budget whenever `smp_cpus` grows. `obs(k)` is what the k-th
        check reads; the application processors write both globals
        meanwhile, so afterwards they hold what the last check read. */
    method ReleaseAps(obs: nat -> ApView) returns (waited: Option<Polling.Outcome>)
      modifies this
      ensures old(mpNcpus) == 1 ==> waited.None? && apsReady == old(apsReady)
      ensures old(mpNcpus) != 1 ==> apsReady == 1 && waited == Some(Polling.Poll(ReleaseProbes(obs), 0, 0, 0))
      ensures cpuPossibleMap == old(cpuPossibleMap) && mpNcpus == old(mpNcpus)
      ensures old(mpNcpus) == 1 ==> smpCpus == old(smpCpus) && smpStarted == old(smpStarted)
      ensures old(mpNcpus) != 1 ==>
        var last := obs(Polling.LastCheck(waited.value));
        smpCpus == last.smpCpus && smpStarted == last.smpStarted
      ensures cpu0 == old(cpu0)
    {
      if mpNcpus == 1 {
        return None;
      }
      apsReady := 1;
      var outcome := Polling.PollProgress(ReleaseProbes(obs));
      var last := obs(Polling.LastCheck(outcome));
      smpCpus, smpStarted := last.smpCpus, last.smpStarted;
      waited := Some(outcome);
    }

    /** The cpu0 rule of _libkvmplat_start: with cpu0 still unset, it
        becomes 0 when the affinity fields of MPIDR (read as 32 bits) are
        all zero, the same test as ukplat_lcpu_id() == 0. */
    method DeriveCpu0(mpidr: bv64)
      modifies this
      ensures old(cpu0) < 0 && Smp.LcpuId(mpidr) == 0 ==> cpu0 == 0
      ensures !(old(cpu0) < 0 && Smp.LcpuId(mpidr) == 0) ==> cpu0 == old(cpu0)
      ensures cpuPossibleMap == old(cpuPossibleMap) && mpNcpus == old(mpNcpus) && smpCpus == old(smpCpus)
      ensures smpStarted == old(smpStarted) && apsReady == old(apsReady)
    {
      if cpu0 < 0 {
        var mpidrReg := mpidr & 0xffff_ffff;
        if mpidrReg & 0xff_00ff_ffff == 0 {
          cpu0 := 0;
        }
      }
    }
  }
}
