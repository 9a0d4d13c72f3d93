/** The device-tree input both CPU scans read, as plain records.

    The C code reaches these values through libfdt; here the `/cpus` node
    is a record holding its `#address-cells` cell and its subnodes in tree
    order, and each cpu subnode holds the three properties the scans read.
    A string property is its raw value (length = the property length, the
    terminating NUL included); `reg` is its list of 32-bit cells, and
    `following` the cells stored after it in the blob, which a read of more
    cells than `reg` holds runs on into. The
    filtering follows section 3.8 of the Devicetree Specification
    ("/cpus/cpu* Node Properties"). */
module Devicetree {
  import opened Machine

  /** libfdt's bound on #address-cells and #size-cells. */
  const FDT_MAX_NCELLS: int := 4

  datatype CpuNode = CpuNode(
    enableMethod: Option<seq<char>>,
    deviceType: Option<seq<char>>,
    reg: Option<seq<u32>>,
    following: seq<u32>)

  datatype CpusNode = CpusNode(addressCells: Option<u32>, subnodes: seq<CpuNode>)

  /** The reasons a scan of `/cpus` gives up. */
  datatype ScanError = BadAddressCells | NoEnableMethod | NotPsci | BadReg | TooManyCpus

  /** `enable-method` present and equal to "psci". */
  predicate UsesPsci(n: CpuNode)
  {
    n.enableMethod.Some? && StrEq(n.enableMethod.value, "psci")
  }

  /** `device_type` present, at least 4 bytes long and equal to "cpu". */
  predicate IsCpu(n: CpuNode)
  {
    n.deviceType.Some? && |n.deviceType.value| >= 4 && StrEq(n.deviceType.value, "cpu")
  }

  /** `reg` present with a positive length. */
  predicate HasReg(n: CpuNode)
  {
    n.reg.Some? && |n.reg.value| > 0
  }

  /** A node the scans accept without giving up. */
  predicate WellFormed(n: CpuNode)
  {
    UsesPsci(n) && (IsCpu(n) ==> HasReg(n))
  }

  /** Cells folded big-endian into a uint64_t, as `number <<= 32; number |= cell`:
      the last cell is the low word, and no cells make 0. */
  function Accumulate(cells: seq<u32>): (r: u64)
    ensures cells == [] ==> r == 0
    ensures cells != [] ==> r % U32_LIMIT == cells[|cells| - 1]
  {
    if cells == [] then 0
    else
      var high := Accumulate(cells[..|cells| - 1]);
      LowWord(high, cells[|cells| - 1]);
      Wrap64(high * U32_LIMIT + cells[|cells| - 1])
  }

  /** Shifting left by 32 bits and or-ing in a cell leaves the cell as the
      low word, wrap-around included. */
  lemma LowWord(high: u64, cell: u32)
    ensures Wrap64(high * U32_LIMIT + cell) % U32_LIMIT == cell
  {
    var x := high * U32_LIMIT + cell;
    var q := x / U64_LIMIT;
    assert Wrap64(x) == x - q * U64_LIMIT;
    assert Wrap64(x) == (high - q * U32_LIMIT) * U32_LIMIT + cell;
  }

  /** fdt_reg_read_number(cells, naddr): the first `naddr` cells as one
      number; the read stops at the end of `cells`. */
  function ReadNumber(cells: seq<u32>, naddr: nat): (r: u64)
    ensures naddr == 0 || cells == [] ==> r == 0
    ensures 0 < naddr <= |cells| ==> r % U32_LIMIT == cells[naddr - 1]
  {
    Accumulate(cells[..if naddr <= |cells| then naddr else |cells|])
  }

  /** The first one and two cells of a longer list. */
  lemma ReadNumberPrefix(cells: seq<u32>)
    ensures |cells| >= 2 ==> ReadNumber(cells, 1) == cells[0]
    ensures |cells| >= 2 ==> ReadNumber(cells, 2) == cells[0] * U32_LIMIT + cells[1]
  {
    if |cells| < 2 { return; }
    assert cells[..1] == [cells[0]] && cells[..2] == [cells[0], cells[1]];
    ReadNumberCells(cells[0], cells[1]);
    assert [cells[0], cells[1]][..1] == [cells[0]];
  }

  /** The id a cpu node's `reg` gives under `#address-cells == naddr`: the
      read starts at the first `reg` cell and takes `naddr` cells whatever
      the property's length, running into the cells that follow it. */
  function CpuId(n: CpuNode, naddr: nat): (r: u64)
    requires n.reg.Some?
    ensures naddr <= |n.reg.value| ==> r == ReadNumber(n.reg.value, naddr)
  {
    var cells := n.reg.value + n.following;
    assert naddr <= |n.reg.value| ==> cells[..naddr] == n.reg.value[..naddr];
    ReadNumber(cells, naddr)
  }

  /** A one-cell `reg` read with two address cells takes its high word from
      `reg` and its low word from the next cell of the blob. */
  lemma CpuIdReadsPastReg(id: u32, next: u32)
    ensures CpuId(CpuNode(None, None, Some([id]), [next]), 2) == id * U32_LIMIT + next
  {
    ReadNumberCells(id, next);
    assert [id] + [next] == [id, next];
  }

  /** One cell is the number itself; two cells are a high and a low word. */
  lemma ReadNumberCells(hi: u32, lo: u32)
    ensures ReadNumber([lo], 1) == lo
    ensures ReadNumber([hi, lo], 2) == hi * U32_LIMIT + lo
    ensures ReadNumber([hi, lo], 1) == hi
  {
    assert [lo][..0] == [] && [lo][..1] == [lo];
    assert Accumulate([lo]) == Wrap64(Accumulate([]) * U32_LIMIT + lo);
    assert [hi, lo][..1] == [hi] && [hi, lo][..2] == [hi, lo];
    assert [hi][..0] == [];
    assert Accumulate([hi]) == hi;
    assert Accumulate([hi, lo]) == Wrap64(hi * U32_LIMIT + lo);
  }

  /** #address-cells as the C code reads it: `naddr` is an int that is
      assigned only when the property exists, so when it is absent the
      check sees whatever the uninitialised variable holds (`uninit`). */
  function AddressCellsAsWritten(prop: Option<u32>, uninit: int): (r: Result<nat, ScanError>)
    ensures r.Ok? ==> r.value < FDT_MAX_NCELLS
  {
    var naddr := if prop.Some? then ToInt32(prop.value) else uninit;
    if naddr < 0 || naddr >= FDT_MAX_NCELLS then Err(BadAddressCells) else Ok(naddr)
  }

  /** #address-cells with the absent property rejected like an out-of-range one. */
  function AddressCells(prop: Option<u32>): (r: Result<nat, ScanError>)
    ensures r.Ok? <==> prop.Some? && prop.value < FDT_MAX_NCELLS
    ensures r.Ok? ==> r.value == prop.value
  {
    if prop.None? then Err(BadAddressCells)
    else var naddr := ToInt32(prop.value);
      if naddr < 0 || naddr >= FDT_MAX_NCELLS then Err(BadAddressCells) else Ok(naddr)
  }

  /** With the property absent, the C outcome depends on stack contents:
      one uninitialised value passes the check, another fails it. */
  lemma AddressCellsUninitialised()
    ensures AddressCellsAsWritten(None, 1) == Ok(1)
    ensures AddressCellsAsWritten(None, -1) == Err(BadAddressCells)
    ensures AddressCells(None) == Err(BadAddressCells)
  {
  }

  /** The correction changes nothing when the property is present. */
  lemma AddressCellsAgree(prop: u32, uninit: int)
    ensures AddressCells(Some(prop)) == AddressCellsAsWritten(Some(prop), uninit)
  {
  }
}
