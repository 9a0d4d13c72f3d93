/** The core registry and bring-up orchestration of plat/kvm/arm/smp.c.

    `Smp` holds the file's globals: the fixed-capacity descriptor table
    `cpus` (CONFIG_MAX_CPUS slots), `smp_numcores`, `bspid`, `bspdone`,
    `smp_aps_started` and `smp_aps_running`. `SmpInit` fills the table from
    the `/cpus` node; `LcpuStart` records entry points and stacks, issues
    the PSCI CPU_ON calls and waits for the application processors. */
module Smp {
  import opened Machine
  import opened Devicetree
  import Psci
  import Polling

  /** `cpus[i].id = -1` stored in a uint64_t field. */
  const UNUSED_ID: u64 := 0xffff_ffff_ffff_ffff

  /** struct arm64_cpu. Entry points and stack pointers are addresses;
      `fnlist` is None while the list head still holds the zeroes of static
      storage, and a list once UK_INIT_LIST_HEAD has run. */
  datatype Cpu = Cpu(id: u64, entry: u64, stackp: u64, fnlist: Option<seq<u64>>)

  const ZERO_CPU: Cpu := Cpu(0, 0, 0, None)

  /** ukplat_lcpu_id: MPIDR_EL1 read through SYSREG_READ32, masked with
      0xff00ffffff and narrowed to the 32-bit __lcpuid. Only the affinity
      fields Aff0..Aff2 (bits 0-23) survive. */
  function LcpuId(mpidr: bv64): (r: bv32)
    ensures r & 0xff00_0000 == 0
    ensures r as bv64 == mpidr & 0x00ff_ffff
  {
    ((mpidr & 0xffff_ffff) & 0xff_00ff_ffff) as bv32
  }

  // ---------------------------------------------------------------------
  // smp_init: the scan of /cpus
  // ---------------------------------------------------------------------

  /** What a scan wrote into the table (`ids`, from slot 0 on) and why it
      stopped early, if it did. */
  datatype ScanOutcome = ScanOutcome(ids: seq<u64>, failure: Option<ScanError>)

  /** The subnode loop of smp_init over a table of `cap` slots: a node
      without enable-method, with one other than "psci", or a cpu node
      without a usable `reg` stops the scan; a node that is not a cpu is
      skipped without using a slot; a cpu node beyond the table's capacity
      stops the scan instead of writing past the table. */
  function Scan(nodes: seq<CpuNode>, naddr: nat, cap: nat): (r: ScanOutcome)
    ensures |r.ids| <= cap && |r.ids| <= |nodes|
    decreases |nodes|
  {
    if nodes == [] then ScanOutcome([], None)
    else
      var n := nodes[0];
      if n.enableMethod.None? then ScanOutcome([], Some(NoEnableMethod))
      else if !StrEq(n.enableMethod.value, "psci") then ScanOutcome([], Some(NotPsci))
      else if !IsCpu(n) then Scan(nodes[1..], naddr, cap)
      else if !HasReg(n) then ScanOutcome([], Some(BadReg))
      else if cap == 0 then ScanOutcome([], Some(TooManyCpus))
      else
        var rest := Scan(nodes[1..], naddr, cap - 1);
        ScanOutcome([CpuId(n, naddr)] + rest.ids, rest.failure)
  }

  /** The loop as written: no capacity check, so a table of |nodes| slots
      is never exceeded while a smaller one can be. */
  function ScanAsWritten(nodes: seq<CpuNode>, naddr: nat): (r: ScanOutcome)
    ensures r.failure != Some(TooManyCpus)
    ensures r.failure.None? <==> AllWellFormed(nodes)
    ensures r.failure.None? ==> r.ids == Accepted(nodes, naddr)
  {
    ScanMeaning(nodes, naddr, |nodes|);
    ScanWithRoom(nodes, naddr, |nodes|);
    Scan(nodes, naddr, |nodes|)
  }

  /** A table with a slot for every node never fills up. */
  lemma {:induction false} ScanWithRoom(nodes: seq<CpuNode>, naddr: nat, cap: nat)
    requires |nodes| <= cap
    ensures Scan(nodes, naddr, cap).failure != Some(TooManyCpus)
    decreases |nodes|
  {
    if nodes != [] {
      if cap > 0 { ScanWithRoom(nodes[1..], naddr, cap - 1); }
      ScanWithRoom(nodes[1..], naddr, cap);
    }
  }

  /** Reference definition: the ids of the cpu nodes, in tree order. */
  function Accepted(nodes: seq<CpuNode>, naddr: nat): (ids: seq<u64>)
    ensures |ids| <= |nodes|
  {
    if nodes == [] then []
    else if IsCpu(nodes[0]) && HasReg(nodes[0])
    then [CpuId(nodes[0], naddr)] + Accepted(nodes[1..], naddr)
    else Accepted(nodes[1..], naddr)
  }

  predicate AllWellFormed(nodes: seq<CpuNode>)
  {
    forall i :: 0 <= i < |nodes| ==> WellFormed(nodes[i])
  }

  lemma AllWellFormedCons(nodes: seq<CpuNode>)
    requires nodes != []
    ensures AllWellFormed(nodes) <==> WellFormed(nodes[0]) && AllWellFormed(nodes[1..])
  {
    var tail := nodes[1..];
    if WellFormed(nodes[0]) && AllWellFormed(tail) {
      forall i | 0 <= i < |nodes| ensures WellFormed(nodes[i]) {
        if i > 0 { assert nodes[i] == tail[i - 1]; }
      }
    }
    if AllWellFormed(nodes) {
      forall i | 0 <= i < |tail| ensures WellFormed(tail[i]) {
        assert tail[i] == nodes[i + 1];
      }
    }
  }

  /** The scan writes cpu ids in tree order, skipping the nodes that are
      not cpus; it completes exactly when every node is well formed and
      the cpus fit the table, and then it has written every cpu id. */
  lemma {:induction false} ScanMeaning(nodes: seq<CpuNode>, naddr: nat, cap: nat)
    ensures var s := Scan(nodes, naddr, cap);
      && |s.ids| <= |Accepted(nodes, naddr)|
      && s.ids == Accepted(nodes, naddr)[..|s.ids|]
      && (s.failure.None? <==> AllWellFormed(nodes) && |Accepted(nodes, naddr)| <= cap)
      && (s.failure.None? ==> s.ids == Accepted(nodes, naddr))
    decreases |nodes|
  {
    if nodes != [] {
      var n := nodes[0];
      var tail := nodes[1..];
      AllWellFormedCons(nodes);
      if UsesPsci(n) && IsCpu(n) && HasReg(n) && cap > 0 {
        ScanMeaning(tail, naddr, cap - 1);
      } else if UsesPsci(n) && !IsCpu(n) {
        ScanMeaning(tail, naddr, cap);
      }
    }
  }

  const GOOD_CPU: CpuNode := CpuNode(Some("psci\0"), Some("cpu\0"), Some([0]), [])

  lemma {:induction false} GoodNodesAccepted(nodes: seq<CpuNode>, naddr: nat)
    requires forall i :: 0 <= i < |nodes| ==> nodes[i] == GOOD_CPU
    ensures AllWellFormed(nodes) && |Accepted(nodes, naddr)| == |nodes|
    decreases |nodes|
  {
    assert StrEq("psci\0", "psci") && StrEq("cpu\0", "cpu");
    if nodes != [] {
      GoodNodesAccepted(nodes[1..], naddr);
      assert IsCpu(nodes[0]) && HasReg(nodes[0]);
    }
  }

  /** With CONFIG_MAX_CPUS slots and one more cpu node, the loop as written
      produces an id for slot CONFIG_MAX_CPUS, one past the table; the
      corrected scan stops with TooManyCpus instead. */
  lemma ScanOverflowsTable(maxCpus: nat, naddr: nat)
    ensures var nodes := seq(maxCpus + 1, _ => GOOD_CPU);
      && |ScanAsWritten(nodes, naddr).ids| == maxCpus + 1
      && Scan(nodes, naddr, maxCpus).failure == Some(TooManyCpus)
  {
    var nodes := seq(maxCpus + 1, _ => GOOD_CPU);
    GoodNodesAccepted(nodes, naddr);
    ScanMeaning(nodes, naddr, |nodes|);
    ScanMeaning(nodes, naddr, maxCpus);
    ScanErrorIsTooMany(nodes, naddr, maxCpus);
  }

  /** When every node is well formed, the only way to stop early is running
      out of slots. */
  lemma {:induction false} ScanErrorIsTooMany(nodes: seq<CpuNode>, naddr: nat, cap: nat)
    requires AllWellFormed(nodes)
    ensures Scan(nodes, naddr, cap).failure.None? || Scan(nodes, naddr, cap).failure == Some(TooManyCpus)
    decreases |nodes|
  {
    if nodes != [] {
      assert WellFormed(nodes[0]);
      var tail := nodes[1..];
      assert forall i :: 0 <= i < |tail| ==> tail[i] == nodes[i + 1];
      if cap > 0 {
        ScanErrorIsTooMany(tail, naddr, cap - 1);
      }
      ScanErrorIsTooMany(tail, naddr, cap);
    }
  }

  /** Two psci cpu nodes with one-cell `reg` values fill logical slots 0
      and 1 with those hardware ids, in tree order. */
  lemma TwoCoreTopology(id0: u32, id1: u32)
    ensures var nodes := [CpuNode(Some("psci\0"), Some("cpu\0"), Some([id0]), []),
                          CpuNode(Some("psci\0"), Some("cpu\0"), Some([id1]), [])];
      Scan(nodes, 1, 2) == ScanOutcome([id0, id1], None)
  {
    var n0 := CpuNode(Some("psci\0"), Some("cpu\0"), Some([id0]), []);
    var n1 := CpuNode(Some("psci\0"), Some("cpu\0"), Some([id1]), []);
    assert StrEq("psci\0", "psci") && StrEq("cpu\0", "cpu");
    ReadNumberCells(0, id0);
    ReadNumberCells(0, id1);
    ScanCpuStep(n1, [], 1, 1);
    ScanCpuStep(n0, [n1], 1, 2);
    assert [n0] + [n1] == [n0, n1];
  }

  /** A well-formed cpu node at the head of the list takes the next slot. */
  lemma ScanCpuStep(n: CpuNode, tail: seq<CpuNode>, naddr: nat, cap: nat)
    requires UsesPsci(n) && IsCpu(n) && HasReg(n) && cap > 0
    ensures var rest := Scan(tail, naddr, cap - 1);
      Scan([n] + tail, naddr, cap) == ScanOutcome([CpuId(n, naddr)] + rest.ids, rest.failure)
  {
    assert ([n] + tail)[0] == n && ([n] + tail)[1..] == tail;
  }

  /** `cs` holds `ids` from slot 0 on and the unused marker after them. */
  predicate IdsAre(cs: seq<Cpu>, ids: seq<u64>)
  {
    && |ids| <= |cs|
    && (forall i :: 0 <= i < |ids| ==> cs[i].id == ids[i])
    && (forall i :: |ids| <= i < |cs| ==> cs[i].id == UNUSED_ID)
  }

  /** The scan of `nodes` is `written` followed by the scan of `rest`
      with `room` slots left. */
  ghost predicate ScanSplit(nodes: seq<CpuNode>, naddr: nat, cap: nat, written: seq<u64>,
                            rest: seq<CpuNode>, room: nat)
  {
    var tail := Scan(rest, naddr, room);
    Scan(nodes, naddr, cap) == ScanOutcome(written + tail.ids, tail.failure)
  }

  /** One node of the scan, consumed. */
  lemma ScanStep(nodes: seq<CpuNode>, naddr: nat, cap: nat, written: seq<u64>, rest: seq<CpuNode>, room: nat)
    requires ScanSplit(nodes, naddr, cap, written, rest, room)
    requires rest != [] && UsesPsci(rest[0])
    ensures !IsCpu(rest[0]) ==> ScanSplit(nodes, naddr, cap, written, rest[1..], room)
    ensures IsCpu(rest[0]) && HasReg(rest[0]) && room > 0 ==>
      ScanSplit(nodes, naddr, cap, written + [CpuId(rest[0], naddr)], rest[1..], room - 1)
  {
    if IsCpu(rest[0]) && HasReg(rest[0]) && room > 0 {
      var id := CpuId(rest[0], naddr);
      var next := Scan(rest[1..], naddr, room - 1);
      assert written + ([id] + next.ids) == (written + [id]) + next.ids;
    }
  }

  /** Writing the next id into the slot after the ones written. */
  lemma IdsStep(cs: seq<Cpu>, cs': seq<Cpu>, written: seq<u64>, id: u64)
    requires IdsAre(cs, written) && |written| < |cs|
    requires cs' == cs[|written| := cs[|written|].(id := id)]
    ensures IdsAre(cs', written + [id])
  {
  }

  function SubnodesOf(dt: Option<CpusNode>): seq<CpuNode>
  {
    if dt.Some? then dt.value.subnodes else []
  }

  function AddressCellsOf(dt: Option<CpusNode>): Option<u32>
  {
    if dt.Some? then dt.value.addressCells else None
  }

  // ---------------------------------------------------------------------
  // ukplat_lcpu_start: selecting and recording the requested cores
  // ---------------------------------------------------------------------

  /** Entry i of the three parallel arrays. */
  datatype Request = Request(logic: u32, stack: u64, entry: u64)

  /** The requests as the loop reads them: logical id `lcpuid[i]`, or `i`
      when `lcpuid` is NULL. */
  function Requests(lcpuid: Option<seq<u32>>, sp: seq<u64>, entry: seq<u64>, num: int): (reqs: seq<Request>)
    requires num < 0x8000_0000
    requires num <= |sp| && num <= |entry| && (lcpuid.Some? ==> num <= |lcpuid.value|)
    ensures |reqs| == (if num < 0 then 0 else num)
    ensures forall i :: 0 <= i < |reqs| ==>
      reqs[i].stack == sp[i] && reqs[i].entry == entry[i]
      && reqs[i].logic == (if lcpuid.Some? then lcpuid.value[i] else i)
  {
    if num <= 0 then []
    else
      seq(num, i requires 0 <= i < num =>
        Request(if lcpuid.Some? then lcpuid.value[i] else i, sp[i], entry[i]))
  }

  /** A request is carried out when its logical id names a discovered core
      other than the bootstrap core. The bound is checked before the slot
      is read. */
  predicate Selected(cs: seq<Cpu>, numCores: nat, bsp: u32, logic: u32)
    requires numCores <= |cs|
  {
    logic < numCores && cs[logic].id != bsp
  }

  datatype Selection = Skip | Start | OutOfBounds

  /** The test as written: the slot is read first (past the table when the
      id is too large), and an id equal to `smp_numcores` passes `>`. */
  function SelectAsWritten(cs: seq<Cpu>, numCores: nat, bsp: u32, logic: u32): (r: Selection)
    ensures r == OutOfBounds <==> logic >= |cs|
    ensures r == Start <==> logic < |cs| && logic <= numCores && cs[logic].id != bsp
    ensures numCores <= |cs| && logic < numCores ==> (r == Start <==> Selected(cs, numCores, bsp, logic))
  {
    if logic >= |cs| then OutOfBounds
    else if cs[logic].id == bsp then Skip
    else if logic > numCores then Skip
    else Start
  }

  /** The discrepancy: logical id `smp_numcores` names no discovered core
      yet is started (its slot holds the unused marker), and an id equal to
      the capacity reads past the table. Below `smp_numcores` both tests
      agree. */
  lemma SelectionBoundsAsWritten(cs: seq<Cpu>, numCores: nat, bsp: u32)
    requires numCores < |cs| < U32_LIMIT && cs[numCores].id == UNUSED_ID
    ensures SelectAsWritten(cs, numCores, bsp, numCores) == Start
    ensures !Selected(cs, numCores, bsp, numCores)
    ensures SelectAsWritten(cs, numCores, bsp, |cs|) == OutOfBounds
    ensures forall logic: u32 :: logic < numCores ==>
      (SelectAsWritten(cs, numCores, bsp, logic) == Start <==> Selected(cs, numCores, bsp, logic))
  {
  }

  /** The table and the PSCI calls issued so far. */
  datatype Bringup = Bringup(cpus: seq<Cpu>, calls: seq<Psci.Call>)

  function CallsOf(c: Option<Psci.Call>): seq<Psci.Call>
  {
    if c.Some? then [c.value] else []
  }

  /** One iteration of the start loop. */
  function StartOne(b: Bringup, numCores: nat, bsp: u32, rq: Request,
                    conduit: Option<Psci.Conduit>, trampoline: u64): Bringup
    requires numCores <= |b.cpus|
  {
    if Selected(b.cpus, numCores, bsp, rq.logic) then
      var slot := b.cpus[rq.logic];
      Bringup(b.cpus[rq.logic := slot.(entry := rq.entry, stackp := rq.stack, fnlist := Some([]))],
              b.calls + CallsOf(Psci.PowerOn(conduit, slot.id, trampoline, rq.logic)))
    else b
  }

  /** The start loop over all requests. It never changes a slot's id. */
  function StartAll(cs: seq<Cpu>, reqs: seq<Request>, numCores: nat, bsp: u32,
                    conduit: Option<Psci.Conduit>, trampoline: u64): (b: Bringup)
    requires numCores <= |cs|
    ensures |b.cpus| == |cs|
    ensures forall j :: 0 <= j < |cs| ==> b.cpus[j].id == cs[j].id
    decreases |reqs|
  {
    if reqs == [] then Bringup(cs, [])
    else
      var prev := StartAll(cs, reqs[..|reqs| - 1], numCores, bsp, conduit, trampoline);
      StartOne(prev, numCores, bsp, reqs[|reqs| - 1], conduit, trampoline)
  }

  /** A slot no carried-out request names keeps its contents. */
  lemma {:induction false} StartAllUntouched(cs: seq<Cpu>, reqs: seq<Request>, numCores: nat, bsp: u32,
                                             conduit: Option<Psci.Conduit>, trampoline: u64, j: nat)
    requires numCores <= |cs| && j < |cs|
    requires j >= numCores || cs[j].id == bsp || forall i :: 0 <= i < |reqs| ==> reqs[i].logic != j
    ensures StartAll(cs, reqs, numCores, bsp, conduit, trampoline).cpus[j] == cs[j]
    decreases |reqs|
  {
    if reqs != [] {
      var front := reqs[..|reqs| - 1];
      assert forall i :: 0 <= i < |front| ==> front[i] == reqs[i];
      StartAllUntouched(cs, front, numCores, bsp, conduit, trampoline, j);
    }
  }

  /** A carried-out slot holds the entry and stack of the last request
      naming it, an empty work list, and its id unchanged. */
  lemma {:induction false} StartAllLastWins(cs: seq<Cpu>, reqs: seq<Request>, numCores: nat, bsp: u32,
                                            conduit: Option<Psci.Conduit>, trampoline: u64, i: nat)
    requires numCores <= |cs| && i < |reqs|
    requires Selected(cs, numCores, bsp, reqs[i].logic)
    requires forall k :: i < k < |reqs| ==> reqs[k].logic != reqs[i].logic
    ensures var j := reqs[i].logic;
      StartAll(cs, reqs, numCores, bsp, conduit, trampoline).cpus[j]
        == cs[j].(entry := reqs[i].entry, stackp := reqs[i].stack, fnlist := Some([]))
    decreases |reqs|
  {
    var front := reqs[..|reqs| - 1];
    assert forall k :: 0 <= k < |front| ==> front[k] == reqs[k];
    if i < |reqs| - 1 {
      StartAllLastWins(cs, front, numCores, bsp, conduit, trampoline, i);
    }
  }

  /** Every PSCI call goes through the selected conduit, is a CPU_ON for a
      discovered core other than the bootstrap core, and passes that core's
      slot as context; there is at most one call per request. */
  lemma {:induction false} StartAllCalls(cs: seq<Cpu>, reqs: seq<Request>, numCores: nat, bsp: u32,
                                         conduit: Option<Psci.Conduit>, trampoline: u64)
    requires numCores <= |cs|
    ensures var calls := StartAll(cs, reqs, numCores, bsp, conduit, trampoline).calls;
      && |calls| <= |reqs|
      && (conduit.None? ==> calls == [])
      && forall k :: 0 <= k < |calls| ==>
        && calls[k].conduit == conduit.value
        && calls[k].fnid == Psci.FnId(Psci.AArch64, Psci.CpuOn)
        && calls[k].arg2 < numCores
        && calls[k].arg0 == cs[calls[k].arg2].id
        && calls[k].arg0 != bsp
        && calls[k].arg1 == trampoline
    decreases |reqs|
  {
    if reqs != [] {
      StartAllCalls(cs, reqs[..|reqs| - 1], numCores, bsp, conduit, trampoline);
    }
  }

  /** Reference definition: the logical ids of the requests that pass the
      test against the table as discovered, in request order. */
  function SelectedLogic(cs: seq<Cpu>, reqs: seq<Request>, numCores: nat, bsp: u32): (sel: seq<u32>)
    requires numCores <= |cs|
    ensures |sel| <= |reqs|
    ensures forall k :: 0 <= k < |sel| ==> sel[k] < numCores && cs[sel[k]].id != bsp
    decreases |reqs|
  {
    if reqs == [] then []
    else
      var logic := reqs[|reqs| - 1].logic;
      SelectedLogic(cs, reqs[..|reqs| - 1], numCores, bsp)
        + (if Selected(cs, numCores, bsp, logic) then [logic] else [])
  }

  /** One CPU_ON through `conduit` per selected logical id, in order: the
      core's hardware id as target, the trampoline as entry point and the
      logical id as context. */
  function CpuOnCalls(cs: seq<Cpu>, sel: seq<u32>, conduit: Psci.Conduit, trampoline: u64): (calls: seq<Psci.Call>)
    requires forall k :: 0 <= k < |sel| ==> sel[k] < |cs|
    ensures |calls| == |sel|
  {
    seq(|sel|, k requires 0 <= k < |sel| =>
      Psci.Call(conduit, Psci.FnId(Psci.AArch64, Psci.CpuOn), cs[sel[k]].id, trampoline, sel[k]))
  }

  /** The start loop issues exactly one CPU_ON per selected request, in
      request order, and none when no conduit was selected. */
  lemma {:induction false} StartAllCallsComplete(cs: seq<Cpu>, reqs: seq<Request>, numCores: nat, bsp: u32,
                                                 conduit: Option<Psci.Conduit>, trampoline: u64)
    requires numCores <= |cs|
    ensures StartAll(cs, reqs, numCores, bsp, conduit, trampoline).calls
      == CompleteCalls(cs, reqs, numCores, bsp, conduit, trampoline)
    decreases |reqs|
  {
    if reqs != [] {
      StartAllCallsComplete(cs, reqs[..|reqs| - 1], numCores, bsp, conduit, trampoline);
      StartAllCallsStep(cs, reqs, numCores, bsp, conduit, trampoline);
    }
  }

  /** The calls `StartAllCallsComplete` promises. */
  function CompleteCalls(cs: seq<Cpu>, reqs: seq<Request>, numCores: nat, bsp: u32,
                         conduit: Option<Psci.Conduit>, trampoline: u64): seq<Psci.Call>
    requires numCores <= |cs|
  {
    if conduit.None? then [] else CpuOnCalls(cs, SelectedLogic(cs, reqs, numCores, bsp), conduit.value, trampoline)
  }

  /** The inductive step: the last request adds its call, if it is
      selected, after those of the requests before it. */
  lemma StartAllCallsStep(cs: seq<Cpu>, reqs: seq<Request>, numCores: nat, bsp: u32,
                          conduit: Option<Psci.Conduit>, trampoline: u64)
    requires numCores <= |cs| && reqs != []
    requires StartAll(cs, reqs[..|reqs| - 1], numCores, bsp, conduit, trampoline).calls
      == CompleteCalls(cs, reqs[..|reqs| - 1], numCores, bsp, conduit, trampoline)
    ensures StartAll(cs, reqs, numCores, bsp, conduit, trampoline).calls
      == CompleteCalls(cs, reqs, numCores, bsp, conduit, trampoline)
  {
    var front := reqs[..|reqs| - 1];
    var logic := reqs[|reqs| - 1].logic;
    var prev := StartAll(cs, front, numCores, bsp, conduit, trampoline);
    assert Selected(prev.cpus, numCores, bsp, logic) == Selected(cs, numCores, bsp, logic);
    if conduit.Some? && Selected(cs, numCores, bsp, logic) {
      var sel := SelectedLogic(cs, front, numCores, bsp);
      assert prev.cpus[logic].id == cs[logic].id;
      assert CpuOnCalls(cs, sel + [logic], conduit.value, trampoline)
        == CpuOnCalls(cs, sel, conduit.value, trampoline)
          + [Psci.Call(conduit.value, Psci.FnId(Psci.AArch64, Psci.CpuOn), cs[logic].id, trampoline, logic)];
    } else if conduit.Some? {
      assert SelectedLogic(cs, reqs, numCores, bsp) == SelectedLogic(cs, front, numCores, bsp) + [];
    }
  }

  /** What the bootstrap core reads at each check of the wait loop. */
  datatype ApCounters = ApCounters(running: u64, started: u64)

  /** The wait loop's view: done when running == started, progress when
      running grows. */
  function ApProbes(obs: nat -> ApCounters): nat -> Polling.Probe
  {
    (k: nat) => Polling.Probe(obs(k).running == obs(k).started, obs(k).running)
  }

  class Smp {
    var cpus: array<Cpu>
    var numCores: u64
    var bspId: u32
    var bspDone: u64
    var apsStarted: u64
    var apsRunning: u64

    ghost predicate Valid()
      reads this
    {
      numCores <= cpus.Length < U64_LIMIT
    }

    /** The globals as static storage leaves them: all zero. */
    constructor (maxCpus: nat)
      requires maxCpus < U64_LIMIT
      ensures Valid() && fresh(cpus) && cpus.Length == maxCpus
      ensures forall i :: 0 <= i < maxCpus ==> cpus[i] == ZERO_CPU
      ensures numCores == 0 && bspId == 0 && bspDone == 0 && apsStarted == 0 && apsRunning == 0
    {
      cpus := new Cpu[maxCpus](_ => ZERO_CPU);
      numCores, bspId, bspDone, apsStarted, apsRunning := 0, 0, 0, 0, 0;
    }

    /** The first loop of smp_init: every slot's id becomes the unused
        marker; nothing else changes. */
    method ClearIds()
      requires Valid()
      modifies cpus
      ensures IdsAre(cpus[..], [])
      ensures forall i :: 0 <= i < cpus.Length ==> cpus[i] == old(cpus[i]).(id := UNUSED_ID)
    {
      var index := 0;
      while index < cpus.Length
        invariant 0 <= index <= cpus.Length
        invariant forall i :: 0 <= i < index ==> cpus[i] == old(cpus[i]).(id := UNUSED_ID)
        invariant forall i :: index <= i < cpus.Length ==> cpus[i] == old(cpus[i])
      {
        cpus[index] := cpus[index].(id := UNUSED_ID);
        index := index + 1;
      }
    }

    /** The subnode loop of smp_init on a cleared table, checked against
        `Scan`: it writes the scan's ids from slot 0 on and reports how many
        it wrote and why it stopped, if it did. Only ids change. */
    method WriteIds(nodes: seq<CpuNode>, naddr: nat) returns (count: nat, failure: Option<ScanError>)
      requires Valid() && IdsAre(cpus[..], [])
      modifies cpus
      ensures var s := Scan(nodes, naddr, cpus.Length);
        failure == s.failure && count == |s.ids| && IdsAre(cpus[..], s.ids)
      ensures forall i :: 0 <= i < cpus.Length ==> cpus[i] == old(cpus[i]).(id := cpus[i].id)
    {
      ghost var cap := cpus.Length;
      ghost var written: seq<u64> := [];
      ghost var room := cap;
      var rest := nodes;
      count := 0;
      while rest != []
        invariant count == |written| <= cap && room == cap - count
        invariant ScanSplit(nodes, naddr, cap, written, rest, room)
        invariant IdsAre(cpus[..], written)
        invariant forall i :: 0 <= i < cpus.Length ==> cpus[i] == old(cpus[i]).(id := cpus[i].id)
        decreases |rest|
      {
        var n := rest[0];
        assert written + [] == written;
        if n.enableMethod.None? {
          return count, Some(NoEnableMethod);
        }
        if !StrEq(n.enableMethod.value, "psci") {
          return count, Some(NotPsci);
        }
        ScanStep(nodes, naddr, cap, written, rest, room);
        if !IsCpu(n) {
          rest := rest[1..];
          continue;
        }
        if !HasReg(n) {
          return count, Some(BadReg);
        }
        if count == cpus.Length {
          return count, Some(TooManyCpus);
        }
        var id := CpuId(n, naddr);
        ghost var before := cpus[..];
        cpus[count] := cpus[count].(id := id);
        IdsStep(before, cpus[..], written, id);
        written := written + [id];
        count := count + 1;
        room := room - 1;
        rest := rest[1..];
      }
      assert written + [] == written;
      failure := None;
    }

    /** smp_init. Every slot's id is first set to the unused marker; then
        the cpu ids are written from slot 0 on. On success `smp_numcores`
        counts them and `bspid` is the current core's id; on failure (-1;
        a bad #address-cells is a crash in C) both keep their values and
        the slots written so far stay written. Only ids change. */
    method SmpInit(dt: Option<CpusNode>, mpidr: bv64) returns (r: int)
      requires Valid()
      modifies this, cpus
      ensures Valid() && cpus == old(cpus)
      ensures r == 0 || r == -1
      ensures AddressCells(AddressCellsOf(dt)).Err? ==> r == -1 && IdsAre(cpus[..], [])
      ensures AddressCells(AddressCellsOf(dt)).Ok? ==>
        var s := Scan(SubnodesOf(dt), AddressCells(AddressCellsOf(dt)).value, cpus.Length);
        && IdsAre(cpus[..], s.ids)
        && (r == 0 <==> s.failure.None?)
        && (r == 0 ==> numCores == |s.ids|)
      ensures r == 0 ==> bspId == LcpuId(mpidr) as int
      ensures r != 0 ==> numCores == old(numCores) && bspId == old(bspId)
      ensures forall i :: 0 <= i < cpus.Length ==> cpus[i] == old(cpus[i]).(id := cpus[i].id)
      ensures bspDone == old(bspDone) && apsStarted == old(apsStarted) && apsRunning == old(apsRunning)
    {
      ClearIds();
      ghost var cleared := cpus[..];
      var cells := AddressCells(AddressCellsOf(dt));
      if cells.Err? {
        return -1;
      }
      var count, failure := WriteIds(SubnodesOf(dt), cells.value);
      assert forall i :: 0 <= i < cpus.Length ==> cpus[i] == cleared[i].(id := cpus[i].id);
      if failure.Some? {
        return -1;
      }
      numCores := count;
      bspId := LcpuId(mpidr) as int;
      r := 0;
    }

    /** The power-on loop of ukplat_lcpu_start, checked against
        `StartAll`; it changes slots and nothing else. */
    method StartRequests(reqs: seq<Request>, conduit: Option<Psci.Conduit>, trampoline: u64)
      returns (calls: seq<Psci.Call>)
      requires Valid()
      modifies cpus
      ensures var b := StartAll(old(cpus[..]), reqs, numCores, bspId as int, conduit, trampoline);
        cpus[..] == b.cpus && calls == b.calls
    {
      ghost var cs0 := cpus[..];
      calls := [];
      var i := 0;
      while i < |reqs|
        invariant 0 <= i <= |reqs|
        invariant var b := StartAll(cs0, reqs[..i], numCores, bspId as int, conduit, trampoline);
          cpus[..] == b.cpus && calls == b.calls
      {
        var rq := reqs[i];
        assert reqs[..i + 1][..i] == reqs[..i];
        if rq.logic < numCores && cpus[rq.logic].id != bspId as int {
          var target := cpus[rq.logic].id;
          cpus[rq.logic] := cpus[rq.logic].(entry := rq.entry, stackp := rq.stack, fnlist := Some([]));
          calls := calls + CallsOf(Psci.PowerOn(conduit, target, trampoline, rq.logic));
        }
        i := i + 1;
      }
      assert reqs[..|reqs|] == reqs;
    }

    /** ukplat_lcpu_start. `bspdone` and `smp_aps_started` are cleared;
        every selected request records its entry and stack, empties the
        slot's work list and issues CPU_ON through the selected conduit
        (its status is only logged). With a single core the call returns 0
        at once and `bspdone` stays 0; otherwise `smp_aps_running` is
        cleared, `bspdone` set to 1, and the result is 0 when the wait sees
        running == started and -1 when it stalls. The application
        processors write both counters meanwhile: afterwards they hold what
        the wait's last check read. */
    method LcpuStart(lcpuid: Option<seq<u32>>, sp: seq<u64>, entry: seq<u64>, num: int,
                     conduit: Option<Psci.Conduit>, trampoline: u64, obs: nat -> ApCounters)
      returns (r: int, calls: seq<Psci.Call>)
      requires Valid()
      requires num < 0x8000_0000
      requires num <= |sp| && num <= |entry| && (lcpuid.Some? ==> num <= |lcpuid.value|)
      modifies this, cpus
      ensures Valid() && cpus == old(cpus)
      ensures var b := StartAll(old(cpus[..]), Requests(lcpuid, sp, entry, num), numCores, bspId as int,
                                conduit, trampoline);
        cpus[..] == b.cpus && calls == b.calls
      ensures numCores == old(numCores) && bspId == old(bspId)
      ensures numCores == 1 ==> r == 0 && bspDone == 0 && apsStarted == 0 && apsRunning == old(apsRunning)
      ensures numCores != 1 ==> bspDone == 1
      ensures numCores != 1 ==>
        var last := obs(Polling.LastCheck(Polling.Poll(ApProbes(obs), 0, 0, 0)));
        apsRunning == last.running && apsStarted == last.started
      ensures numCores != 1 ==> (r == 0 <==> Polling.Poll(ApProbes(obs), 0, 0, 0).Finished?)
      ensures r == 0 || r == -1
    {
      apsStarted := 0;
      bspDone := 0;
      calls := StartRequests(Requests(lcpuid, sp, entry, num), conduit, trampoline);
      if numCores == 1 {
        return 0, calls;
      }
      apsRunning := 0;
      bspDone := 1;
      var outcome := Polling.PollProgress(ApProbes(obs));
      var last := obs(Polling.LastCheck(outcome));
      apsRunning, apsStarted := last.running, last.started;
      r := if outcome.Finished? then 0 else -1;
    }

    /** The first statement of _lcpu_entry_default, run by an application
        processor: an unsynchronised uint64_t increment. */
    method ApEntry()
      modifies this
      ensures apsRunning == Wrap64(old(apsRunning) + 1)
      ensures cpus == old(cpus) && numCores == old(numCores) && bspId == old(bspId)
      ensures bspDone == old(bspDone) && apsStarted == old(apsStarted)
    {
      apsRunning := Wrap64(apsRunning + 1);
    }
  }
}
