# Unikraft ARM SMP bring-up, platform configuration and reader-writer lock, in Dafny

This project models four pieces of the Unikraft unikernel and proves properties of them.

- **The reader-writer lock** of `lib/uklock` (`rwlock.dfy`).
  - It is a class over `nactive`, `npending_reads` and `npending_writes`.
  - Each spinlock critical section is one method.
  - Each `while (1)` spin loop is a "try" method that performs one iteration.
  - Ghost holder counts state reader/writer exclusion.
- **The core registry and bring-up of the KVM ARM platform** (`smp.dfy`).
  - `smp_init` fills the `cpus[]` descriptor table from the `/cpus` device-tree node.
  - `ukplat_lcpu_start` records entry points and stacks, issues PSCI CPU_ON calls, and waits for the application processors (APs).
  - `ukplat_lcpu_id` masks MPIDR_EL1.
- **The platform set-up path of `setup.c`** (`setup.dfy`):
  - PSCI conduit selection;
  - the memory layout, in 64-bit arithmetic;
  - command-line truncation;
  - the `cpu_possible_map` fill;
  - `start_cpu`, `init_secondary` and `release_aps` with their counters;
  - the `cpu0` rule.
- **The PSCI constant tables** (`psci.dfy`).
  - The function IDs (AArch64 and 32-bit) follow the function-identifier layout of section 2.5 of the Arm SMC Calling Convention.
  - `enum psci_function`.
  - The `PSCI_RET_*` codes.

Supporting modules:

- `machine.dfy`: fixed-width integers, `Wrap64`, `ALIGN_DOWN`/`ALIGN_UP`, and C strings.
- `devicetree.dfy`: the device-tree records both CPU scans read. A node is `(enable-method?, device_type?, reg?)`, filtered as in section 3.8 of the Devicetree Specification.
- `polling.dfy`: the progress-stall wait loop shared by `ukplat_lcpu_start` and `release_aps`.

How the loops are modelled:

- **Loops that change state are methods** with loop invariants:
  - `Smp.WriteIds`, `Smp.StartRequests` and `Polling.PollProgress`;
  - `SmpBoot.FillMap`, and the clearing loops.
- **Each method is proved against a specification function**:

  | method | specification |
  |---|---|
  | `WriteIds` | `Scan` |
  | `StartRequests` | `StartAll` |
  | `FillMap` | `ScanMap` |
  | `PollProgress` | `Poll` |

  The properties are then proved about those functions.
- **Values written by other cores are inputs.** A wait loop reads `obs(k)`, the value the bootstrap core sees at its k-th check. Each `mdelay(1)` is one step of `k`.
- **The source is followed where it differs from its header.** The header comment of `ukplat_lcpu_start` says it returns the number of cores started (include/uk/plat/lcpu.h:112). The code returns 0 or -1, and the model returns 0 or -1.

## Model

| member | source | states |
|---|---|---|
| Machine.Wrap64 | plat/kvm/arm/setup.c:176 | uint64_t arithmetic: a value in range is kept; one 2^64 too large or one below 0 is shifted back into range |
| Machine.AlignDown | plat/kvm/arm/setup.c:177-178 | ALIGN_DOWN gives the largest multiple of the alignment at or below the value |
| Machine.AlignUp | plat/kvm/arm/setup.c:179-180 | ALIGN_UP always gives a multiple of the alignment; when the sum does not wrap, it is at or above the value and less than one alignment above it |
| Machine.ToInt32 | plat/kvm/arm/smp.c:107 | a 32-bit cell read into an `int` is its two's-complement value |
| Machine.CStr | plat/kvm/arm/smp.c:125 | the string strcmp sees is the longest NUL-free prefix of the property value |
| Psci.Number | plat/common/include/arm/psci.h:40-62 | every function number is at most 0xa |
| Psci.FnId | plat/common/include/arm/psci.h:39-62 | every ID has the fast-call bit, owner 4 and its function's number in bits 15:0; the SMC64 bit is set iff the table is AArch64 and the function takes wide arguments |
| Psci.AArch64TableExtends32 | plat/common/include/arm/psci.h:40-62 | the AArch64 ID is the 32-bit ID with bit 30 added exactly for CPU_SUSPEND, CPU_ON, AFFINITY_INFO, MIGRATE and MIGRATE_INFO_UP_CPU; the others are equal |
| Psci.FromNumber | plat/common/include/arm/psci.h:40-62 | a function number names a function iff it is at most 0xa, and that function has this number |
| Psci.Decode | plat/common/include/arm/psci.h:40-62 | a decoded ID is the table entry of the function it names |
| Psci.DecodeFnId | plat/common/include/arm/psci.h:40-62 | decoding a table entry gives back its function |
| Psci.FnIdInjective | plat/common/include/arm/psci.h:40-62 | no two functions share an ID within a table |
| Psci.EnumValue | plat/common/include/arm/psci.h:65-71 | the four enumerators are numbered below PSCI_FN_MAX = 4 |
| Psci.EnumFromValue | plat/common/include/arm/psci.h:65-71 | a value names an enumerator iff it is below PSCI_FN_MAX, and that enumerator has this value |
| Psci.EnumRoundTrip | plat/common/include/arm/psci.h:65-71 | enumerator to value and back is the identity |
| Psci.Code | plat/common/include/arm/psci.h:74-83 | every code lies in -9..0, and 0 is exactly PSCI_RET_SUCCESS |
| Psci.FromCode | plat/common/include/arm/psci.h:74-83 | an integer names a status iff it lies in -9..0 |
| Psci.CodeRoundTrip | plat/common/include/arm/psci.h:74-83 | status to code and back is the identity |
| Psci.CodeInjective | plat/common/include/arm/psci.h:74-83 | the ten codes are pairwise distinct |
| Psci.PowerOnAsWritten | plat/kvm/arm/setup.c:65-70 | psci_cpu_on as written traps through hvc with CPU_ON and (target, entry, context) |
| Psci.PowerOn | plat/kvm/arm/setup.c:108-111 | the corrected call goes through the selected conduit with the same function and arguments; with no conduit no call is made |
| Psci.PowerOnIgnoresSelectedConduit | plat/kvm/arm/setup.c:69 | with smc selected the call as written still uses hvc, and the corrected call uses smc |
| Devicetree.Accumulate | plat/kvm/arm/smp.c:147-148 | folding cells into a uint64_t gives 0 for no cells and otherwise keeps the last cell as the low word |
| Devicetree.ReadNumber | plat/kvm/arm/setup.c:296-297 | a read of no cells is 0; a read of `naddr` available cells has cell `naddr - 1` as its low word |
| Devicetree.CpuId | plat/kvm/arm/smp.c:141-148 | a cpu node's id is read from the start of `reg`; when `reg` holds `naddr` cells the cells after it do not matter |
| Devicetree.CpuIdReadsPastReg | plat/kvm/arm/smp.c:141-148 | a one-cell `reg` under two address cells passes the `prop_len <= 0` test and takes its low word from the next cell of the blob |
| Devicetree.ReadNumberCells | plat/kvm/arm/smp.c:147-148 | one cell is read as itself; two cells are high word * 2^32 + low word; one cell of two reads the high word |
| Devicetree.AddressCellsAsWritten | plat/kvm/arm/smp.c:105-111 | #address-cells as written is accepted only inside [0, FDT_MAX_NCELLS) |
| Devicetree.AddressCells | plat/kvm/arm/smp.c:105-111 | the corrected read accepts iff the property is present and below FDT_MAX_NCELLS, and returns its value |
| Devicetree.AddressCellsUninitialised | plat/kvm/arm/smp.c:105-108 | with the property absent, the code as written depends on the uninitialised `naddr`: 1 passes and -1 fails; the correction rejects |
| Devicetree.AddressCellsAgree | plat/kvm/arm/setup.c:256-262 | with the property present, the two reads agree |
| Polling.PollProgress | plat/kvm/arm/smp.c:214-231 | the wait loop, with its budget reset when the counter grows, produces the outcome `Poll` defines |
| Polling.MaxCount | plat/kvm/arm/smp.c:223-226 | the recorded maximum bounds every counter value seen so far |
| Polling.PollFinishedAt | plat/kvm/arm/smp.c:214-218 | from any loop state, success happens at the first check that sees the condition |
| Polling.WaitFinishesAtFirstSuccess | plat/kvm/arm/smp.c:214-218 | the wait returns 0 at the first observation with the condition true, and no earlier |
| Polling.PollStalledAt | plat/kvm/arm/smp.c:219-231 | from any loop state, a time-out comes after checks that never saw the condition, the last BUDGET - 1 of them without progress |
| Polling.WaitStallsOnlyWithoutProgress | plat/kvm/arm/smp.c:219-231 | the wait times out only after at least 20000 checks, none of which saw the condition and the last 19999 of which saw no progress |
| Polling.PollEarly | plat/kvm/arm/smp.c:214-218 | from any loop state, a condition seen before check BUDGET ends the wait by then |
| Polling.WaitSucceedsWithinBudget | plat/kvm/arm/smp.c:214-218 | a condition seen within the first 20000 checks always ends the wait successfully |
| RwLock.RwLock.Exclusion | lib/uklock/rwlock.c:65-66 | `nactive` = -1 iff one writer and no readers, > 0 iff that many readers and no writer, 0 iff no holder |
| RwLock.RwLock.Init | lib/uklock/rwlock.c:13-28 | all counters are 0 and there are no holders; a write-recursive configuration is refused |
| RwLock.RwLock.RegisterRead | lib/uklock/rwlock.c:34-36 | `npending_reads` grows by one and nothing else changes |
| RwLock.RwLock.TryAcquireRead | lib/uklock/rwlock.c:38-47 | the read is granted iff `nactive >= 0`; then `nactive` +1 and `npending_reads` -1, otherwise no change |
| RwLock.RwLock.TryAcquireReadAfterWriters | lib/uklock/rwlock.c:101-103 | the read loop as its comment intends: granted iff no writer is active and none waits, so while a writer waits the active readers never grow |
| RwLock.RwLock.RegisterWrite | lib/uklock/rwlock.c:54-57 | `npending_writes` grows by one and nothing else changes |
| RwLock.RwLock.TryAcquireWrite | lib/uklock/rwlock.c:58-70 | write access is granted iff `nactive == 0`; then `nactive == -1` and `npending_writes` -1, otherwise no change |
| RwLock.RwLock.ReadUnlock | lib/uklock/rwlock.c:79-89 | requires a reader; `nactive` -1, pending counters unchanged; the wake flag is set iff it was the last reader and writers wait |
| RwLock.RwLock.WriteUnlock | lib/uklock/rwlock.c:98-107 | requires the writer; `nactive` becomes 0, pending counters unchanged; the wake flag is set iff reads are pending |
| RwLock.RwLock.Upgrade | lib/uklock/rwlock.c:114-129 | a sole reader becomes the writer with the pending counters unchanged; otherwise the caller leaves the readers and becomes a pending writer |
| RwLock.RwLock.Downgrade | lib/uklock/rwlock.c:155-164 | requires the writer; leaves exactly one reader, pending counters unchanged; the wake flag is set iff reads are pending |
| RwLock.ReadLockUncontended | lib/uklock/rwlock.c:30-48 | with no writer, rlock adds one reader and leaves `npending_reads` as before the call |
| RwLock.WriteLockUncontended | lib/uklock/rwlock.c:50-71 | on a free lock, wlock gives write access and leaves `npending_writes` as before the call |
| RwLock.ReaderOvertakesPendingWriter | lib/uklock/rwlock.c:30-48 | rlock as written, with a reader active and a writer waiting: the new reader enters and the readers the writer waits for grow |
| RwLock.ReaderDefersToPendingWriter | lib/uklock/rwlock.c:101-103 | with the intended test the same reader stays pending and the active readers do not grow |
| RwLock.UpgradeWhileOthersLeave | lib/uklock/rwlock.c:110-147 | with other readers, once they unlock, upgrade ends with write access and both pending counters as before the call |
| Smp.LcpuId | plat/kvm/arm/smp.c:262-270 | the 32-bit id is MPIDR masked to bits 0-23; bits 24-31 are always zero |
| Smp.Scan | plat/kvm/arm/smp.c:113-151 | the scan writes at most one id per node and never more than the table holds |
| Smp.ScanAsWritten | plat/kvm/arm/smp.c:113-151 | the loop as written never reports a full table; it completes iff every node is well formed, and then it has written every cpu id in tree order |
| Smp.Accepted | plat/kvm/arm/smp.c:131-151 | the reference list of cpu ids has at most one entry per node |
| Smp.ScanMeaning | plat/kvm/arm/smp.c:113-152 | the ids written are a prefix of the cpu nodes' ids in tree order; the scan succeeds iff every node has enable-method "psci" and every cpu node has `reg`, and the cpus fit the table; then it has written all of them |
| Smp.GoodNodesAccepted | plat/kvm/arm/smp.c:131-150 | a run of well-formed cpu nodes is accepted whole |
| Smp.ScanOverflowsTable | plat/kvm/arm/smp.c:147-150 | with one cpu node more than CONFIG_MAX_CPUS, the loop as written writes an id one past the table; the bounded scan reports TooManyCpus |
| Smp.ScanErrorIsTooMany | plat/kvm/arm/smp.c:113-151 | over well-formed nodes, the only failure is running out of slots |
| Smp.TwoCoreTopology | plat/kvm/arm/smp.c:113-152 | two psci cpu nodes with one-cell reg values fill slots 0 and 1 with those ids, in tree order |
| Smp.Requests | plat/kvm/arm/smp.c:178-179 | request i carries `lcpuid[i]` (or i when `lcpuid` is NULL), `sp[i]` and `entry[i]`; a negative `num` gives no requests |
| Smp.SelectAsWritten | plat/kvm/arm/smp.c:181-185 | the test as written reads past the table iff the id is at least the capacity, starts iff the slot is not the bootstrap core's and the id is at most `smp_numcores`, and agrees with the corrected test below `smp_numcores` |
| Smp.SelectionBoundsAsWritten | plat/kvm/arm/smp.c:181-185 | the test as written starts logical id `smp_numcores`, which names no core, and reads past the table for an id equal to the capacity; below `smp_numcores` it agrees with the corrected selection |
| Smp.StartAll | plat/kvm/arm/smp.c:178-197 | the start loop, with the corrected bound test and conduit, keeps the table's length and every slot's id |
| Smp.StartAllUntouched | plat/kvm/arm/smp.c:187-189 | a slot no carried-out request names keeps its contents |
| Smp.StartAllLastWins | plat/kvm/arm/smp.c:187-189 | a started slot holds the entry and stack of the last request naming it, an empty work list, and its id |
| Smp.SelectedLogic | plat/kvm/arm/smp.c:178-185 | the logical ids the start loop selects name discovered cores other than the bootstrap core, at most one per request |
| Smp.CpuOnCalls | plat/kvm/arm/smp.c:190-192 | one call per selected logical id |
| Smp.StartAllCallsComplete | plat/kvm/arm/smp.c:178-197 | the corrected start loop issues exactly one CPU_ON per request that passes the corrected bound test, in request order, with the core's hardware id, the trampoline and the logical id; through the selected conduit, and none when no conduit was selected (the code as written always traps through hvc) |
| Smp.StartAllCalls | plat/kvm/arm/smp.c:190-192 | in the corrected start loop every call is CPU_ON through the selected conduit; its target is the slot's hardware id, never the bootstrap core's, and its context is a discovered slot; there is at most one call per request and none without a conduit |
| Smp.Smp.constructor | plat/kvm/arm/smp.c:57-72 | the globals start zeroed, with CONFIG_MAX_CPUS slots |
| Smp.Smp.ClearIds | plat/kvm/arm/smp.c:96-97 | every slot's id becomes -1 and nothing else changes |
| Smp.Smp.WriteIds | plat/kvm/arm/smp.c:114-151 | the subnode loop writes exactly `Scan`'s ids from slot 0, reports its count and failure, and changes only ids |
| Smp.Smp.SmpInit | plat/kvm/arm/smp.c:87-159 | ids are cleared first; a bad #address-cells fails; otherwise the table holds the scan's ids, the result is 0 iff the scan completed, and then `smp_numcores` is the count and `bspid` the current core's id |
| Smp.Smp.StartRequests | plat/kvm/arm/smp.c:178-197 | the power-on loop leaves the table and call list that the corrected `StartAll` defines |
| Smp.Smp.LcpuStart | plat/kvm/arm/smp.c:169-232 | slots and calls as the corrected `StartAll` says; with one core it returns 0 and leaves `bspdone` 0; otherwise `bspdone` = 1, the result is 0 iff the wait finishes, else -1, and `smp_aps_running`/`smp_aps_started` hold what the last check read |
| Smp.Smp.ApEntry | plat/kvm/arm/smp.c:235 | an AP increments `smp_aps_running` in uint64_t and nothing else changes |
| Setup.ConduitOf | plat/kvm/arm/setup.c:102-116 | hvc is selected iff the method is present, non-empty and "hvc"; smc iff it is "smc" |
| Setup.PsciMethod | plat/kvm/arm/setup.c:92-123 | a PSCI 1.0 node decides the conduit; without one the 0.2 node decides; without either the conduit is NULL |
| Setup.PsciMethodPreference | plat/kvm/arm/setup.c:92-100 | a PSCI 1.0 node decides alone; without one the 0.2 node decides; without either no conduit is selected |
| Setup.ConduitNamesAccepted | plat/kvm/arm/setup.c:108-111 | "hvc" and "smc" select their conduits, and bytes after the NUL are ignored |
| Setup.ConduitNamesRejected | plat/kvm/arm/setup.c:103-116 | "HVC", "hvcx" and an empty value select nothing |
| Setup.BankAsWritten | plat/kvm/arm/setup.c:171-172 | the bank as written is two 64-bit loads from the start of `reg` |
| Setup.Bank | plat/kvm/arm/setup.c:145-172 | the bank read by cell counts: two cells each give high * 2^32 + low for base and size, one cell each gives the cells themselves, and the size's low word is its last cell |
| Setup.BankCellCounts | plat/kvm/arm/setup.c:163-172 | with two cells each the load as written and the cell-count read agree; with one cell each the load runs base and size together |
| Setup.PageTable | plat/kvm/arm/setup.c:177-182 | the page table starts at the page holding the image end, has a page-multiple length, and ends at their uint64_t sum |
| Setup.BootStack | plat/kvm/arm/setup.c:185-190 | the boot stack ends at the last 16-byte boundary at or below the uint64_t end of RAM, has a 16-byte-multiple length, and starts at their uint64_t difference |
| Setup.LayoutAsWritten | plat/kvm/arm/setup.c:173-198 | the arithmetic as written fails exactly for an image below RAM or a page table ending above the stack start; otherwise the heap lies exactly between page table and stack |
| Setup.Layout64 | plat/kvm/arm/setup.c:173-198 | an image below RAM, any wrap-around and a negative heap are the only errors, each stated exactly; a layout returned is sound |
| Setup.PageTableSound | plat/kvm/arm/setup.c:177-182 | without wrap-around, the page table starts at the image end's page and its length is page_table_size rounded up to a page |
| Setup.BootStackSound | plat/kvm/arm/setup.c:185-190 | without wrap-around, the boot stack ends at the last 16-byte-aligned address of RAM and is at least __STACK_SIZE long |
| Setup.LayoutAgreesWithoutWrap | plat/kvm/arm/setup.c:176-198 | without wrap-around, the arithmetic as written equals the checked layout |
| Setup.LayoutWrapsAsWritten | plat/kvm/arm/setup.c:176-198 | when `mem_base + mem_size` reaches 2^64, the code as written accepts a boot stack that ends below RAM, while the checked layout reports the wrap |
| Setup.WrapExample | plat/kvm/arm/setup.c:176-190 | a concrete bank at 0x4000_0000 reaching 2^64 meets that condition, and its stack is [2^64 - 64 KiB, 0) |
| Setup.MemConfigAsWritten | plat/kvm/arm/setup.c:126-199 | no memory node leaves the configuration empty; the cell-count and `reg` checks crash as in the C; a wrap-around is never reported |
| Setup.MemConfigAgrees | plat/kvm/arm/setup.c:126-199 | with two address and two size cells and no wrap-around, the code as written and the corrected configuration agree |
| Setup.MemConfig | plat/kvm/arm/setup.c:126-199 | no memory node leaves the configuration empty; each cell-count and `reg` length check crashes exactly as in the C; a configured layout is sound for the bank read by cell counts |
| Setup.StrNCpy | plat/kvm/arm/setup.c:220 | strncpy copies the source's C string up to n bytes, pads with NUL and leaves the rest of the buffer |
| Setup.CopyLen | plat/kvm/arm/setup.c:215-218 | the copy length is the property length, cut to 1024 |
| Setup.Cmdline | plat/kvm/arm/setup.c:201-229 | with no or empty bootargs the buffer is unchanged; otherwise byte n-1 is NUL and the bytes from n on are unchanged |
| Setup.CmdlineString | plat/kvm/arm/setup.c:215-222 | the command line is bootargs' string, truncated to the copy length minus one, and always shorter than 1024 |
| Setup.PossibleId | plat/kvm/arm/setup.c:296-298 | the uint64_t core id stored in an `int` is its low 32 bits as a signed value |
| Setup.ScanMap | plat/kvm/arm/setup.c:264-300 | the map fill leaves at most one entry per node, and no id past the map |
| Setup.ScanMapEntries | plat/kvm/arm/setup.c:264-300 | position i holds node i's id (or a hole for a non-cpu node) for every node passed; a completed fill passed every node |
| Setup.ScanMapCompletes | plat/kvm/arm/setup.c:264-300 | the fill completes iff every node uses psci, every cpu node has `reg`, and every cpu node's position fits the map |
| Setup.PossibleIds | plat/kvm/arm/setup.c:298 | the map holds at most one id per entry |
| Setup.ScansAgree | plat/kvm/arm/setup.c:296-298 | a completed fill of `cpu_possible_map` holds, in order, the ids `smp_init` writes into `cpus[]`, narrowed to int |
| Setup.ScanMapOverflow | plat/kvm/arm/setup.c:296-298 | with a cpu node at position MAXCPU, the loop as written stores past the map; the bounded fill reports TooManyCpus |
| Setup.ScanMapErrorIsTooMany | plat/kvm/arm/setup.c:264-300 | over well-formed nodes, the only failure is running out of map |
| Setup.EnableMethodCheckAsWritten | plat/kvm/arm/setup.c:272-278 | the test as written dereferences NULL iff enable-method is absent and accepts iff it is "psci" |
| Setup.EnableMethodCheck | plat/kvm/arm/setup.c:272-278 | the corrected test accepts iff enable-method is "psci", and never dereferences NULL |
| Setup.EnableMethodNullDeref | plat/kvm/arm/setup.c:274-276 | the test as written dereferences NULL iff enable-method is absent, and otherwise agrees with the corrected test |
| Setup.CountIsIds | plat/kvm/arm/setup.c:298-299 | `mp_ncpus` grows by exactly the number of ids stored |
| Setup.SmpBoot.constructor | plat/kvm/arm/setup.c:43-50 | globals start at zero except `smp_cpus = 1` and `cpu0 = -1` |
| Setup.SmpBoot.ClearMap | plat/kvm/arm/setup.c:247-248 | every map entry becomes -1 |
| Setup.SmpBoot.FillMap | plat/kvm/arm/setup.c:264-300 | the subnode loop leaves the map and failure that `ScanMap` defines, and `mp_ncpus` grows by the ids stored |
| Setup.SmpBoot.InitDtbCpu | plat/kvm/arm/setup.c:237-301 | the map is cleared, a bad #address-cells stops, otherwise the map is filled as `ScanMap` says; the other globals are untouched |
| Setup.SmpBoot.StartCpu | plat/kvm/arm/setup.c:383-408 | no call for cpu0; otherwise CPU_ON through the selected conduit (the corrected `psci_cpu_on`) with the core index as target and context and the entry address cut to its low 32 bits by `uint32_t pa`; `mp_ncpus` drops by one when the call fails or, with no conduit selected, cannot be made |
| Setup.SmpBoot.InitSecondaryStep | plat/kvm/arm/setup.c:372-381 | before release nothing changes; once released, `smp_cpus` +1, and `smp_started` is set when it reaches `mp_ncpus` |
| Setup.SmpBoot.ReleaseAps | plat/kvm/arm/setup.c:316-355 | with `mp_ncpus == 1` nothing happens; otherwise `aps_ready` = 1, the wait on `smp_started` runs with the progress-reset budget, and `smp_started`/`smp_cpus` hold what the last check read |
| Setup.SmpBoot.DeriveCpu0 | plat/kvm/arm/setup.c:438-445 | an unset `cpu0` becomes 0 iff MPIDR's 32-bit affinity fields are zero; otherwise it is unchanged |

## Left out

- libfdt is not part of this model. Device-tree lookups become records: `CpusNode`, `CpuNode`, `PsciNode`, `MemNode`, and an optional `bootargs` value.
  - `reg` is a list of 32-bit cells, so a property length that is not a multiple of 4 is not modelled.
  - `MemNode.following` and `CpuNode.following` hold the cells stored after `reg`, which the 64-bit loads and `fdt_reg_read_number` can read.
- The firmware traps (`smcc_psci_hvc_call`, `smcc_psci_smc_call`) are foreign. A call is returned as a `Psci.Call` record, and `start_cpu`'s firmware status is an input.
- Hardware access is outside the model: inline assembly (`dsb`, `sev`, `wfe`, `msr tpidr_el1`), `SYSREG_READ32(mpidr_el1)` (taken as an input), the `_lcpu_start` and `mpentry` trampolines, `ukplat_virt_to_phys` (its result is a parameter) and the stack switch.
- Real BSP/AP concurrency and memory ordering are outside the model.
  - The two wait loops read each check's counters from an input sequence.
  - `_lcpu_entry_default`'s increment and `init_secondary`'s increment are single atomic steps.
  - `smp_aps_started` is never incremented in these files, so it is part of the observed input.
- Timing (`ndelay`, `mdelay`, the monotonic clock) is outside the model: one delay is one step of the observation index.
- `_lcpu_entry_default` after its first statement (allocator, scheduler, interrupt controller) is not modelled.
- `_libkvmplat_start` (console, interrupt controller, stack switch) is not modelled, except the `cpu0` rule.
- Spinlock and wait-queue internals are not modelled: each critical section is one method, and the wake-up flags are returned but nothing is woken.
- Logging and crash messages are not modelled. A crash or failed assertion becomes a precondition, an error result or a `Crash` outcome.
- The `/chosen` lookup tests `!fdtchosen` instead of a negative offset (plat/kvm/arm/setup.c:208). `/chosen` is never the root node at offset 0, and `fdt_getprop` on a negative offset finds nothing. The behaviour therefore equals the intended one, and `Setup.Cmdline` models both as a missing `bootargs`.
- RwLock.RwLock.TryAcquireRead: one iteration of the spin loop; the repetition belongs to the caller, and that a spinning caller eventually gets the lock (another holder unlocking) is not stated. The same holds for RwLock.RwLock.TryAcquireWrite.
- Devicetree.ReadNumber: the text of libfdt's `fdt_reg_read_number` is not part of this model. It is taken to fold `naddr` cells big-endian into a uint64_t: 0 for no cells, the low 64 bits for three cells. A read that runs past the end of the blob is cut there.
- Setup.SmpBoot.StartCpu: `UK_ASSERT(target_cpu < MAXCPU)` is a precondition.
- Setup.SmpBoot.InitSecondaryStep: `smp_cpus` is an unbounded `int`, so signed overflow is not modelled. The same holds for `mp_ncpus` in `FillMap` and `StartCpu`.
- Smp.StartAll: follows the corrected bound test (`Selected`: `logic_id < smp_numcores` before the slot is read) and the corrected `psci_cpu_on` (`Psci.PowerOn`: the selected conduit, no call without one). The code as written is `Smp.SelectAsWritten` and `Psci.PowerOnAsWritten`; see "## Findings".
- Smp.StartAll: the CPU_ON context argument is the slot address `&cpus[logic_id]` in the C. The model passes the logical id, which names the same slot.
- Smp.StartAllCalls: states the calls of the corrected start loop, as `Smp.StartAll` above. The same holds for Smp.StartAllCallsComplete, Smp.Smp.StartRequests and Smp.Smp.LcpuStart.
- Setup.SmpBoot.StartCpu: calls the corrected `psci_cpu_on` (`Psci.PowerOn`), so with no conduit selected no call is made and `mp_ncpus` drops; the code as written always traps through hvc (`Psci.PowerOnAsWritten`).
- Smp.Smp.LcpuStart: `bspdone` being 0 during the power-on loop is not stated, because the model has no state between iterations visible to other cores.

## Findings

| source | as written | input that shows it | evidently intended | confidence | as-written member | corrected member |
|---|---|---|---|---|---|---|
| plat/kvm/arm/smp.c:181-185 | the slot is read before the bound check, and the check is `logic_id > smp_numcores` | `logic_id == smp_numcores` passes and starts an undiscovered slot; `logic_id == CONFIG_MAX_CPUS` reads past `cpus[]` | check `logic_id < smp_numcores` before reading the slot | not executed | Smp.SelectionBoundsAsWritten | Smp.StartAllUntouched |
| plat/kvm/arm/smp.c:147-150 | no `index < CONFIG_MAX_CPUS` test before `cpus[index].id = …` | CONFIG_MAX_CPUS + 1 well-formed cpu nodes | stop with an error when the table is full | not executed | Smp.ScanOverflowsTable | Smp.Smp.WriteIds |
| plat/kvm/arm/setup.c:296-298 | no `index <= MAXCPU` test before `cpu_possible_map[index-1] = …` | a cpu node at position MAXCPU | stop with an error when the map is full | not executed | Setup.ScanMapOverflow | Setup.SmpBoot.FillMap |
| plat/kvm/arm/smp.c:105-108 | `naddr` is assigned only when `#address-cells` exists (also plat/kvm/arm/setup.c:256-259) | a `/cpus` node without `#address-cells`: uninitialised 1 passes, -1 fails | reject a missing property | not executed | Devicetree.AddressCellsUninitialised | Devicetree.AddressCells |
| plat/kvm/arm/setup.c:69 | psci_cpu_on always traps through hvc (also plat/kvm/arm/smp.c:165) | a device tree whose PSCI method is "smc" | call through the conduit chosen at plat/kvm/arm/setup.c:108-111 | not executed | Psci.PowerOnIgnoresSelectedConduit | Psci.PowerOn |
| plat/kvm/arm/setup.c:274-276 | the error message prints `prop->data` when `prop` is NULL | a cpu node without `enable-method` | report without dereferencing | not executed | Setup.EnableMethodNullDeref | Setup.EnableMethodCheck |
| plat/kvm/arm/setup.c:176-198 | `mem_base + mem_size` and `bstack.end - bstack.len` wrap in uint64_t | a bank at 0x4000_0000 of size 0xffff_ffff_c000_0000 gives the stack [2^64 - 64 KiB, 0) | reject a bank that reaches the top of the address space | not executed | Setup.LayoutWrapsAsWritten | Setup.Layout64 |
| lib/uklock/rwlock.c:38-47 | rlock grants a read whenever `nactive >= 0` and never reads `npending_writes`, although the comment at lib/uklock/rwlock.c:101-103 says writer starvation is avoided there | a reader holds the lock, a writer spins in wlock, and a second reader calls rlock: it enters at once, so overlapping readers can keep the writer out indefinitely | rlock does not admit a new reader while a writer is pending | not executed | RwLock.ReaderOvertakesPendingWriter | RwLock.RwLock.TryAcquireReadAfterWriters |
| plat/kvm/arm/setup.c:171-172 | the bank is read as two 64-bit loads, whatever `#address-cells` and `#size-cells` say | `reg = <0x40000000 0x08000000>` with one cell each reads base 0x4000_0000_0800_0000 | read `naddr` cells of base and `nsize` cells of size | not executed | Setup.BankCellCounts | Setup.MemConfig |
