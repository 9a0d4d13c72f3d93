/** The PSCI function identifiers and return codes used by the ARM platform
    code: the two function-ID tables (AArch64 and 32-bit builds), the
    `psci_function` enumeration and the `PSCI_RET_*` status codes.

    A function ID follows the SMC Calling Convention layout: bit 31 marks a
    fast call, bit 30 the SMC64 calling convention, bits 29:24 the owning
    entity (4 = standard secure service) and bits 15:0 the function number. */
module Psci {
  import opened Machine

  /** Which of the two `#ifdef __aarch64__` tables is compiled in. */
  datatype Arch = AArch64 | AArch32

  /** The eleven PSCI functions the tables name. */
  datatype Function =
    | Version | CpuSuspend | CpuOff | CpuOn | AffinityInfo | Migrate
    | MigrateInfoType | MigrateInfoUpCpu | SystemOff | SystemReset | Features

  const FAST_CALL_BIT: bv32 := 0x8000_0000
  const SMC64_BIT: bv32 := 0x4000_0000
  const OWNER_MASK: bv32 := 0x3f00_0000
  const STANDARD_SECURE_SERVICE: bv32 := 4
  const NUMBER_MASK: bv32 := 0xffff

  predicate IsFastCall(id: bv32) { id & FAST_CALL_BIT != 0 }
  predicate IsSmc64(id: bv32) { id & SMC64_BIT != 0 }
  function Owner(id: bv32): bv32 { (id & OWNER_MASK) >> 24 }
  function FunctionNumber(id: bv32): bv32 { id & NUMBER_MASK }

  /** The function number each function has in both tables. */
  function Number(f: Function): (n: bv32)
    ensures n <= 0xa
  {
    match f
    case Version => 0x0
    case CpuSuspend => 0x1
    case CpuOff => 0x2
    case CpuOn => 0x3
    case AffinityInfo => 0x4
    case Migrate => 0x5
    case MigrateInfoType => 0x6
    case MigrateInfoUpCpu => 0x7
    case SystemOff => 0x8
    case SystemReset => 0x9
    case Features => 0xa
  }

  /** The functions whose AArch64 ID uses the SMC64 convention: the ones that
      take or return an address or a CPU affinity. */
  predicate TakesWideArguments(f: Function)
  {
    f.CpuSuspend? || f.CpuOn? || f.AffinityInfo? || f.Migrate? || f.MigrateInfoUpCpu?
  }

  /** PSCI_FNID_* as the preprocessor selects it. */
  function FnId(arch: Arch, f: Function): (id: bv32)
    ensures IsFastCall(id) && Owner(id) == STANDARD_SECURE_SERVICE
    ensures FunctionNumber(id) == Number(f)
    ensures IsSmc64(id) <==> arch == AArch64 && TakesWideArguments(f)
  {
    match (arch, f)
    case (AArch64, Version) => 0x8400_0000
    case (AArch64, CpuSuspend) => 0xc400_0001
    case (AArch64, CpuOff) => 0x8400_0002
    case (AArch64, CpuOn) => 0xc400_0003
    case (AArch64, AffinityInfo) => 0xc400_0004
    case (AArch64, Migrate) => 0xc400_0005
    case (AArch64, MigrateInfoType) => 0x8400_0006
    case (AArch64, MigrateInfoUpCpu) => 0xc400_0007
    case (AArch64, SystemOff) => 0x8400_0008
    case (AArch64, SystemReset) => 0x8400_0009
    case (AArch64, Features) => 0x8400_000a
    case (AArch32, Version) => 0x8400_0000
    case (AArch32, CpuSuspend) => 0x8400_0001
    case (AArch32, CpuOff) => 0x8400_0002
    case (AArch32, CpuOn) => 0x8400_0003
    case (AArch32, AffinityInfo) => 0x8400_0004
    case (AArch32, Migrate) => 0x8400_0005
    case (AArch32, MigrateInfoType) => 0x8400_0006
    case (AArch32, MigrateInfoUpCpu) => 0x8400_0007
    case (AArch32, SystemOff) => 0x8400_0008
    case (AArch32, SystemReset) => 0x8400_0009
    case (AArch32, Features) => 0x8400_000a
  }

  /** The AArch64 table is the 32-bit table with the SMC64 bit added exactly
      for the functions that take wide arguments. */
  lemma AArch64TableExtends32(f: Function)
    ensures TakesWideArguments(f) ==> FnId(AArch64, f) == FnId(AArch32, f) | SMC64_BIT
    ensures !TakesWideArguments(f) ==> FnId(AArch64, f) == FnId(AArch32, f)
  {
  }

  /** The function with a given number, when there is one. */
  function FromNumber(n: bv32): (r: Option<Function>)
    ensures r.Some? <==> n <= 0xa
    ensures r.Some? ==> Number(r.value) == n
  {
    if n == 0x0 then Some(Version)
    else if n == 0x1 then Some(CpuSuspend)
    else if n == 0x2 then Some(CpuOff)
    else if n == 0x3 then Some(CpuOn)
    else if n == 0x4 then Some(AffinityInfo)
    else if n == 0x5 then Some(Migrate)
    else if n == 0x6 then Some(MigrateInfoType)
    else if n == 0x7 then Some(MigrateInfoUpCpu)
    else if n == 0x8 then Some(SystemOff)
    else if n == 0x9 then Some(SystemReset)
    else if n == 0xa then Some(Features)
    else None
  }

  /** Which function a call ID names in a table, if any. */
  function Decode(arch: Arch, id: bv32): (r: Option<Function>)
    ensures r.Some? ==> FnId(arch, r.value) == id
  {
    match FromNumber(FunctionNumber(id))
    case None => None
    case Some(f) => if FnId(arch, f) == id then Some(f) else None
  }

  /** Decoding inverts the table, so the low 16 bits identify the function
      and no two functions share an ID within a table. */
  lemma {:induction false} DecodeFnId(arch: Arch, f: Function)
    ensures Decode(arch, FnId(arch, f)) == Some(f)
  {
    var n := FunctionNumber(FnId(arch, f));
    assert n == Number(f);
    match f
    case Version =>
    case CpuSuspend =>
    case CpuOff =>
    case CpuOn =>
    case AffinityInfo =>
    case Migrate =>
    case MigrateInfoType =>
    case MigrateInfoUpCpu =>
    case SystemOff =>
    case SystemReset =>
    case Features =>
  }

  lemma FnIdInjective(arch: Arch, f: Function, g: Function)
    requires FnId(arch, f) == FnId(arch, g)
    ensures f == g
  {
    DecodeFnId(arch, f);
    DecodeFnId(arch, g);
  }

  /** enum psci_function: four functions numbered 0..3, PSCI_FN_MAX their count. */
  datatype EnumFunction = FnCpuSuspend | FnCpuOn | FnCpuOff | FnMigrate

  const FN_MAX: nat := 4

  function EnumValue(f: EnumFunction): (v: nat)
    ensures v < FN_MAX
  {
    match f
    case FnCpuSuspend => 0
    case FnCpuOn => 1
    case FnCpuOff => 2
    case FnMigrate => 3
  }

  function EnumFromValue(v: nat): (r: Option<EnumFunction>)
    ensures r.Some? <==> v < FN_MAX
    ensures r.Some? ==> EnumValue(r.value) == v
  {
    if v == 0 then Some(FnCpuSuspend)
    else if v == 1 then Some(FnCpuOn)
    else if v == 2 then Some(FnCpuOff)
    else if v == 3 then Some(FnMigrate)
    else None
  }

  lemma EnumRoundTrip(f: EnumFunction)
    ensures EnumFromValue(EnumValue(f)) == Some(f)
  {
  }

  /** PSCI_RET_*: the status a PSCI call returns. */
  datatype Ret =
    | Success | NotSupported | InvalidParams | Denied | AlreadyOn | OnPending
    | InternalFailure | NotPresent | Disabled | InvalidAddress

  function Code(r: Ret): (c: int)
    ensures -9 <= c <= 0
    ensures c == 0 <==> r == Success
  {
    match r
    case Success => 0
    case NotSupported => -1
    case InvalidParams => -2
    case Denied => -3
    case AlreadyOn => -4
    case OnPending => -5
    case InternalFailure => -6
    case NotPresent => -7
    case Disabled => -8
    case InvalidAddress => -9
  }

  /** The status an integer return value stands for. */
  function FromCode(c: int): (r: Option<Ret>)
    ensures r.Some? <==> -9 <= c <= 0
    ensures r.Some? ==> Code(r.value) == c
  {
    if c == 0 then Some(Success)
    else if c == -1 then Some(NotSupported)
    else if c == -2 then Some(InvalidParams)
    else if c == -3 then Some(Denied)
    else if c == -4 then Some(AlreadyOn)
    else if c == -5 then Some(OnPending)
    else if c == -6 then Some(InternalFailure)
    else if c == -7 then Some(NotPresent)
    else if c == -8 then Some(Disabled)
    else if c == -9 then Some(InvalidAddress)
    else None
  }

  /** The ten codes are pairwise distinct: decoding a code gives back the
      status it came from. */
  lemma {:induction false} CodeRoundTrip(r: Ret)
    ensures FromCode(Code(r)) == Some(r)
  {
    match r
    case Success =>
    case NotSupported =>
    case InvalidParams =>
    case Denied =>
    case AlreadyOn =>
    case OnPending =>
    case InternalFailure =>
    case NotPresent =>
    case Disabled =>
    case InvalidAddress =>
  }

  lemma CodeInjective(r: Ret, s: Ret)
    requires Code(r) == Code(s)
    ensures r == s
  {
    CodeRoundTrip(r);
    CodeRoundTrip(s);
  }

  /** The two ways a PSCI call traps into firmware: hvc and smc. */
  datatype Conduit = Hvc | Smc

  /** One PSCI call as issued: conduit, function ID and three arguments. */
  datatype Call = Call(conduit: Conduit, fnid: bv32, arg0: u64, arg1: u64, arg2: u64)

  /** psci_cpu_on as written in both platform files: the hvc conduit,
      whatever conduit start-up selected. */
  function PowerOnAsWritten(selected: Option<Conduit>, target: u64, entry: u64, context: u64): (c: Call)
    ensures c.conduit == Hvc && c.fnid == FnId(AArch64, CpuOn)
    ensures c.arg0 == target && c.arg1 == entry && c.arg2 == context
  {
    Call(Hvc, FnId(AArch64, CpuOn), target, entry, context)
  }

  /** psci_cpu_on through the conduit selected at start-up; with none
      selected no call is made (the caller sees NOT_SUPPORTED). */
  function PowerOn(selected: Option<Conduit>, target: u64, entry: u64, context: u64): (c: Option<Call>)
    ensures c.Some? <==> selected.Some?
    ensures c.Some? ==> c.value.conduit == selected.value && c.value.fnid == FnId(AArch64, CpuOn)
    ensures c.Some? ==> c.value.arg0 == target && c.value.arg1 == entry && c.value.arg2 == context
  {
    match selected
    case None => None
    case Some(conduit) => Some(Call(conduit, FnId(AArch64, CpuOn), target, entry, context))
  }

  /** On a platform whose device tree selects smc, the call as written still
      traps through hvc; the corrected call uses smc. */
  lemma PowerOnIgnoresSelectedConduit(target: u64, entry: u64, context: u64)
    ensures PowerOnAsWritten(Some(Smc), target, entry, context).conduit == Hvc
    ensures PowerOn(Some(Smc), target, entry, context).value.conduit == Smc
  {
  }
}
