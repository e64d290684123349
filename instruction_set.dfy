/** The instruction-set tag of the ART runtime and the per-architecture
    constant tables read through its accessor functions
    (patches/misc/instruction_set.h).

    Every accessor of the header is a switch over the tag that aborts the
    process on the `None` sentinel; here that abort is the precondition
    `IsValidInstructionSet(isa)`, so a call that would abort cannot be
    written. */
module InstructionSets {

  /** The ten values of the enum, in declaration order; `None` is the
      "no instruction set" sentinel. */
  datatype InstructionSet =
    | None
    | Arm
    | Arm64
    | Thumb2
    | Riscv64
    | X86
    | X86_64
    | LoongArch64
    | PowerPC
    | S390X

  /** The last enumerator, aliased by the enum itself. */
  const Last: InstructionSet := S390X

  /** The two pointer widths of base/pointer_size.h, with their size in bytes. */
  datatype PointerSize = K32 | K64 {
    function Bytes(): nat {
      if K32? then 4 else 8
    }
  }

  // Pointer sizes per architecture.
  const ArmPointerSize: PointerSize := K32
  const Arm64PointerSize: PointerSize := K64
  const Riscv64PointerSize: PointerSize := K64
  const X86PointerSize: PointerSize := K32
  const X86_64PointerSize: PointerSize := K64
  const LoongArch64PointerSize: PointerSize := K64
  const PowerPCPointerSize: PointerSize := K64
  const S390XPointerSize: PointerSize := K64

  // Code alignment: alignment of the first instruction of a subroutine.
  // There is no separate x86-64 constant: X86_64 shares the x86 one.
  const ArmCodeAlignment: nat := 8
  const Arm64CodeAlignment: nat := 16
  const Riscv64CodeAlignment: nat := 16
  const X86CodeAlignment: nat := 16
  const LoongArch64CodeAlignment: nat := 16
  const PowerPCCodeAlignment: nat := 16
  const S390XCodeAlignment: nat := 16

  // Instruction alignment: alignment of every instruction.
  // There is no separate Arm constant: Arm shares the Thumb-2 one.
  const Thumb2InstructionAlignment: nat := 2
  const Arm64InstructionAlignment: nat := 4
  const Riscv64InstructionAlignment: nat := 2
  const X86InstructionAlignment: nat := 1
  const X86_64InstructionAlignment: nat := 1
  const LoongArch64InstructionAlignment: nat := 4
  const PowerPCInstructionAlignment: nat := 4
  const S390XInstructionAlignment: nat := 2

  /** Every tag but the sentinel names a supported architecture. */
  predicate IsValidInstructionSet(isa: InstructionSet) {
    isa != None
  }

  /** The reference classification of the header: Arm, Thumb2 and X86 are
      the 32-bit instruction sets, every other valid tag is 64-bit. */
  function Is64BitInstructionSet(isa: InstructionSet): bool
    requires IsValidInstructionSet(isa)
  {
    match isa
    case Arm | Thumb2 | X86 => false
    case Arm64 | Riscv64 | X86_64 | LoongArch64 | PowerPC | S390X => true
  }

  /** The per-architecture pointer-size table; it agrees with the
      64-bit classification. */
  function GetInstructionSetPointerSize(isa: InstructionSet): (p: PointerSize)
    requires IsValidInstructionSet(isa)
    ensures p == K64 <==> Is64BitInstructionSet(isa)
  {
    match isa
    case Arm | Thumb2 => ArmPointerSize
    case Arm64 => Arm64PointerSize
    case Riscv64 => Riscv64PointerSize
    case X86 => X86PointerSize
    case X86_64 => X86_64PointerSize
    case LoongArch64 => LoongArch64PointerSize
    case PowerPC => PowerPCPointerSize
    case S390X => S390XPointerSize
  }

  /** Pointer size derived from the bitness alone; it is the table's
      pointer size for every valid tag. */
  function InstructionSetPointerSize(isa: InstructionSet): (p: PointerSize)
    requires IsValidInstructionSet(isa)
    ensures p == GetInstructionSetPointerSize(isa)
  {
    if Is64BitInstructionSet(isa) then K64 else K32
  }

  /** Alignment every instruction must have: at least one byte. */
  function GetInstructionSetInstructionAlignment(isa: InstructionSet): (n: nat)
    requires IsValidInstructionSet(isa)
    ensures n >= 1
  {
    match isa
    case Arm | Thumb2 => Thumb2InstructionAlignment
    case Arm64 => Arm64InstructionAlignment
    case Riscv64 => Riscv64InstructionAlignment
    case X86 => X86InstructionAlignment
    case X86_64 => X86_64InstructionAlignment
    case LoongArch64 => LoongArch64InstructionAlignment
    case PowerPC => PowerPCInstructionAlignment
    case S390X => S390XInstructionAlignment
  }

  /** Alignment of a subroutine's first instruction: never below the
      instruction alignment, and a multiple of it, so a code-aligned
      address is instruction-aligned. */
  function GetInstructionSetCodeAlignment(isa: InstructionSet): (n: nat)
    requires IsValidInstructionSet(isa)
    ensures GetInstructionSetInstructionAlignment(isa) <= n
    ensures n % GetInstructionSetInstructionAlignment(isa) == 0
  {
    match isa
    case Arm | Thumb2 => ArmCodeAlignment
    case Arm64 => Arm64CodeAlignment
    case Riscv64 => Riscv64CodeAlignment
    case X86 | X86_64 => X86CodeAlignment
    case LoongArch64 => LoongArch64CodeAlignment
    case PowerPC => PowerPCCodeAlignment
    case S390X => S390XCodeAlignment
  }

  /** Difference between a code address and a usable PC: nonzero only for
      Thumb2 (where it sets the mode bit), and always below the instruction
      alignment, so it only touches bits that an aligned address leaves
      clear. */
  function GetInstructionSetEntryPointAdjustment(isa: InstructionSet): (n: nat)
    requires IsValidInstructionSet(isa)
    ensures n != 0 <==> isa == Thumb2
    ensures n < GetInstructionSetInstructionAlignment(isa)
  {
    match isa
    case Arm | Arm64 | Riscv64 | X86 | X86_64 | LoongArch64 | PowerPC | S390X => 0
    case Thumb2 => 1
  }

  /** Size of a general-purpose-register spill slot: one pointer. */
  function GetBytesPerGprSpillLocation(isa: InstructionSet): (n: nat)
    requires IsValidInstructionSet(isa)
    ensures n == GetInstructionSetPointerSize(isa).Bytes()
  {
    match isa
    case Arm | Thumb2 => 4
    case Arm64 => 8
    case Riscv64 => 8
    case X86 => 4
    case X86_64 => 8
    case LoongArch64 => 8
    case PowerPC => 8
    case S390X => 8
  }

  /** Size of a floating-point-register spill slot: never smaller than a
      general-purpose slot, and larger only on X86. */
  function GetBytesPerFprSpillLocation(isa: InstructionSet): (n: nat)
    requires IsValidInstructionSet(isa)
    ensures n >= GetBytesPerGprSpillLocation(isa)
    ensures n != GetBytesPerGprSpillLocation(isa) <==> isa == X86
  {
    match isa
    case Arm | Thumb2 => 4
    case Arm64 => 8
    case Riscv64 => 8
    case X86 => 8
    case X86_64 => 8
    case LoongArch64 => 8
    case PowerPC => 8
    case S390X => 8
  }

  /** The build-time values of the eight stack-overflow-gap macros, one
      per architecture (Thumb2 shares Arm's). */
  datatype StackOverflowGaps = StackOverflowGaps(
    arm: nat,
    arm64: nat,
    riscv64: nat,
    x86: nat,
    x86_64: nat,
    loongArch64: nat,
    powerPC: nat,
    s390x: nat)

  /** Bytes reserved below the stack limit to detect overflow; it is one
      of the configured gaps. */
  function GetStackOverflowReservedBytes(gaps: StackOverflowGaps, isa: InstructionSet): (n: nat)
    requires IsValidInstructionSet(isa)
    ensures n in {gaps.arm, gaps.arm64, gaps.riscv64, gaps.x86, gaps.x86_64,
                  gaps.loongArch64, gaps.powerPC, gaps.s390x}
  {
    match isa
    case Arm | Thumb2 => gaps.arm
    case Arm64 => gaps.arm64
    case Riscv64 => gaps.riscv64
    case X86 => gaps.x86
    case X86_64 => gaps.x86_64
    case LoongArch64 => gaps.loongArch64
    case PowerPC => gaps.powerPC
    case S390X => gaps.s390x
  }

  /** The 32-bit instruction sets are exactly Arm, Thumb2 and X86. */
  lemma ThirtyTwoBitInstructionSets(isa: InstructionSet)
    requires IsValidInstructionSet(isa)
    ensures !Is64BitInstructionSet(isa) <==> isa in {Arm, Thumb2, X86}
    ensures GetInstructionSetPointerSize(isa) == K32 <==> isa in {Arm, Thumb2, X86}
  {
  }

  /** Arm and Thumb2 describe the same machine in every respect but the
      entry-point adjustment. */
  lemma ArmAndThumb2Agree(gaps: StackOverflowGaps)
    ensures GetInstructionSetPointerSize(Arm) == GetInstructionSetPointerSize(Thumb2)
    ensures GetInstructionSetInstructionAlignment(Arm) == GetInstructionSetInstructionAlignment(Thumb2)
    ensures GetInstructionSetCodeAlignment(Arm) == GetInstructionSetCodeAlignment(Thumb2)
    ensures Is64BitInstructionSet(Arm) == Is64BitInstructionSet(Thumb2)
    ensures GetBytesPerGprSpillLocation(Arm) == GetBytesPerGprSpillLocation(Thumb2)
    ensures GetBytesPerFprSpillLocation(Arm) == GetBytesPerFprSpillLocation(Thumb2)
    ensures GetStackOverflowReservedBytes(gaps, Arm) == GetStackOverflowReservedBytes(gaps, Thumb2)
    ensures GetInstructionSetEntryPointAdjustment(Arm) != GetInstructionSetEntryPointAdjustment(Thumb2)
  {
  }

  /** 2 to the power k. */
  function Pow2(k: nat): (n: nat)
    ensures n >= 1
  {
    if k == 0 then 1 else 2 * Pow2(k - 1)
  }

  ghost predicate IsPowerOfTwo(n: nat) {
    exists k: nat :: Pow2(k) == n
  }

  /** Both alignments of every valid instruction set are powers of two. */
  lemma AlignmentsArePowersOfTwo(isa: InstructionSet)
    requires IsValidInstructionSet(isa)
    ensures IsPowerOfTwo(GetInstructionSetInstructionAlignment(isa))
    ensures IsPowerOfTwo(GetInstructionSetCodeAlignment(isa))
  {
    assert Pow2(0) == 1;
    assert Pow2(1) == 2;
    assert Pow2(2) == 4;
    assert Pow2(3) == 8;
    assert Pow2(4) == 16;
  }

  /** An address aligned to 8 or 16 bytes is aligned to every smaller
      power of two; one past an 8-aligned address is odd. These two
      helpers and the case split in EntryPointAdjustmentIsReversible keep
      that lemma's modular arithmetic within the solver's budget on every
      random seed; without them it runs out of resource on some seeds. */
  lemma AlignedTo8(code: nat)
    requires code % 8 == 0
    ensures code % 2 == 0 && (code + 1) % 2 == 1
  {
    var half := 4 * (code / 8);
    assert code == 2 * half;
    assert code / 2 == half && (code + 1) / 2 == half;
  }

  lemma AlignedTo16(code: nat)
    requires code % 16 == 0
    ensures code % 4 == 0 && code % 2 == 0
  {
    var quarter := 4 * (code / 16);
    assert code == 4 * quarter && code == 2 * (2 * quarter);
    assert code / 4 == quarter && code / 2 == 2 * quarter;
  }

  /** Adding the entry-point adjustment to a code-aligned address gives a
      PC whose bits below the instruction alignment hold exactly the
      adjustment (the Thumb mode bit for Thumb2), and clearing those bits
      gives the code address back. */
  lemma EntryPointAdjustmentIsReversible(isa: InstructionSet, code: nat)
    requires IsValidInstructionSet(isa)
    requires code % GetInstructionSetCodeAlignment(isa) == 0
    ensures var pc := code + GetInstructionSetEntryPointAdjustment(isa);
            var align := GetInstructionSetInstructionAlignment(isa);
            pc % align == GetInstructionSetEntryPointAdjustment(isa) && pc - pc % align == code
  {
    match isa
    case Arm | Thumb2 => AlignedTo8(code);
    case Arm64 | LoongArch64 | PowerPC | Riscv64 | S390X => AlignedTo16(code);
    case X86 | X86_64 =>
  }
}
