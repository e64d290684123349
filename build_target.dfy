/** The two choices patches/misc/instruction_set.h makes with the
    preprocessor: the runtime instruction set of the build and the physical
    representation of the two-word return value. The compiler's
    target-architecture macro is the parameter. */
module BuildTargets {
  import opened InstructionSets
  import opened IsaNames

  /** Which target-architecture macro the compiler defines. */
  datatype Target =
    | ArmTarget        // __arm__
    | Aarch64Target    // __aarch64__
    | RiscvTarget      // __riscv
    | I386Target       // __i386__
    | X86_64Target     // __x86_64__
    | LoongArchTarget  // __loongarch__
    | PowerPCTarget    // __powerpc__
    | S390XTarget      // __s390x__
    | OtherTarget      // none of the above

  /** The runtime instruction set fixed at build time. It is never Thumb2,
      so its name parses back to itself. */
  function RuntimeIsa(target: Target): (isa: InstructionSet)
    ensures isa != Thumb2
    ensures isa == None <==> target == OtherTarget
  {
    match target
    case ArmTarget => Arm
    case Aarch64Target => Arm64
    case RiscvTarget => Riscv64
    case I386Target => X86
    case X86_64Target => X86_64
    case LoongArchTarget => LoongArch64
    case PowerPCTarget => PowerPC
    case S390XTarget => S390X
    case OtherTarget => None
  }

  /** The representation of the two-word return value a build uses;
      `Unsupported` is the build error for an unknown target. */
  datatype TwoWordRepresentation = PackedScalar | WordPairStruct | Unsupported

  /** Packs into one 64-bit scalar exactly on the 32-bit runtime
      instruction sets, uses the two-field struct on the 64-bit ones, and
      refuses to build where there is no runtime instruction set. */
  function TwoWordRepresentationFor(target: Target): (r: TwoWordRepresentation)
    ensures r == Unsupported <==> !IsValidInstructionSet(RuntimeIsa(target))
    ensures IsValidInstructionSet(RuntimeIsa(target)) ==>
              (r == PackedScalar <==> !Is64BitInstructionSet(RuntimeIsa(target)))
  {
    match target
    case I386Target | ArmTarget => PackedScalar
    case X86_64Target | Aarch64Target | RiscvTarget | LoongArchTarget | PowerPCTarget | S390XTarget =>
      WordPairStruct
    case OtherTarget => Unsupported
  }

  /** The runtime instruction set survives a trip through its name. */
  lemma RuntimeIsaNameRoundTrip(target: Target)
    ensures GetInstructionSetFromString(GetInstructionSetString(RuntimeIsa(target))) == RuntimeIsa(target)
  {
  }

  /** On a packed build the pointer, and so each packed word, is 32 bits;
      on a struct build it is 64 bits. */
  lemma RepresentationMatchesPointerSize(target: Target)
    requires IsValidInstructionSet(RuntimeIsa(target))
    ensures TwoWordRepresentationFor(target) == PackedScalar <==>
              GetInstructionSetPointerSize(RuntimeIsa(target)) == K32
  {
  }
}
