/** The supported-instruction-set resolver of
    patches/misc/instruction_set.cc. The runtime instruction set fixed at
    build time and the value of the "ro.zygote" system property are its
    inputs; it returns the instruction sets the device runs, preferred one
    first, or an error message. */
module SupportedIsas {
  import opened InstructionSets
  import opened IsaNames

  /** The list the resolver returns, or the message it writes on failure
      (the source then returns an empty list). */
  datatype Result = Supported(isas: seq<InstructionSet>) | Failed(message: string)

  const UnableToGetZygoteKinds: string := "Unable to get Zygote kinds"
  const UnknownZygoteKindsPrefix: string := "Unknown Zygote kinds '"
  const UnknownRuntimeIsaPrefix: string := "Unknown runtime ISA '"

  function UnknownZygoteKinds(zygoteKinds: string): string {
    UnknownZygoteKindsPrefix + zygoteKinds + "'"
  }

  function UnknownRuntimeIsa(runtimeIsa: InstructionSet): string {
    UnknownRuntimeIsaPrefix + GetInstructionSetString(runtimeIsa) + "'"
  }

  /** The architecture families; Arm and X86 have a 32-bit and a 64-bit
      member, the others only a 64-bit one. */
  datatype Family = ArmFamily | X86Family | Riscv64Family | LoongArch64Family | PowerPCFamily | S390XFamily {
    predicate IsDualWidth() {
      ArmFamily? || X86Family?
    }
  }

  function FamilyOf(isa: InstructionSet): Family
    requires IsValidInstructionSet(isa)
  {
    match isa
    case Arm | Arm64 | Thumb2 => ArmFamily
    case X86 | X86_64 => X86Family
    case Riscv64 => Riscv64Family
    case LoongArch64 => LoongArch64Family
    case PowerPC => PowerPCFamily
    case S390X => S390XFamily
  }

  /** Property values that announce a 64-bit zygote, and a 32-bit one. */
  predicate HasZygote64(zygoteKinds: string) {
    zygoteKinds == "zygote64_32" || zygoteKinds == "zygote32_64" || zygoteKinds == "zygote64"
  }

  predicate HasZygote32(zygoteKinds: string) {
    zygoteKinds == "zygote64_32" || zygoteKinds == "zygote32_64" || zygoteKinds == "zygote32"
  }

  predicate Distinct(isas: seq<InstructionSet>) {
    forall i, j | 0 <= i < j < |isas| :: isas[i] != isas[j]
  }

  /** `message` contains `text` somewhere. */
  ghost predicate Mentions(message: string, text: string) {
    exists i | 0 <= i <= |message| :: text <= message[i..]
  }

  /** Resolves the supported instruction sets.
      - It fails exactly when the property is empty, the runtime
        instruction set is Thumb2 or None, or the runtime belongs to a
        dual-width family and the property announces neither a 64-bit nor a
        32-bit zygote; an empty property always gives the same message.
      - A successful list holds one or two distinct valid instruction sets,
        never Thumb2, all of the runtime's family, with a 64-bit one first
        when there are two.
      - For a dual-width family the list starts with a 64-bit instruction
        set exactly when a 64-bit zygote is announced, and ends with a
        32-bit one exactly when a 32-bit zygote is (so, with the ordering
        above, it holds a 64-bit and a 32-bit member exactly when those
        zygotes are announced); a single-width family gives the runtime
        instruction set alone, whatever the property says. */
  function GetSupportedInstructionSets(runtimeIsa: InstructionSet, zygoteKinds: string): (r: Result)
    ensures zygoteKinds == "" ==> r == Failed(UnableToGetZygoteKinds)
    ensures r.Supported? <==>
              && zygoteKinds != ""
              && runtimeIsa != None
              && runtimeIsa != Thumb2
              && (FamilyOf(runtimeIsa).IsDualWidth() ==> HasZygote64(zygoteKinds) || HasZygote32(zygoteKinds))
    ensures r.Supported? ==>
              && 1 <= |r.isas| <= 2
              && Distinct(r.isas)
              && (forall i | 0 <= i < |r.isas| ::
                    && IsValidInstructionSet(r.isas[i])
                    && r.isas[i] != Thumb2
                    && FamilyOf(r.isas[i]) == FamilyOf(runtimeIsa))
              && (|r.isas| == 2 ==> Is64BitInstructionSet(r.isas[0]) && !Is64BitInstructionSet(r.isas[1]))
    ensures r.Supported? && FamilyOf(runtimeIsa).IsDualWidth() ==>
              && (Is64BitInstructionSet(r.isas[0]) <==> HasZygote64(zygoteKinds))
              && (!Is64BitInstructionSet(r.isas[|r.isas| - 1]) <==> HasZygote32(zygoteKinds))
    ensures r.Supported? && !FamilyOf(runtimeIsa).IsDualWidth() ==> r.isas == [runtimeIsa]
  {
    if zygoteKinds == "" then
      Failed(UnableToGetZygoteKinds)
    else
      match runtimeIsa
      case Arm | Arm64 =>
        if zygoteKinds == "zygote64_32" || zygoteKinds == "zygote32_64" then Supported([Arm64, Arm])
        else if zygoteKinds == "zygote64" then Supported([Arm64])
        else if zygoteKinds == "zygote32" then Supported([Arm])
        else Failed(UnknownZygoteKinds(zygoteKinds))
      case Riscv64 => Supported([Riscv64])
      case X86 | X86_64 =>
        if zygoteKinds == "zygote64_32" || zygoteKinds == "zygote32_64" then Supported([X86_64, X86])
        else if zygoteKinds == "zygote64" then Supported([X86_64])
        else if zygoteKinds == "zygote32" then Supported([X86])
        else Failed(UnknownZygoteKinds(zygoteKinds))
      case LoongArch64 => Supported([LoongArch64])
      case PowerPC => Supported([PowerPC])
      case S390X => Supported([S390X])
      case Thumb2 | None => Failed(UnknownRuntimeIsa(runtimeIsa))
  }

  /** Every failure message names its cause: the unrecognised property
      value, or the name of the unrecognised runtime instruction set. */
  lemma {:induction false} FailuresNameTheirCause(runtimeIsa: InstructionSet, zygoteKinds: string)
    requires zygoteKinds != ""
    requires GetSupportedInstructionSets(runtimeIsa, zygoteKinds).Failed?
    ensures var message := GetSupportedInstructionSets(runtimeIsa, zygoteKinds).message;
            if runtimeIsa == None || runtimeIsa == Thumb2
            then Mentions(message, GetInstructionSetString(runtimeIsa))
            else Mentions(message, zygoteKinds)
  {
    var message := GetSupportedInstructionSets(runtimeIsa, zygoteKinds).message;
    if runtimeIsa == None || runtimeIsa == Thumb2 {
      var name := GetInstructionSetString(runtimeIsa);
      assert message == UnknownRuntimeIsaPrefix + name + "'";
      assert name <= message[|UnknownRuntimeIsaPrefix|..];
    } else {
      assert message == UnknownZygoteKindsPrefix + zygoteKinds + "'";
      assert zygoteKinds <= message[|UnknownZygoteKindsPrefix|..];
    }
  }

  /** The two dual-zygote spellings are not told apart: "zygote32_64"
      also puts the 64-bit instruction set first. */
  lemma DualZygoteOrderIgnored(runtimeIsa: InstructionSet)
    ensures GetSupportedInstructionSets(runtimeIsa, "zygote32_64") ==
            GetSupportedInstructionSets(runtimeIsa, "zygote64_32")
  {
  }

  /** Worked cases of the resolver. */
  lemma ResolverExamples(zygoteKinds: string)
    requires zygoteKinds != ""
    ensures GetSupportedInstructionSets(Arm64, "zygote64_32") == Supported([Arm64, Arm])
    ensures GetSupportedInstructionSets(Arm, "zygote32_64") == Supported([Arm64, Arm])
    ensures GetSupportedInstructionSets(X86, "zygote32") == Supported([X86])
    ensures GetSupportedInstructionSets(X86_64, "zygote64") == Supported([X86_64])
    ensures GetSupportedInstructionSets(Riscv64, zygoteKinds) == Supported([Riscv64])
    ensures GetSupportedInstructionSets(Arm, "unknown_token") == Failed("Unknown Zygote kinds 'unknown_token'")
    ensures GetSupportedInstructionSets(None, zygoteKinds) == Failed("Unknown runtime ISA 'none'")
    ensures GetSupportedInstructionSets(Thumb2, zygoteKinds) == Failed("Unknown runtime ISA 'arm'")
  {
  }
}
