/** The string codec of patches/misc/instruction_set.cc: the canonical
    name of every tag, and the parser back from names to tags. */
module IsaNames {
  import opened InstructionSets

  /** Parses a canonical name. Only the eight names below are recognised;
      every other string (including "none") parses to the sentinel, and
      Thumb2 has no name of its own, so it is never produced. */
  function GetInstructionSetFromString(name: string): (isa: InstructionSet)
    ensures isa != Thumb2
    ensures name == "none" ==> isa == None
  {
    if name == "arm" then Arm
    else if name == "arm64" then Arm64
    else if name == "riscv64" then Riscv64
    else if name == "x86" then X86
    else if name == "x86_64" then X86_64
    else if name == "loong64" then LoongArch64
    else if name == "ppc64le" then PowerPC
    else if name == "s390x" then S390X
    else None
  }

  /** The tag every tag turns into after a trip through its name: itself,
      except that Thumb2 becomes Arm. */
  function NameClass(isa: InstructionSet): InstructionSet {
    if isa == Thumb2 then Arm else isa
  }

  /** The canonical name of a tag; total over all ten tags. Parsing it back
      yields the tag again, except that Thumb2 (which shares Arm's name)
      comes back as Arm. */
  function GetInstructionSetString(isa: InstructionSet): (name: string)
    ensures GetInstructionSetFromString(name) == NameClass(isa)
  {
    match isa
    case Arm | Thumb2 => "arm"
    case Arm64 => "arm64"
    case Riscv64 => "riscv64"
    case X86 => "x86"
    case X86_64 => "x86_64"
    case LoongArch64 => "loong64"
    case PowerPC => "ppc64le"
    case S390X => "s390x"
    case None => "none"
  }

  /** Round trip from tags: exact for every tag but Thumb2. */
  lemma NameRoundTrip(isa: InstructionSet)
    ensures isa != Thumb2 ==> GetInstructionSetFromString(GetInstructionSetString(isa)) == isa
    ensures GetInstructionSetFromString(GetInstructionSetString(Thumb2)) == Arm
  {
  }

  /** Round trip from names: a recognised name is the canonical name of the
      tag it parses to, so two different recognised names never parse to
      the same tag. */
  lemma ParsedNamesAreCanonical(name: string)
    ensures GetInstructionSetFromString(name) != None ==>
              GetInstructionSetString(GetInstructionSetFromString(name)) == name
  {
  }

  /** Two tags share a name exactly when they are equal or are Arm and
      Thumb2. */
  lemma NamesCollideOnlyForArm(a: InstructionSet, b: InstructionSet)
    ensures GetInstructionSetString(a) == GetInstructionSetString(b) <==> NameClass(a) == NameClass(b)
  {
  }

  /** The names the string codec is specified with. */
  lemma KnownNames()
    ensures GetInstructionSetString(Arm) == "arm" && GetInstructionSetString(Thumb2) == "arm"
    ensures GetInstructionSetString(None) == "none"
    ensures GetInstructionSetString(LoongArch64) == "loong64"
    ensures GetInstructionSetString(PowerPC) == "ppc64le"
    ensures GetInstructionSetFromString("random-string") == None
  {
  }
}
