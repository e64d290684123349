# ART instruction-set description layer, in Dafny

This project models the instruction-set description layer of the Android
Runtime (ART) as patched in this repository (`patches/misc/instruction_set.h`
and `patches/misc/instruction_set.cc`). It proves properties of the model:

- **Tag.** `InstructionSet` covers the nine supported architectures and the
  `None` sentinel. The enumerators keep the source's names without the `k`
  prefix, so `kArm` becomes `Arm` and `kX86_64` becomes `X86_64`.
- **Per-architecture tables and accessors.** These are pointer size, code
  and instruction alignment, entry-point adjustment, 64-bit-ness,
  general-purpose and floating-point spill-slot sizes, and stack-overflow
  reserved bytes. In C++ the table accessors are switches that abort the
  process on `kNone`, and `InstructionSetPointerSize` is a conditional
  that aborts only through `Is64BitInstructionSet`. Here every such abort
  is the precondition `IsValidInstructionSet(isa)`.
- **The string codec.** `GetInstructionSetString` and
  `GetInstructionSetFromString`, with their round-trip laws. The only lossy
  case is `Thumb2`, whose name is `"arm"`.
- **The supported-instruction-set resolver.** `GetSupportedInstructionSets`
  takes two parameters: the build's runtime instruction set and the value
  of the `ro.zygote` property. It returns either a list or the error message
  the source writes to `error_msg`.
- **The two-word return encoding.** Both build variants are modelled side by
  side:
  - the packed `uint64_t` of 32-bit targets, as `bv64` with shifts and masks;
  - the `{lo, hi}` struct of 64-bit targets.

  A lemma shows that the two carry the same words and have the same failure
  test.
- **The preprocessor choices.** The runtime instruction set and the two-word
  representation both depend on the compiler's target macro, which is
  modelled as a `Target` datatype.
- **The frame-size static assertions.** The values of the
  `ART_STACK_OVERFLOW_GAP_*` and `ART_FRAME_SIZE_LIMIT` macros come from the
  build configuration, so they are parameters: a `StackOverflowGaps` record
  and a `limit`.

Files and modules:

| file | module | models |
|---|---|---|
| `instruction_set.dfy` | `InstructionSets` | the enum, constant tables and accessors of `instruction_set.h` |
| `isa_names.dfy` | `IsaNames` | the string codec of `instruction_set.cc` |
| `supported_isas.dfy` | `SupportedIsas` | the resolver of `instruction_set.cc` |
| `frame_size_limit.dfy` | `FrameSizeLimit` | the frame-size static assertions of `instruction_set.cc` |
| `two_word_return.dfy` | `TwoWordReturns` | both `TwoWordReturn` representations of `instruction_set.h` |
| `build_target.dfy` | `BuildTargets` | the `kRuntimeISA` and `TwoWordReturn` preprocessor selections |

Three behaviours of the code are easy to misread. The model follows the
code in each:

- The code returns `[kArm64, kArm]` (or `[kX86_64, kX86]`) for both
  `"zygote64_32"` and `"zygote32_64"`. It does not put the 32-bit
  instruction set first for `"zygote32_64"`.
- For the single-width families (RISC-V, LoongArch, PowerPC, S390X), any
  non-empty property value is accepted. An empty value is still a failure,
  because the empty check comes first.
- `GetTwoWordSuccessValue(hi, lo)` takes the high word, the code pointer,
  first. The low word, where failure is tested, is the second argument.

## Model

| member | source | states |
|---|---|---|
| `InstructionSets.IsValidInstructionSet` | patches/misc/instruction_set.h:137-154 | Holds exactly for the nine architecture tags, not for `None`. It has no contract of its own: it is the precondition every accessor takes in place of the source's abort on `kNone`. |
| `InstructionSets.Is64BitInstructionSet` | patches/misc/instruction_set.h:234-253 | Bitness of each valid tag. It has no contract of its own: `ThirtyTwoBitInstructionSets` and the `ensures` of `GetInstructionSetPointerSize` describe it. |
| `InstructionSets.GetInstructionSetPointerSize` | patches/misc/instruction_set.h:110-135 | For every valid tag, the pointer size is `K64` exactly when the tag is a 64-bit instruction set. |
| `InstructionSets.InstructionSetPointerSize` | patches/misc/instruction_set.h:255-257 | The pointer size derived from bitness equals the table's pointer size for every valid tag. |
| `InstructionSets.GetInstructionSetInstructionAlignment` | patches/misc/instruction_set.h:156-181 | Every valid tag has an instruction alignment of at least one byte. |
| `InstructionSets.GetInstructionSetCodeAlignment` | patches/misc/instruction_set.h:183-208 | Code alignment is never below instruction alignment and is a multiple of it. So a code-aligned address is instruction-aligned. |
| `InstructionSets.GetInstructionSetEntryPointAdjustment` | patches/misc/instruction_set.h:210-232 | The adjustment is nonzero exactly for Thumb2. It is always below the instruction alignment. |
| `InstructionSets.GetBytesPerGprSpillLocation` | patches/misc/instruction_set.h:259-284 | A GPR spill slot is one pointer wide: 4 bytes on 32-bit tags, 8 on 64-bit tags. |
| `InstructionSets.GetBytesPerFprSpillLocation` | patches/misc/instruction_set.h:286-311 | An FPR spill slot is at least as large as a GPR slot. The two differ only on X86. |
| `InstructionSets.GetStackOverflowReservedBytes` | patches/misc/instruction_set.h:325-371 | The reserved bytes of every valid tag are one of the eight configured gaps. |
| `InstructionSets.ThirtyTwoBitInstructionSets` | patches/misc/instruction_set.h:234-253 | The 32-bit tags, and the tags with a 32-bit pointer, are exactly Arm, Thumb2 and X86. |
| `InstructionSets.ArmAndThumb2Agree` | patches/misc/instruction_set.h:110-371 | Arm and Thumb2 agree on pointer size, both alignments, bitness, both spill sizes and reserved stack bytes. They differ in entry-point adjustment. |
| `InstructionSets.AlignmentsArePowersOfTwo` | patches/misc/instruction_set.h:77-100 | The instruction alignment and code alignment of every valid tag are powers of two. |
| `InstructionSets.EntryPointAdjustmentIsReversible` | patches/misc/instruction_set.h:210-211 | Take a code-aligned address and add the adjustment to get a PC. The PC's bits below the instruction alignment equal the adjustment, so Thumb2 sets the low bit. Clearing those bits gives the code address back. |
| `IsaNames.GetInstructionSetFromString` | patches/misc/instruction_set.cc:72-94 | Parsing never yields Thumb2, and `"none"` parses to `None`. |
| `IsaNames.GetInstructionSetString` | patches/misc/instruction_set.cc:46-70 | Total over all ten tags. Parsing the name gives back the tag, except that Thumb2 gives Arm. |
| `IsaNames.NameRoundTrip` | patches/misc/instruction_set.cc:46-94 | `FromString(ToString(isa)) == isa` for every tag except Thumb2, which maps to Arm. |
| `IsaNames.ParsedNamesAreCanonical` | patches/misc/instruction_set.cc:72-94 | Every name that parses to a tag other than `None` is that tag's canonical name. So the parser is injective on the names it recognises. |
| `IsaNames.NamesCollideOnlyForArm` | patches/misc/instruction_set.cc:46-67 | Two tags have the same name exactly when they are equal or are Arm and Thumb2. |
| `IsaNames.KnownNames` | patches/misc/instruction_set_test.cc:25-47 | Arm and Thumb2 are named `"arm"`, None `"none"`, LoongArch64 `"loong64"` and PowerPC `"ppc64le"`. `"random-string"` parses to `None`. |
| `FrameSizeLimit.FrameSizeLimitFits` | patches/misc/instruction_set.cc:150-164 | The eight static assertions, one per architecture's reserved-bytes gap. It has no contract of its own: `FrameSizeLimitFitsEveryIsa` characterises it. |
| `FrameSizeLimit.FrameSizeLimitFitsEveryIsa` | patches/misc/instruction_set.cc:145-164 | The eight static assertions hold exactly when every valid tag reserves strictly more stack bytes than the frame-size limit. |
| `TwoWordReturns.GetTwoWordFailureValuePacked` | patches/misc/instruction_set.h:399-402 | The packed failure value has both halves zero, so its low half is zero. |
| `TwoWordReturns.GetTwoWordSuccessValuePacked` | patches/misc/instruction_set.h:404-410 | Unpacking the packed success value gives `lo` in the low 32 bits and `hi` in the high 32 bits. |
| `TwoWordReturns.PackedIsInjective` | patches/misc/instruction_set.h:404-410 | Two packed success values are equal exactly when both word pairs are equal. |
| `TwoWordReturns.GetTwoWordFailureValuePair` | patches/misc/instruction_set.h:422-427 | The struct failure value has a zero `lo` field. Nothing is promised about `hi`. |
| `TwoWordReturns.GetTwoWordSuccessValuePair` | patches/misc/instruction_set.h:429-435 | The struct success value stores `lo` in `.lo` and `hi` in `.hi`, though `hi` is the first argument. It reads as failure exactly when `lo` is zero. |
| `TwoWordReturns.RepresentationsAgree` | patches/misc/instruction_set.h:383-389 | For 32-bit words, both representations decode to the same two words and give the same failure test. Both failure values read as failure. |
| `BuildTargets.RuntimeIsa` | patches/misc/instruction_set.h:44-62 | The runtime tag is never Thumb2. It is `None` exactly when the target is not one of the eight known architectures. |
| `BuildTargets.TwoWordRepresentationFor` | patches/misc/instruction_set.h:396-438 | The build is refused exactly when there is no runtime tag. Otherwise the scalar is packed exactly when the runtime tag is 32-bit. |
| `BuildTargets.RuntimeIsaNameRoundTrip` | patches/misc/instruction_set_test.cc:66-68 | The runtime tag of every build survives a trip through its name. |
| `BuildTargets.RepresentationMatchesPointerSize` | patches/misc/instruction_set.h:376-381 | A build uses the packed scalar exactly when its runtime pointer size is 32 bits. |
| `SupportedIsas.GetSupportedInstructionSets` | patches/misc/instruction_set.cc:96-141 | Fails exactly when: the property is empty (fixed message); or the runtime is Thumb2 or None; or the runtime is Arm/X86 and the property is not a zygote token. On success: one or two distinct valid tags, no Thumb2, all in the runtime's family, a 64-bit tag first when there are two. For Arm/X86 the list starts 64-bit exactly when a 64-bit zygote is announced and ends 32-bit exactly when a 32-bit zygote is. Other families give exactly the runtime tag. |
| `SupportedIsas.FailuresNameTheirCause` | patches/misc/instruction_set.cc:112-139 | For a non-empty property, the failure message contains the unrecognised property text, or for a Thumb2/None runtime the runtime tag's name. |
| `SupportedIsas.DualZygoteOrderIgnored` | patches/misc/instruction_set.cc:106-107 | `"zygote32_64"` gives the same result as `"zygote64_32"` for every runtime tag, so the 64-bit tag comes first. |
| `SupportedIsas.ResolverExamples` | patches/misc/instruction_set.cc:96-141 | Concrete cases: Arm64 with `"zygote64_32"` and Arm with `"zygote32_64"` give `[Arm64, Arm]`. X86 with `"zygote32"` gives `[X86]`. Riscv64 with any non-empty value gives `[Riscv64]`. Arm with `"unknown_token"` fails naming it. None and Thumb2 fail naming `"none"` and `"arm"`. |

## Left out

- Fatal aborts are not behaviour here. `InstructionSetAbort`,
  `GetStackOverflowReservedBytesFailure`, `LOG(FATAL)` and `UNREACHABLE`
  terminate the process. They are modelled as the precondition
  `IsValidInstructionSet(isa)` on every accessor.
- Enum values outside the ten enumerators cannot be written in Dafny. The
  "Unknown ISA" paths and the trailing `return false` of
  `IsValidInstructionSet` are therefore not modelled.
- `CHECK(isa_str != nullptr)` is not modelled, because a Dafny string is
  never null.
- The property read `android::base::GetProperty("ro.zygote", {})` is an
  external call. Its value is the `zygoteKinds` parameter of the resolver.
- `StringPrintf` formatting is modelled as plain string concatenation of the
  same literal text.
- `kRuntimeISA` is a parameter of the resolver. Its selection from the
  target macros is modelled separately in `BuildTargets`.
- `base/pointer_size.h` is not part of this model. `PointerSize` is a
  two-constructor datatype, and its byte sizes are taken as 4 and 8.
- `operator<<` for `InstructionSet` is declared in the header but defined
  elsewhere, so it is not modelled.
- The numeric values of the `ART_STACK_OVERFLOW_GAP_*` and
  `ART_FRAME_SIZE_LIMIT` macros are not in the source, so they are
  parameters.
- The integer ordinals of the enumerators are not modelled. Only the `kLast`
  alias is kept, as `Last`.
- `kArm64DefaultSVEVectorLength` is not modelled, because no modelled code
  uses it.
- The garbage-collector safety note on the two-word return is not modelled.
  It concerns concurrent object movement.
- TwoWordReturns.GetTwoWordSuccessValuePacked: it is not proved to equal `hi * 2^32 + lo` as
  an integer. Its contract states the same thing bit by bit, through the low
  and high 32-bit halves.
- The uninitialised `hi` field of the C++ struct failure value is the
  `leftover` parameter of `GetTwoWordFailureValuePair`. Nothing is stated
  about it, as the source promises nothing.
- The `sizeof(uint32_t) == sizeof(uintptr_t)` static assertion of the packed
  variant is not modelled as a check. Instead, the packed variant's words
  are given the type `bv32`.
