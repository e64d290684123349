/** The build-time check of patches/misc/instruction_set.cc that the
    stack-overflow gap of every architecture exceeds the largest frame the
    compiler may emit. The macro values come from the build configuration,
    so the limit and the gaps are parameters here. */
module FrameSizeLimit {
  import opened InstructionSets

  /** The eight static assertions: the build only succeeds when each
      architecture's gap is strictly above the frame-size limit. */
  predicate FrameSizeLimitFits(limit: nat, gaps: StackOverflowGaps) {
    && limit < gaps.arm
    && limit < gaps.arm64
    && limit < gaps.riscv64
    && limit < gaps.x86
    && limit < gaps.x86_64
    && limit < gaps.loongArch64
    && limit < gaps.powerPC
    && limit < gaps.s390x
  }

  /** The assertions hold exactly when every valid instruction set reserves
      more bytes than the limit, so one frame of the largest size cannot
      jump over the guard region of any of them. */
  lemma {:induction false} FrameSizeLimitFitsEveryIsa(limit: nat, gaps: StackOverflowGaps)
    ensures FrameSizeLimitFits(limit, gaps) <==>
              forall isa | IsValidInstructionSet(isa) :: limit < GetStackOverflowReservedBytes(gaps, isa)
  {
    if forall isa | IsValidInstructionSet(isa) :: limit < GetStackOverflowReservedBytes(gaps, isa) {
      assert limit < GetStackOverflowReservedBytes(gaps, Arm);
      assert limit < GetStackOverflowReservedBytes(gaps, Arm64);
      assert limit < GetStackOverflowReservedBytes(gaps, Riscv64);
      assert limit < GetStackOverflowReservedBytes(gaps, X86);
      assert limit < GetStackOverflowReservedBytes(gaps, X86_64);
      assert limit < GetStackOverflowReservedBytes(gaps, LoongArch64);
      assert limit < GetStackOverflowReservedBytes(gaps, PowerPC);
      assert limit < GetStackOverflowReservedBytes(gaps, S390X);
    }
  }
}
