/** The two-word return value of patches/misc/instruction_set.h: a resolved
    method (the low word) and a code pointer (the high word) handed back in
    registers by the entry trampolines. 32-bit targets pack both words into
    one 64-bit scalar; 64-bit targets use a struct of two pointer-sized
    fields. Both representations are modelled side by side; which one a
    build uses is chosen in module BuildTargets. */
module TwoWordReturns {

  // ---- 32-bit targets: a single uint64_t ----

  /** Low 32 bits of the packed scalar: where the stubs look for the method. */
  function PackedLow(v: bv64): bv32 {
    (v & 0xFFFF_FFFF) as bv32
  }

  /** High 32 bits of the packed scalar: the code pointer. */
  function PackedHigh(v: bv64): bv32 {
    (v >> 32) as bv32
  }

  /** What the stubs test to detect failure: a zero low part. */
  predicate PackedIsFailure(v: bv64) {
    PackedLow(v) == 0
  }

  /** The packed failure value: both words null. */
  function GetTwoWordFailureValuePacked(): (v: bv64)
    ensures PackedLow(v) == 0 && PackedHigh(v) == 0
  {
    0
  }

  /** Packs `lo` into the low and `hi` into the high 32 bits (the high word
      is the first argument); unpacking gives both words back. */
  function GetTwoWordSuccessValuePacked(hi: bv32, lo: bv32): (v: bv64)
    ensures PackedLow(v) == lo && PackedHigh(v) == hi
  {
    ((hi as bv64) << 32) | (lo as bv64)
  }

  /** Packing loses nothing: different pairs give different scalars. */
  lemma PackedIsInjective(hi1: bv32, lo1: bv32, hi2: bv32, lo2: bv32)
    ensures GetTwoWordSuccessValuePacked(hi1, lo1) == GetTwoWordSuccessValuePacked(hi2, lo2) <==>
              hi1 == hi2 && lo1 == lo2
  {
  }

  // ---- 64-bit targets: struct { uintptr_t lo; uintptr_t hi; } ----

  /** The struct representation, fields in declaration order. */
  datatype WordPair = WordPair(lo: bv64, hi: bv64)

  /** What the stubs test to detect failure: a zero `lo` field. */
  predicate PairIsFailure(r: WordPair) {
    r.lo == 0
  }

  /** The struct failure value sets only `lo`. Its `hi` field is left
      uninitialised in the source; `leftover` stands for whatever the
      register or stack slot happened to hold, and nothing is promised
      about it. */
  function GetTwoWordFailureValuePair(leftover: bv64): (r: WordPair)
    ensures PairIsFailure(r)
  {
    WordPair(0, leftover)
  }

  /** Writes each argument into its own field; note the high word comes
      first in the argument list and second in the struct. */
  function GetTwoWordSuccessValuePair(hi: bv64, lo: bv64): (r: WordPair)
    ensures r.lo == lo && r.hi == hi
    ensures PairIsFailure(r) <==> lo == 0
  {
    WordPair(lo, hi)
  }

  // ---- The two representations agree ----

  /** Zero-extends a 32-bit word to a 64-bit one. */
  function Widen(w: bv32): bv64 {
    w as bv64
  }

  /** The two words of a packed scalar, laid out as the struct holds them. */
  function DecodePacked(v: bv64): WordPair {
    WordPair(Widen(PackedLow(v)), Widen(PackedHigh(v)))
  }

  /** For word values that fit a 32-bit register, both representations
      carry the same two words (the packed scalar decodes to the struct
      built from the same arguments), and the failure test (a zero low word)
      gives the same answer on both, so callers need not know which
      representation their build uses. */
  lemma RepresentationsAgree(hi: bv32, lo: bv32, leftover: bv64)
    ensures DecodePacked(GetTwoWordSuccessValuePacked(hi, lo)) ==
            GetTwoWordSuccessValuePair(Widen(hi), Widen(lo))
    ensures PackedIsFailure(GetTwoWordSuccessValuePacked(hi, lo)) ==
            PairIsFailure(GetTwoWordSuccessValuePair(Widen(hi), Widen(lo)))
    ensures PackedIsFailure(GetTwoWordFailureValuePacked())
    ensures PairIsFailure(GetTwoWordFailureValuePair(leftover))
  {
  }
}
