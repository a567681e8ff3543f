/** One instrumentation point: the immutable record that the plugin keeps
    for every function it intercepts, and the equality it deduplicates by. */
module InstrumentationRecord {

  /** The source's `uint64_t` (program-counter offsets). */
  newtype u64 = x: int | 0 <= x < 0x1_0000_0000_0000_0000

  /** The source's `unsigned` (parameter counts), 32 bits wide. */
  newtype u32 = x: int | 0 <= x < 0x1_0000_0000

  /** The closed calling-convention enum; MAX_CONV is the enum's sentinel
      value and is a legal value of the type, as in the source. */
  datatype CallingConvention = STDCALL | CDECL | MAX_CONV

  /** Every field of a datatype value is fixed for the value's lifetime,
      which is what the source's `const` members guarantee. */
  datatype Instrumentation = Instrumentation(
    moduleName: string,
    pc: u64,
    paramCount: u32,
    instrumentationName: string,
    convention: CallingConvention,
    fork: bool)

  /** The record's constructor: each argument lands in its own field. */
  function New(moduleName: string, pc: u64, pCount: u32, name: string,
               cc: CallingConvention, fork: bool): (r: Instrumentation)
    ensures r.moduleName == moduleName && r.pc == pc && r.paramCount == pCount
    ensures r.instrumentationName == name && r.convention == cc && r.fork == fork
  {
    Instrumentation(moduleName, pc, pCount, name, cc, fork)
  }

  /** The record's `operator==`: five of the six fields are compared, the
      fork flag is not. Equivalently, the two records are identical once the
      fork flag is disregarded. */
  predicate Equal(a: Instrumentation, b: Instrumentation): (r: bool)
    ensures r <==> a.(fork := b.fork) == b
  {
    && a.moduleName == b.moduleName
    && a.pc == b.pc
    && a.paramCount == b.paramCount
    && a.instrumentationName == b.instrumentationName
    && a.convention == b.convention
  }

  /** Records that differ only in their fork flag are equal. */
  lemma EqualIgnoresFork(a: Instrumentation, fork: bool)
    ensures Equal(a, a.(fork := fork)) && Equal(a.(fork := fork), a)
  {
  }

  /** Equal records differ at most in the fork flag: the five compared
      fields determine a record up to that flag. */
  lemma EqualDiffersOnlyInFork(a: Instrumentation, b: Instrumentation)
    requires Equal(a, b)
    ensures a == b || (a.fork != b.fork && a.(fork := b.fork) == b)
  {
  }

  /** A difference in any one compared field makes two records unequal. */
  lemma ComparedFieldsDistinguish(a: Instrumentation, b: Instrumentation)
    ensures a.moduleName != b.moduleName ==> !Equal(a, b)
    ensures a.pc != b.pc ==> !Equal(a, b)
    ensures a.paramCount != b.paramCount ==> !Equal(a, b)
    ensures a.instrumentationName != b.instrumentationName ==> !Equal(a, b)
    ensures a.convention != b.convention ==> !Equal(a, b)
  {
  }

  /** `operator==` is an equivalence relation, so it is a sound key for
      deduplicating the registry. */
  lemma EqualIsEquivalence(a: Instrumentation, b: Instrumentation, c: Instrumentation)
    ensures Equal(a, a)
    ensures Equal(a, b) <==> Equal(b, a)
    ensures Equal(a, b) && Equal(b, c) ==> Equal(a, c)
  {
  }
}
