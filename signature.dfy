/**
 * The processor signature of leaf 1 EAX and the displayed family and model derived
 * from it. The layout is that of the Intel SDM, Volume 2A, CPUID leaf 01H, EAX
 * (the cpu_signature_t structure of state.h, which is not part of this model).
 */
module Signature {
  import opened Identity

  datatype Sig = Sig(
    stepping: bv32,   // bits 0-3
    model: bv32,      // bits 4-7
    family: bv32,     // bits 8-11
    procType: bv32,   // bits 12-13
    reserved1: bv32,  // bits 14-15
    extModel: bv32,   // bits 16-19
    extFamily: bv32,  // bits 20-27
    reserved2: bv32)  // bits 28-31
  {
    predicate Valid()
    {
      stepping < 16 && model < 16 && family < 16 && procType < 4 && reserved1 < 4 &&
      extModel < 16 && extFamily < 256 && reserved2 < 16
    }
  }

  function EncodeSig(s: Sig): bv32
  {
    s.stepping | (s.model << 4) | (s.family << 8) | (s.procType << 12) | (s.reserved1 << 14) |
    (s.extModel << 16) | (s.extFamily << 20) | (s.reserved2 << 28)
  }

  /** Writing EAX over the signature structure (handlers.c:122) and reading its fields. */
  function DecodeSig(x: bv32): (s: Sig)
    ensures s.Valid()
  {
    Sig(x & 0xF, (x >> 4) & 0xF, (x >> 8) & 0xF, (x >> 12) & 0x3, (x >> 14) & 0x3,
        (x >> 16) & 0xF, (x >> 20) & 0xFF, x >> 28)
  }

  lemma SigRoundTrip(s: Sig)
    requires s.Valid()
    ensures DecodeSig(EncodeSig(s)) == s
  {
  }

  /** Decoding loses no bit of EAX. */
  lemma SigLossless(x: bv32)
    ensures EncodeSig(DecodeSig(x)) == x
  {
  }

  /** The displayed family: base family plus extended family, for every vendor. */
  function DisplayedFamily(s: Sig): (f: bv32)
    requires s.Valid()
    ensures f < 16 + 256
  {
    s.family + s.extFamily
  }

  /**
   * The displayed model (handlers.c:125-130). Intel adds the extended model above the
   * base model when the base family is 0x6 or 0xF; AMD does so when the base MODEL is
   * 0xF; any other vendor shows the base model.
   */
  function EffectiveModel(v: Vendor, s: Sig): (m: bv32)
    requires s.Valid()
    ensures m < 256 && m & 0xF == s.model
    ensures v == Intel ==> (m >> 4 == if s.family == 0x6 || s.family == 0xF then s.extModel else 0)
    ensures v == Amd ==> (m >> 4 == if s.model == 0xF then s.extModel else 0)
    ensures v != Intel && v != Amd ==> m == s.model
  {
    var model := s.model;
    if v == Intel then
      model + (if s.family == 0xF || s.family == 0x6 then s.extModel << 4 else 0)
    else if v == Amd then
      model + (if model == 0xF then s.extModel << 4 else 0)
    else model
  }

  /** The displayed family, read off the raw EAX: bits 8-11 plus bits 20-27. */
  lemma DisplayedFamilyFromEax(eax: bv32)
    ensures DisplayedFamily(DecodeSig(eax)) == ((eax >> 8) & 0xF) + ((eax >> 20) & 0xFF)
  {
  }

  /**
   * The displayed model, read off the raw EAX: bits 4-7, with bits 16-19 placed above
   * them when the vendor's condition holds.
   */
  lemma EffectiveModelFromEax(v: Vendor, eax: bv32)
    ensures EffectiveModel(v, DecodeSig(eax)) ==
      if (v == Intel && ((eax >> 8) & 0xF == 0x6 || (eax >> 8) & 0xF == 0xF)) ||
         (v == Amd && (eax >> 4) & 0xF == 0xF)
      then ((eax >> 12) & 0xF0) | ((eax >> 4) & 0xF)
      else (eax >> 4) & 0xF
  {
    var s := DecodeSig(eax);
    assert s.model == (eax >> 4) & 0xF && s.family == (eax >> 8) & 0xF;
    assert (s.extModel << 4) + s.model == ((eax >> 12) & 0xF0) | ((eax >> 4) & 0xF);
  }
}
