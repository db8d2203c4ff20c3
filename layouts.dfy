/**
 * The bit-field layouts the decoders overlay on a register, as explicit shift/mask
 * extraction. GCC on x86 allocates C bit-fields from the least significant bit upward,
 * so the first member of each structure sits in the lowest bits.
 * Every layout comes with its inverse (packing the fields back into a register).
 */
module Layouts {

  /** Leaf 4, EAX (handlers.c:220-228): the cache type, level and sharing fields. */
  datatype Cache04Eax = Cache04Eax(
    cacheType: bv32,          // bits 0-4
    level: bv32,              // bits 5-7
    selfInitializing: bv32,   // bit 8
    fullyAssociative: bv32,   // bit 9
    reserved: bv32,           // bits 10-13
    maxThreadsSharing: bv32,  // bits 14-25, +1 encoded
    apicsReserved: bv32)      // bits 26-31, +1 encoded
  {
    predicate Valid()
    {
      cacheType < 32 && level < 8 && selfInitializing < 2 && fullyAssociative < 2 &&
      reserved < 16 && maxThreadsSharing < 4096 && apicsReserved < 64
    }
  }

  function EncodeCache04Eax(c: Cache04Eax): bv32
  {
    c.cacheType | (c.level << 5) | (c.selfInitializing << 8) | (c.fullyAssociative << 9) |
    (c.reserved << 10) | (c.maxThreadsSharing << 14) | (c.apicsReserved << 26)
  }

  function DecodeCache04Eax(x: bv32): (c: Cache04Eax)
    ensures c.Valid()
  {
    Cache04Eax(x & 0x1F, (x >> 5) & 0x7, (x >> 8) & 0x1, (x >> 9) & 0x1,
               (x >> 10) & 0xF, (x >> 14) & 0xFFF, x >> 26)
  }

  lemma Cache04EaxRoundTrip(c: Cache04Eax)
    requires c.Valid()
    ensures DecodeCache04Eax(EncodeCache04Eax(c)) == c
  {
  }

  /** Decoding loses no bit of the register. */
  lemma Cache04EaxLossless(x: bv32)
    ensures EncodeCache04Eax(DecodeCache04Eax(x)) == x
  {
  }

  /** Leaf 4, EBX (handlers.c:229-233): line size, partitions and ways, each +1 encoded. */
  datatype Cache04Ebx = Cache04Ebx(
    lineSize: bv32,    // bits 0-11
    partitions: bv32,  // bits 12-21
    assoc: bv32)       // bits 22-31
  {
    predicate Valid()
    {
      lineSize < 4096 && partitions < 1024 && assoc < 1024
    }
  }

  function EncodeCache04Ebx(c: Cache04Ebx): bv32
  {
    c.lineSize | (c.partitions << 12) | (c.assoc << 22)
  }

  function DecodeCache04Ebx(x: bv32): (c: Cache04Ebx)
    ensures c.Valid()
  {
    Cache04Ebx(x & 0xFFF, (x >> 12) & 0x3FF, x >> 22)
  }

  lemma Cache04EbxRoundTrip(c: Cache04Ebx)
    requires c.Valid()
    ensures DecodeCache04Ebx(EncodeCache04Ebx(c)) == c
  {
  }

  /** Decoding loses no bit of the register. */
  lemma Cache04EbxLossless(x: bv32)
    ensures EncodeCache04Ebx(DecodeCache04Ebx(x)) == x
  {
  }

  /**
   * Leaf 0x80000006, ECX: the L2 cache word. The Intel structure (handlers.c:505-510)
   * and the AMD one (handlers.c:548-553) put their fields at the same bits; Intel calls
   * bits 8-11 reserved where AMD has lines per tag.
   */
  datatype L2Cache = L2Cache(
    lineSize: bv32,     // bits 0-7
    linesPerTag: bv32,  // bits 8-11
    assoc: bv32,        // bits 12-15
    size: bv32)         // bits 16-31, in KB
  {
    predicate Valid()
    {
      lineSize < 256 && linesPerTag < 16 && assoc < 16 && size < 0x1_0000
    }
  }

  function EncodeL2Cache(c: L2Cache): bv32
  {
    c.lineSize | (c.linesPerTag << 8) | (c.assoc << 12) | (c.size << 16)
  }

  function DecodeL2Cache(x: bv32): (c: L2Cache)
    ensures c.Valid()
  {
    L2Cache(x & 0xFF, (x >> 8) & 0xF, (x >> 12) & 0xF, x >> 16)
  }

  lemma L2CacheRoundTrip(c: L2Cache)
    requires c.Valid()
    ensures DecodeL2Cache(EncodeL2Cache(c)) == c
  {
  }

  /** Decoding loses no bit of the register. */
  lemma L2CacheLossless(x: bv32)
    ensures EncodeL2Cache(DecodeL2Cache(x)) == x
  {
  }

  /** Leaf 0x80000006, EDX on AMD (handlers.c:554-560): the L3 cache word. */
  datatype L3Cache = L3Cache(
    lineSize: bv32,     // bits 0-7
    linesPerTag: bv32,  // bits 8-11
    assoc: bv32,        // bits 12-15
    reserved: bv32,     // bits 16-17
    size: bv32)         // bits 18-31
  {
    predicate Valid()
    {
      lineSize < 256 && linesPerTag < 16 && assoc < 16 && reserved < 4 && size < 0x4000
    }
  }

  function EncodeL3Cache(c: L3Cache): bv32
  {
    c.lineSize | (c.linesPerTag << 8) | (c.assoc << 12) | (c.reserved << 16) | (c.size << 18)
  }

  function DecodeL3Cache(x: bv32): (c: L3Cache)
    ensures c.Valid()
  {
    L3Cache(x & 0xFF, (x >> 8) & 0xF, (x >> 12) & 0xF, (x >> 16) & 0x3, x >> 18)
  }

  lemma L3CacheRoundTrip(c: L3Cache)
    requires c.Valid()
    ensures DecodeL3Cache(EncodeL3Cache(c)) == c
  {
  }

  /** Decoding loses no bit of the register. */
  lemma L3CacheLossless(x: bv32)
    ensures EncodeL3Cache(DecodeL3Cache(x)) == x
  {
  }

  /** Leaf 0x80000006, EAX and EBX on AMD (handlers.c:542-547): an L2 TLB pair. */
  datatype L2Tlb = L2Tlb(
    itlbSize: bv32,   // bits 0-11
    itlbAssoc: bv32,  // bits 12-15
    dtlbSize: bv32,   // bits 16-27
    dtlbAssoc: bv32)  // bits 28-31
  {
    predicate Valid()
    {
      itlbSize < 4096 && itlbAssoc < 16 && dtlbSize < 4096 && dtlbAssoc < 16
    }
  }

  function EncodeL2Tlb(t: L2Tlb): bv32
  {
    t.itlbSize | (t.itlbAssoc << 12) | (t.dtlbSize << 16) | (t.dtlbAssoc << 28)
  }

  function DecodeL2Tlb(x: bv32): (t: L2Tlb)
    ensures t.Valid()
  {
    L2Tlb(x & 0xFFF, (x >> 12) & 0xF, (x >> 16) & 0xFFF, x >> 28)
  }

  lemma L2TlbRoundTrip(t: L2Tlb)
    requires t.Valid()
    ensures DecodeL2Tlb(EncodeL2Tlb(t)) == t
  {
  }

  /** Decoding loses no bit of the register. */
  lemma L2TlbLossless(x: bv32)
    ensures EncodeL2Tlb(DecodeL2Tlb(x)) == x
  {
  }
}
