/**
 * What the decoders print, as a sequence of decoded records (one per printed fact
 * group), and the pure part of each decoder: the records a frame yields.
 */
module Records {
  import opened Frames
  import opened Layouts
  import opened Lookups
  import opened Identity
  import opened Signature

  datatype TlbKind = DataLarge | InstructionLarge | Data4K | Instruction4K
  datatype CacheKind = DataCache | InstructionCache

  datatype Record =
    | Heading(title: string)
    | HypervisorDetected(hypervisor: Hypervisor)
    | SignatureInfo(signature: bv32, family: bv32, model: bv32, stepping: bv32)
    | ApicInfo(localApicId: bv8, logicalCount: bv8, clflushSize: bv8, brandId: bv8)
    | FeatureFlags(flags: Frame)          // print_features, which is not part of this model
    | CacheDescriptors(descriptors: Frame) // print_intel_caches, which is not part of this model
    | SerialDisabled
    | SerialNumber(parts: seq<bv32>)
    | DeterministicCache(size: Size, level: bv32, cacheType: string, fullyAssociative: bool,
                         ways: bv32, lineSize: bv32, partitions: bv32, sets: bv32, maxThreads: bv32)
    | Topology(shift: bv32, logicalAtLevel: bv32, levelNumber: bv32, levelType: bv32,
               levelName: string, x2apicId: bv32)
    | ProcessorName(name: seq<bv8>)
    | Tlb(tlbLevel: nat, tlbKind: TlbKind, entries: bv32, tlbAssoc: Associativity)
    | AmdL1Cache(l1Kind: CacheKind, sizeKB: bv8, l1Assoc: Associativity, l1LinesPerTag: bv8, l1LineSize: bv8)
    | IntelL2Cache(l2Size: Size, l2Assoc: string, l2LineSize: bv32)
    | AmdCache(cacheLevel: nat, cacheSize: Size, cacheAssoc: string, linesPerTag: bv32, cacheLineSize: bv32)
    | XenRelease(major: bv32, minor: bv32)
    | XenFeatures(hypercallPages: bv32, msrBase: bv32)
    | HostClock(mhz: nat)
    | VMwareFrequencies(tscKHz: bv32, busKHz: bv32)
    | RawDump(raw: Frame, subleaf: bool)  // cpuid_print, which is not part of this model

  /** The upper and lower 16 bits of a register, as the serial number and Xen version print them. */
  function Halves(x: bv32): (h: seq<bv32>)
    ensures |h| == 2 && h[0] < 0x1_0000 && h[1] < 0x1_0000
    ensures (h[0] << 16) | h[1] == x
  {
    [x >> 16, x & 0xFFFF]
  }

  /**
   * The signature block of leaf 1 (handlers.c:122-142): the raw EAX, the displayed family
   * (bits 8-11 plus bits 20-27), the vendor's effective model and the stepping (bits 0-3).
   */
  function SignatureRecord(v: Vendor, eax: bv32): (r: Record)
    ensures r.SignatureInfo? && r.signature == eax && r.stepping == eax & 0xF
    ensures r.family == ((eax >> 8) & 0xF) + ((eax >> 20) & 0xFF)
    ensures r.model ==
      if (v == Intel && ((eax >> 8) & 0xF == 0x6 || (eax >> 8) & 0xF == 0xF)) ||
         (v == Amd && (eax >> 4) & 0xF == 0xF)
      then ((eax >> 12) & 0xF0) | ((eax >> 4) & 0xF)
      else (eax >> 4) & 0xF
  {
    var s := DecodeSig(eax);
    DisplayedFamilyFromEax(eax);
    EffectiveModelFromEax(v, eax);
    SignatureInfo(eax, DisplayedFamily(s), EffectiveModel(v, s), s.stepping)
  }

  /** Leaf 1 EBX byte lanes (handlers.c:113-121, 143-150). */
  function ApicInfoOf(ebx: bv32): (r: Record)
    ensures r.ApicInfo?
    ensures Pack([r.brandId, r.clflushSize, r.logicalCount, r.localApicId]) == ebx
  {
    var b := Lanes(ebx);
    LanesRoundTrip(ebx, b);
    ApicInfo(b[3], b[2], b[1], b[0])
  }

  /**
   * Bytes of a leaf-4 cache: ways * partitions * line size * sets (handlers.c:263-266).
   * The three bit-field counts promote to `int` and the sets count is a `uint32_t`, where
   * ECX + 1 already wraps; the product of residues modulo 2^32 is the exact product
   * modulo 2^32, which is what this computes. When the exact product fits in 32 bits the
   * size is exact.
   */
  function Cache04Bytes(f: Frame): (n: nat)
    ensures n < 0x1_0000_0000
    ensures Cache04Exact(f) < 0x1_0000_0000 ==> n == Cache04Exact(f)
  {
    Cache04Exact(f) % 0x1_0000_0000
  }

  /** The exact product of the four +1 encoded counts of a leaf-4 sub-leaf. */
  function Cache04Exact(f: Frame): nat
  {
    var ways: nat, partitions: nat, lineSize: nat, sets: nat :=
      (f.ebx >> 22) as nat + 1, ((f.ebx >> 12) & 0x3FF) as nat + 1, (f.ebx & 0xFFF) as nat + 1, f.ecx as nat + 1;
    var n: nat := ways * partitions;
    var m: nat := n * lineSize;
    m * sets
  }

  /** One leaf-4 sub-leaf as handle_std_cache04 prints it (handlers.c:259-291). */
  function Cache04Record(f: Frame): (r: Record)
    ensures r.DeterministicCache?
    ensures r.size == ShowSize(Cache04Bytes(f) / 1024)
    ensures r.ways == DecodeCache04Ebx(f.ebx).assoc + 1 && r.ways <= 1024
    ensures r.lineSize == (f.ebx & 0xFFF) + 1 && r.partitions == ((f.ebx >> 12) & 0x3FF) + 1
    ensures r.sets == f.ecx + 1
    ensures r.level == (f.eax >> 5) & 7
    ensures r.cacheType == Cache04TypeName((f.eax & 0x1F) as bv8)
    ensures r.fullyAssociative <==> f.eax & 0x200 != 0
    ensures r.maxThreads == ((f.eax >> 14) & 0xFFF) + 1
  {
    var eax := DecodeCache04Eax(f.eax);
    var ebx := DecodeCache04Ebx(f.ebx);
    DeterministicCache(ShowSize(Cache04Bytes(f) / 1024), eax.level, Cache04TypeName(eax.cacheType as bv8),
                       eax.fullyAssociative == 1, ebx.assoc + 1, ebx.lineSize + 1,
                       ebx.partitions + 1, f.ecx + 1, eax.maxThreadsSharing + 1)
  }

  /** One leaf-0xB sub-leaf as handle_std_x2apic prints it (handlers.c:346-356). */
  function TopologyRecord(f: Frame): (r: Record)
    ensures r.Topology?
    ensures r.shift == f.eax & 0x1F && r.logicalAtLevel == f.ebx & 0xFFFF
    ensures r.shift < 32 && r.logicalAtLevel < 0x1_0000 && r.levelNumber < 256 && r.levelType < 256
    ensures r.levelType == Lanes(f.ecx)[1] as bv32 && r.levelNumber == Lanes(f.ecx)[0] as bv32
    ensures r.levelName == X2apicLevelTypeName(r.levelType as bv8)
    ensures r.x2apicId == f.edx
  {
    var levelType := (f.ecx >> 8) & 0xFF;
    Topology(f.eax & 0x1F, f.ebx & 0xFFFF, f.ecx & 0xFF, levelType,
             X2apicLevelTypeName(levelType as bv8), f.edx)
  }

  /** A TLB or cache line reports a non-zero count. */
  predicate NonZeroSized(r: Record)
  {
    (r.Tlb? ==> r.entries != 0) &&
    (r.AmdL1Cache? ==> r.sizeKB != 0) &&
    (r.AmdCache? ==> r.cacheSize != KB(0))
  }

  /** The lines of `ls` that get printed: zero-sized TLB and cache lines are suppressed, the order is kept. */
  function Present(ls: seq<Record>): (ps: seq<Record>)
    ensures |ps| <= |ls|
    ensures forall i :: 0 <= i < |ps| ==> NonZeroSized(ps[i])
    ensures forall r :: r in ps <==> r in ls && NonZeroSized(r)
  {
    if ls == [] then []
    else if NonZeroSized(ls[0]) then [ls[0]] + Present(ls[1..])
    else Present(ls[1..])
  }

  /** A line printed under a condition: the line when `shown`, nothing otherwise. */
  function When(shown: bool, r: Record): seq<Record>
  {
    if shown then [r] else []
  }

  /** Suppression works line by line: the printed lines of `a + b` are those of `a`, then those of `b`. */
  lemma {:induction false} PresentAppend(a: seq<Record>, b: seq<Record>)
    ensures Present(a + b) == Present(a) + Present(b)
  {
    if a == [] {
      assert a + b == b;
    } else {
      assert (a + b)[1..] == a[1..] + b;
      PresentAppend(a[1..], b);
    }
  }

  /** The first line is printed when it is non-zero sized, then the rest are suppressed in turn. */
  lemma PresentCons(ls: seq<Record>)
    requires ls != []
    ensures Present(ls) == When(NonZeroSized(ls[0]), ls[0]) + Present(ls[1..])
  {
  }

  /** Six candidate lines are printed in their own order, each kept exactly when it is non-zero sized. */
  lemma PresentSix(ls: seq<Record>)
    requires |ls| == 6
    ensures Present(ls) == When(NonZeroSized(ls[0]), ls[0]) + (When(NonZeroSized(ls[1]), ls[1]) +
      (When(NonZeroSized(ls[2]), ls[2]) + (When(NonZeroSized(ls[3]), ls[3]) +
      (When(NonZeroSized(ls[4]), ls[4]) + When(NonZeroSized(ls[5]), ls[5])))))
  {
    var w0, w1, w2 := When(NonZeroSized(ls[0]), ls[0]), When(NonZeroSized(ls[1]), ls[1]), When(NonZeroSized(ls[2]), ls[2]);
    var w3, w4, w5 := When(NonZeroSized(ls[3]), ls[3]), When(NonZeroSized(ls[4]), ls[4]), When(NonZeroSized(ls[5]), ls[5]);
    PresentCons(ls[5..]);
    assert ls[5..][1..] == [];
    assert Present(ls[5..]) == w5;
    PresentCons(ls[4..]);
    assert ls[4..][1..] == ls[5..];
    assert Present(ls[4..]) == w4 + w5;
    PresentCons(ls[3..]);
    assert ls[3..][1..] == ls[4..];
    assert Present(ls[3..]) == w3 + (w4 + w5);
    PresentCons(ls[2..]);
    assert ls[2..][1..] == ls[3..];
    assert Present(ls[2..]) == w2 + (w3 + (w4 + w5));
    PresentCons(ls[1..]);
    assert ls[1..][1..] == ls[2..];
    assert Present(ls[1..]) == w1 + (w2 + (w3 + (w4 + w5)));
    PresentCons(ls);
    assert Present(ls) == w0 + (w1 + (w2 + (w3 + (w4 + w5))));
  }

  /**
   * AMD leaf 0x80000005 (handlers.c:442-477), before suppression: the L1 TLB lines from
   * EAX (2MB and 4MB pages) and EBX (4KB pages), data before instruction, then the L1
   * data (ECX) and instruction (EDX) cache lines. Each register is four byte lanes.
   */
  function AmdL1Lines(f: Frame): (ls: seq<Record>)
    ensures |ls| == 6
    ensures forall i :: 0 <= i < 4 ==> ls[i].Tlb? && ls[i].tlbLevel == 1
    ensures ls[0].tlbKind == DataLarge && ls[1].tlbKind == InstructionLarge
    ensures ls[2].tlbKind == Data4K && ls[3].tlbKind == Instruction4K
    ensures ls[4].AmdL1Cache? && ls[4].l1Kind == DataCache
    ensures ls[5].AmdL1Cache? && ls[5].l1Kind == InstructionCache
  {
    var large, small, data, code := Lanes(f.eax), Lanes(f.ebx), Lanes(f.ecx), Lanes(f.edx);
    [Tlb(1, DataLarge, large[2] as bv32, AmdAssociativity(large[3])),
     Tlb(1, InstructionLarge, large[0] as bv32, AmdAssociativity(large[1])),
     Tlb(1, Data4K, small[2] as bv32, AmdAssociativity(small[3])),
     Tlb(1, Instruction4K, small[0] as bv32, AmdAssociativity(small[1])),
     AmdL1Cache(DataCache, data[3], AmdAssociativity(data[2]), data[1], data[0]),
     AmdL1Cache(InstructionCache, code[3], AmdAssociativity(code[2]), code[1], code[0])]
  }

  /** What handle_ext_amdl1cachefeat prints after its heading. */
  function AmdL1Records(f: Frame): (rs: seq<Record>)
    ensures |rs| <= 6
    ensures forall i :: 0 <= i < |rs| ==> rs[i] in AmdL1Lines(f) && NonZeroSized(rs[i])
  {
    Present(AmdL1Lines(f))
  }

  /**
   * What handle_ext_amdl1cachefeat prints, line by line in its order: each of the six
   * lines under the C test of its entry count or size byte.
   */
  lemma AmdL1Printed(f: Frame)
    ensures var ls, large, small, data, code := AmdL1Lines(f), Lanes(f.eax), Lanes(f.ebx), Lanes(f.ecx), Lanes(f.edx);
      AmdL1Records(f) == When(large[2] != 0, ls[0]) + (When(large[0] != 0, ls[1]) +
        (When(small[2] != 0, ls[2]) + (When(small[0] != 0, ls[3]) +
        (When(data[3] != 0, ls[4]) + When(code[3] != 0, ls[5])))))
  {
    var ls := AmdL1Lines(f);
    PresentSix(ls);
    AmdL1Sized(f);
  }

  /** Which L1 lines are non-zero sized, by the C tests of handlers.c:445-472. */
  lemma AmdL1Sized(f: Frame)
    ensures var ls, large, small := AmdL1Lines(f), Lanes(f.eax), Lanes(f.ebx);
      (NonZeroSized(ls[0]) <==> large[2] != 0) && (NonZeroSized(ls[1]) <==> large[0] != 0) &&
      (NonZeroSized(ls[2]) <==> small[2] != 0) && (NonZeroSized(ls[3]) <==> small[0] != 0)
    ensures var ls, data, code := AmdL1Lines(f), Lanes(f.ecx), Lanes(f.edx);
      (NonZeroSized(ls[4]) <==> data[3] != 0) && (NonZeroSized(ls[5]) <==> code[3] != 0)
  {
  }

  /** Each L1 TLB line is printed exactly when its entry count is non-zero. */
  lemma AmdL1TlbShown(f: Frame)
    ensures var b := Lanes(f.eax);
      Tlb(1, DataLarge, b[2] as bv32, AmdAssociativity(b[3])) in AmdL1Records(f) <==> b[2] != 0
    ensures var b := Lanes(f.eax);
      Tlb(1, InstructionLarge, b[0] as bv32, AmdAssociativity(b[1])) in AmdL1Records(f) <==> b[0] != 0
    ensures var b := Lanes(f.ebx);
      Tlb(1, Data4K, b[2] as bv32, AmdAssociativity(b[3])) in AmdL1Records(f) <==> b[2] != 0
    ensures var b := Lanes(f.ebx);
      Tlb(1, Instruction4K, b[0] as bv32, AmdAssociativity(b[1])) in AmdL1Records(f) <==> b[0] != 0
  {
    var ls := AmdL1Lines(f);
    assert ls[0] in ls && ls[1] in ls && ls[2] in ls && ls[3] in ls;
  }

  /** Each L1 cache line is printed exactly when its size is non-zero. */
  lemma AmdL1CacheShown(f: Frame)
    ensures |AmdL1Records(f)| <= 6
    ensures var b := Lanes(f.ecx);
      AmdL1Cache(DataCache, b[3], AmdAssociativity(b[2]), b[1], b[0]) in AmdL1Records(f) <==> b[3] != 0
    ensures var b := Lanes(f.edx);
      AmdL1Cache(InstructionCache, b[3], AmdAssociativity(b[2]), b[1], b[0]) in AmdL1Records(f) <==> b[3] != 0
  {
    var ls := AmdL1Lines(f);
    assert ls[4] in ls && ls[5] in ls;
  }

  /** Intel leaf 0x80000006 (handlers.c:512-519): one L2 line, always printed. */
  function IntelL2Record(ecx: bv32): (r: Record)
    ensures r.IntelL2Cache?
    ensures r.l2Size == ShowSize((ecx >> 16) as nat)
    ensures r.l2LineSize == ecx & 0xFF
    ensures r.l2Assoc == IntelL2AssocName((ecx >> 12) & 0xF)
  {
    var c := DecodeL2Cache(ecx);
    assert c.size == ecx >> 16 && c.assoc == (ecx >> 12) & 0xF && c.lineSize == ecx & 0xFF;
    IntelL2Cache(ShowSize(c.size as nat), IntelL2AssocName(c.assoc), c.lineSize)
  }

  /**
   * AMD leaf 0x80000006 (handlers.c:566-602), before suppression: the L2 TLB lines from
   * EAX and EBX, whose 4-bit associativity goes through amd_associativity, then the L2
   * cache (ECX) and L3 cache (EDX) lines, whose associativity indexes the 16-entry table.
   */
  function AmdL2Lines(f: Frame): (ls: seq<Record>)
    ensures |ls| == 6
    ensures forall i :: 0 <= i < 4 ==> ls[i].Tlb? && ls[i].tlbLevel == 2
    ensures ls[0].tlbKind == DataLarge && ls[1].tlbKind == InstructionLarge
    ensures ls[2].tlbKind == Data4K && ls[3].tlbKind == Instruction4K
    ensures ls[4].AmdCache? && ls[4].cacheLevel == 2
    ensures ls[5].AmdCache? && ls[5].cacheLevel == 3
  {
    var large, small := DecodeL2Tlb(f.eax), DecodeL2Tlb(f.ebx);
    var l2, l3 := DecodeL2Cache(f.ecx), DecodeL3Cache(f.edx);
    [Tlb(2, DataLarge, large.dtlbSize, AmdAssociativity(large.dtlbAssoc as bv8)),
     Tlb(2, InstructionLarge, large.itlbSize, AmdAssociativity(large.itlbAssoc as bv8)),
     Tlb(2, Data4K, small.dtlbSize, AmdAssociativity(small.dtlbAssoc as bv8)),
     Tlb(2, Instruction4K, small.itlbSize, AmdAssociativity(small.itlbAssoc as bv8)),
     AmdCache(2, ShowSize(l2.size as nat), AmdL2AssocName(l2.assoc), l2.linesPerTag, l2.lineSize),
     AmdCache(3, ShowSize(l3.size as nat), AmdL2AssocName(l3.assoc), l3.linesPerTag, l3.lineSize)]
  }

  /** What the AMD branch of handle_ext_l2cachefeat prints after its heading. */
  function AmdL2Records(f: Frame): (rs: seq<Record>)
    ensures |rs| <= 6
    ensures forall i :: 0 <= i < |rs| ==> rs[i] in AmdL2Lines(f) && NonZeroSized(rs[i])
  {
    Present(AmdL2Lines(f))
  }

  /**
   * What the AMD branch of handle_ext_l2cachefeat prints, line by line in its order: each
   * of the six lines under the C test of its entry count or size field.
   */
  lemma AmdL2Printed(f: Frame)
    ensures var ls := AmdL2Lines(f);
      AmdL2Records(f) == When((f.eax >> 16) & 0xFFF != 0, ls[0]) + (When(f.eax & 0xFFF != 0, ls[1]) +
        (When((f.ebx >> 16) & 0xFFF != 0, ls[2]) + (When(f.ebx & 0xFFF != 0, ls[3]) +
        (When(f.ecx >> 16 != 0, ls[4]) + When(f.edx >> 18 != 0, ls[5])))))
  {
    var ls := AmdL2Lines(f);
    PresentSix(ls);
    AmdL2TlbSized(f);
    AmdL2CacheSized(f);
  }

  /** Which AMD L2 TLB lines are non-zero sized, by the C tests of handlers.c:569-582. */
  lemma AmdL2TlbSized(f: Frame)
    ensures var ls := AmdL2Lines(f);
      (NonZeroSized(ls[0]) <==> (f.eax >> 16) & 0xFFF != 0) && (NonZeroSized(ls[1]) <==> f.eax & 0xFFF != 0) &&
      (NonZeroSized(ls[2]) <==> (f.ebx >> 16) & 0xFFF != 0) && (NonZeroSized(ls[3]) <==> f.ebx & 0xFFF != 0)
  {
  }

  /** Which AMD L2 and L3 cache lines are non-zero sized, by the C tests of handlers.c:586-602. */
  lemma AmdL2CacheSized(f: Frame)
    ensures var ls := AmdL2Lines(f);
      (NonZeroSized(ls[4]) <==> f.ecx >> 16 != 0) && (NonZeroSized(ls[5]) <==> f.edx >> 18 != 0)
  {
  }

  /** Each L2 TLB line for large pages is printed exactly when its entry count is non-zero. */
  lemma AmdL2LargeTlbShown(f: Frame)
    ensures |AmdL2Records(f)| <= 6
    ensures var t := DecodeL2Tlb(f.eax);
      Tlb(2, DataLarge, t.dtlbSize, AmdAssociativity(t.dtlbAssoc as bv8)) in AmdL2Records(f) <==> (f.eax >> 16) & 0xFFF != 0
    ensures var t := DecodeL2Tlb(f.eax);
      Tlb(2, InstructionLarge, t.itlbSize, AmdAssociativity(t.itlbAssoc as bv8)) in AmdL2Records(f) <==> f.eax & 0xFFF != 0
  {
    var ls := AmdL2Lines(f);
    assert ls[0] in ls && ls[1] in ls;
  }

  /** Each L2 TLB line for 4KB pages is printed exactly when its entry count is non-zero. */
  lemma AmdL2SmallTlbShown(f: Frame)
    ensures var t := DecodeL2Tlb(f.ebx);
      Tlb(2, Data4K, t.dtlbSize, AmdAssociativity(t.dtlbAssoc as bv8)) in AmdL2Records(f) <==> (f.ebx >> 16) & 0xFFF != 0
    ensures var t := DecodeL2Tlb(f.ebx);
      Tlb(2, Instruction4K, t.itlbSize, AmdAssociativity(t.itlbAssoc as bv8)) in AmdL2Records(f) <==> f.ebx & 0xFFF != 0
  {
    var ls := AmdL2Lines(f);
    assert ls[2] in ls && ls[3] in ls;
  }

  /** The L2 and L3 cache lines are printed exactly when their size fields are non-zero. */
  lemma AmdL2CacheShown(f: Frame)
    ensures var c := DecodeL2Cache(f.ecx);
      AmdCache(2, ShowSize(c.size as nat), AmdL2AssocName(c.assoc), c.linesPerTag, c.lineSize) in AmdL2Records(f) <==> f.ecx >> 16 != 0
    ensures var c := DecodeL3Cache(f.edx);
      AmdCache(3, ShowSize(c.size as nat), AmdL2AssocName(c.assoc), c.linesPerTag, c.lineSize) in AmdL2Records(f) <==> f.edx >> 18 != 0
  {
    var ls := AmdL2Lines(f);
    assert ls[4] in ls && ls[5] in ls;
  }
}
