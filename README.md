# A verified model of the CPUID leaf decoders

This project models `handlers.c`, the decoders of a CPUID inspection tool. The tool
walks the CPUID leaves of the standard range (0x0…), the hypervisor range (0x40000000…)
and the extended range (0x80000000…). For every leaf it calls the decoders registered
for it in one of two tables:

- the *decode* table turns the registers into readable facts;
- the *dump* table prints the raw registers.

The decoders share one session state:

- the vendor, and the hypervisor if there is one;
- the highest leaf of the current range;
- the leaf-1 signature;
- the registers of the last invocation;
- a 48-byte buffer that the processor-name leaves fill.

Several decoders invoke the instruction again. Leaf 2 repeats itself. Leaf 3 needs
leaf 1 first. Leaves 4 and 0xB enumerate sub-leaves until a termination test holds.

## How the model is organised

- `Frames`:
  - the four-register frame;
  - the little-endian byte view of a register;
  - the `Regs` structure that decoders overwrite.
- `Identity`: the 12-byte vendor and hypervisor strings, and the C-string comparisons
  made on them.
- `Layouts`: the bit-field structures that the decoders overlay on a register. Each one
  is written as shift-and-mask extraction and comes with its inverse.
- `Signature`: the leaf-1 signature, plus the displayed family and model.
- `Lookups`:
  - the name tables (cache type, topology level type, L2 associativity);
  - AMD's associativity byte rendering;
  - the KB/MB size rendering.
- `Records`:
  - what each decoder prints, as typed records instead of formatted text;
  - the pure part of every decoder, i.e. the records that one frame yields.
- `SubLeaf`:
  - the four sub-leaf loops (leaf 4 and leaf 0xB, each decoded and dumped), written as a
    specification over the sequence of answers;
  - which answers each loop prints and where it stops.
- `ProcName`: the processor-name buffer, and the three 16-byte stores that build it.
- `Registry`: the two handler tables, and the vendor or hypervisor a decoder needs
  before it acts.
- `State`:
  - the session as a class `CpuidState`;
  - every decoder as a method on it, which updates the state, appends to the output
    `out` and logs every invocation in the ghost `calls`;
  - each loop proved against the `SubLeaf` specification.

The CPUID instruction is a deterministic function `cpuid(leaf, subleaf)`, held by the
state as a constant. Registers are `bv32`, bytes are `bv8`, and every C computation on
32-bit unsigned values is done in `bv32` so that it wraps the way the C code does.

## Model

| member | source | states |
|---|---|---|
| Frames.LanesRoundTrip | handlers.c:392-395 | Storing a register as four little-endian bytes and loading them back gives the register. Loading four bytes and storing them back gives the bytes. |
| Frames.FrameBytes | handlers.c:392-395 | The 16 bytes of a frame are EAX, EBX, ECX and EDX at offsets 0, 4, 8 and 12, each little-endian. |
| Frames.Regs.Zero | handlers.c:247 | ZERO_REGS leaves all four registers zero. |
| Identity.CString | handlers.c:91-97 | The C string of a buffer is its longest NUL-free prefix, and it is followed by a NUL when shorter than the buffer. |
| Identity.StrEqFull | handlers.c:97-104 | strcmp against a NUL-free literal of the buffer's own length is exact equality of the text. |
| Identity.StrEqPrefix | handlers.c:632 | strcmp against a shorter literal holds exactly when the buffer spells the literal and then has a NUL. |
| Identity.VendorOf | handlers.c:91-106 | The vendor is Intel, AMD, Transmeta or Cyrix exactly when EBX, EDX, ECX spell that vendor's 12-character string, and unknown exactly when they spell none of the four. |
| Identity.HypervisorOf | handlers.c:622-637 | Xen or VMware exactly when EBX, ECX, EDX spell "XenVMMXenVMM" or "VMwareVMware". KVM exactly when they spell "KVMKVMKVM" followed by a NUL. Never "not present". |
| Identity.GenuineIntelRegisters | handlers.c:97 | The registers an Intel part returns for leaf 0 decode to Intel. |
| Layouts.DecodeCache04Eax | handlers.c:220-228 | Every field read from the leaf-4 EAX fits its bit-field width (type 5 bits, level 3, two 1-bit flags, reserved 4, sharing threads 12, APIC IDs 6). |
| Layouts.Cache04EaxRoundTrip | handlers.c:220-228 | Decoding the leaf-4 EAX fields of an encoded structure gives the structure back. |
| Layouts.Cache04EaxLossless | handlers.c:220-228 | The leaf-4 EAX layout accounts for every bit of the register. |
| Layouts.DecodeCache04Ebx | handlers.c:229-233 | Line size and partitions fit 12 and 10 bits, ways 10 bits. |
| Layouts.Cache04EbxRoundTrip | handlers.c:229-233 | Decoding the leaf-4 EBX fields (line size, partitions, ways) of an encoded structure gives it back. |
| Layouts.Cache04EbxLossless | handlers.c:229-233 | The leaf-4 EBX layout accounts for every bit of the register. |
| Layouts.DecodeL2Cache | handlers.c:548-553 | Line size fits 8 bits, lines per tag and associativity 4 bits each, size 16 bits. |
| Layouts.L2CacheRoundTrip | handlers.c:548-553 | Decoding the L2 cache word of an encoded structure gives it back. |
| Layouts.L2CacheLossless | handlers.c:505-510 | The L2 cache word layout accounts for every bit of ECX. |
| Layouts.DecodeL3Cache | handlers.c:554-560 | Line size fits 8 bits, lines per tag and associativity 4 bits, the reserved field 2 bits, size 14 bits. |
| Layouts.L3CacheRoundTrip | handlers.c:554-560 | Decoding the AMD L3 cache word of an encoded structure gives it back. |
| Layouts.L3CacheLossless | handlers.c:554-560 | The L3 cache word layout accounts for every bit of EDX. |
| Layouts.DecodeL2Tlb | handlers.c:542-547 | Both entry counts fit 12 bits and both associativities 4 bits. |
| Layouts.L2TlbRoundTrip | handlers.c:542-547 | Decoding the AMD L2 TLB word of an encoded structure gives it back. |
| Layouts.L2TlbLossless | handlers.c:542-547 | The L2 TLB word layout accounts for every bit of the register. |
| Signature.DecodeSig | handlers.c:122 | Every signature field read from EAX fits its bit-field width. |
| Signature.SigRoundTrip | handlers.c:122 | Decoding the signature fields of an encoded signature gives it back. |
| Signature.SigLossless | handlers.c:122 | The signature layout accounts for every bit of EAX. |
| Signature.DisplayedFamily | handlers.c:137 | The displayed family of a valid signature is below 16 + 256. Its value from EAX is stated by `DisplayedFamilyFromEax`. |
| Signature.EffectiveModel | handlers.c:125-130 | The low nibble is always the base model. On Intel the extended model goes above it when the base family is 6 or 0xF. On AMD it goes above it when the base model is 0xF. Any other vendor shows the base model alone. |
| Signature.DisplayedFamilyFromEax | handlers.c:137 | The displayed family is EAX bits 8-11 plus EAX bits 20-27. |
| Signature.EffectiveModelFromEax | handlers.c:125-130 | The displayed model is EAX bits 4-7, with bits 16-19 placed above them exactly under the vendor's condition. |
| Lookups.Cache04TypeName | handlers.c:204-215 | The name is "unknown" exactly for types above 3, and otherwise the table entry of the type. |
| Lookups.Cache04TypeNameInjective | handlers.c:206-211 | Two known cache types with the same name are the same type. |
| Lookups.X2apicLevelTypeName | handlers.c:318-328 | The name is "Unknown" exactly for level types above 2, and otherwise the table entry of the type. |
| Lookups.AmdAssociativity | handlers.c:404-418 | 0x00 is reserved, 0x01 is direct mapped and 0xFF is fully associative, each exactly for that byte. Every other byte N is N-way. |
| Lookups.AmdAssociativityInverse | handlers.c:404-418 | The rendering loses nothing: each of the 256 byte values can be recovered from its rendering. |
| Lookups.IntelL2AssocName | handlers.c:486-518 | The Intel name is "Unknown" exactly at the NULL slots (3, 5, 7, 9-14). Otherwise it is the table entry. |
| Lookups.AmdL2AssocName | handlers.c:523-540 | The AMD name is "unknown associativity" exactly at the NULL slots (3, 5, 7, 9). Otherwise it is the table entry. |
| Lookups.L2AssocTablesAgree | handlers.c:523-540 | The AMD table agrees with the Intel one wherever Intel defines a slot. It adds exactly slots 10-14. |
| Lookups.ShowSize | handlers.c:263-269 | A size is shown in MB exactly when it is above 1024 KB. MB values are rounded down. Otherwise it is shown unchanged in KB. |
| Records.Halves | handlers.c:196-198 | The two 16-bit halves are each below 2^16 and together rebuild the register. |
| Records.SignatureRecord | handlers.c:122-142 | The signature line holds the raw EAX, the stepping (bits 0-3) and the displayed family and model computed from EAX. |
| Records.ApicInfoOf | handlers.c:143-150 | The four EBX byte fields read back, in order, to EBX. |
| Records.Cache04Bytes | handlers.c:263-266 | The cache size is the product of ways, partitions, line size and sets, reduced modulo 2^32. It equals the exact product whenever that product fits in 32 bits. |
| Records.Cache04Record | handlers.c:259-291 | A leaf-4 line has size, level, type name, full-associativity flag, ways, line size, partitions, sets and maximum sharing threads, each taken from its bit field with the +1 encoding undone. |
| Records.TopologyRecord | handlers.c:346-356 | A topology line holds the shift, the logical count, the level number (ECX byte 0), the level type (ECX byte 1) with its name, and the x2APIC ID (EDX). The shift is EAX bits 0-4 and the logical count EBX bits 0-15. |
| Records.Present | handlers.c:442-478 | Every printed line is non-zero sized, and a line is printed exactly when it is in the input and non-zero sized. |
| Records.PresentAppend | handlers.c:442-478 | Filtering two lists one after the other equals filtering each in turn. So the printed lines keep the input's order and repetitions. |
| Records.AmdL1Lines | handlers.c:442-478 | The six candidate L1 lines, in print order: data and instruction TLBs for large pages, then for 4 KB pages, then the data and instruction caches. |
| Records.AmdL1Records | handlers.c:442-478 | At most six lines are printed, each one of the candidates and non-zero sized. |
| Records.AmdL1Printed | handlers.c:442-478 | The printed L1 lines are, in order, each candidate under its C test: EAX byte 2, EAX byte 0, EBX byte 2, EBX byte 0, ECX byte 3, EDX byte 3 non-zero. |
| Records.AmdL1TlbShown | handlers.c:442-459 | Each of the four L1 TLB lines is printed exactly when its entry count byte is non-zero. |
| Records.AmdL1CacheShown | handlers.c:461-478 | The L1 data and instruction cache lines are each printed exactly when their size byte is non-zero. |
| Records.IntelL2Record | handlers.c:512-519 | The Intel L2 line holds the size (ECX bits 16-31), the line size (bits 0-7) and the associativity name (bits 12-15). |
| Records.AmdL2Lines | handlers.c:566-602 | The six candidate AMD L2 lines, in print order: the four L2 TLBs, then the L2 cache and the L3 cache. |
| Records.AmdL2Records | handlers.c:566-602 | At most six lines are printed, each one of the candidates and non-zero sized. |
| Records.AmdL2Printed | handlers.c:566-602 | The printed lines are, in order, each candidate under its C test: EAX bits 16-27, EAX bits 0-11, EBX bits 16-27, EBX bits 0-11, ECX bits 16-31, EDX bits 18-31 non-zero. |
| Records.AmdL2LargeTlbShown | handlers.c:568-574 | Each L2 TLB line for large pages is printed exactly when its entry count is non-zero. |
| Records.AmdL2SmallTlbShown | handlers.c:576-582 | Each L2 TLB line for 4 KB pages is printed exactly when its entry count is non-zero. |
| Records.AmdL2CacheShown | handlers.c:586-602 | The L2 and L3 cache lines are each printed exactly when their size field is non-zero. |
| SubLeaf.DumpOf | handlers.c:302-315 | Each decoding loop has a dumping loop over the same leaf, and that loop does not skip all-zero answers. |
| SubLeaf.EndsIsStops | handlers.c:254-358 | For every loop, ending the loop (all-zero skip or termination test) is the same as the protocol's termination test. An all-zero answer always passes the termination test. |
| SubLeaf.AnswersAt | handlers.c:247-250 | Pass i of a loop gets the answer to sub-leaf i. |
| SubLeaf.Shown | handlers.c:243-298 | A loop prints a prefix of its answers, in order. |
| SubLeaf.Run | handlers.c:243-298 | The printed records are the records of the first answers, in order, one per answer. |
| SubLeaf.FirstStopUnique | handlers.c:294 | A loop has only one first stop. |
| SubLeaf.ShownFirstStop | handlers.c:243-298 | A loop prints every answer before its first stop, then the stopping answer unless the loop skips it as all zero. |
| SubLeaf.ShownAtStop | handlers.c:256 | When the first answer ends the loop, only that answer (or nothing, if it is skipped) is printed. |
| SubLeaf.ShownStep | handlers.c:297 | An answer that does not end the loop is printed, and the loop goes on with the next sub-leaf. |
| SubLeaf.ShownIgnoresLater | handlers.c:294 | Answers after the first stop never affect what is printed. |
| SubLeaf.DecoderMatchesDumper | handlers.c:302-315 | The dumper prints every sub-leaf up to and including the first stop. The decoder prints the same ones, except that it drops a final all-zero sub-leaf. |
| SubLeaf.RunLastStep | handlers.c:294 | When no earlier answer ends the loop and one more does, the output is the earlier answers' records followed by the last answer's record (if it is printed). |
| ProcName.PartOffset | handlers.c:388 | The offset of a name part is a multiple of 16. |
| ProcName.NameLeafOffsets | handlers.c:388 | Leaves 0x80000002, 0x80000003 and 0x80000004 store at offsets 0, 16 and 32. |
| ProcName.PartOffsetInBuffer | handlers.c:388 | Because the offset is computed in 32-bit arithmetic, a leaf lands inside the buffer exactly when its distance from 0x80000002, taken modulo 2^28, is below 3. |
| ProcName.Splice | handlers.c:392-395 | A store changes the bytes at its offset and nothing else. |
| ProcName.SpliceAdjacent | handlers.c:392-395 | Two adjacent stores equal one store of both byte strings. |
| ProcName.Zeroes | handlers.c:389-390 | The cleared buffer is all zero. |
| ProcName.PnameStep | handlers.c:388-399 | A name leaf writes its 16 bytes at its offset and keeps the earlier parts. Offset 0 clears the rest of the buffer. Offset 32 ends with a NUL in place of the last register byte. |
| ProcName.NameAssembled | handlers.c:386-402 | The three leaves in order build the name from the twelve registers, whatever the buffer held before, and byte 47 is NUL. |
| Registry.HandlersFor | handlers.c:52-79 | A lookup returns at most one decoder per table row. |
| Registry.HandlersForMembers | handlers.c:52-79 | A decoder is looked up for a leaf exactly when the table has a row pairing them. |
| Registry.HandlersForAppend | handlers.c:52-79 | Looking up in two consecutive tables finds the first table's decoders before the second's. |
| Registry.TablesAscending | handlers.c:36-79 | Both tables list their leaves in ascending order. |
| Registry.SharedLeaf | handlers.c:66-67 | Only leaf 0x40000003 has two rows: the Xen clock decoder, then the VMware frequency decoder. |
| Registry.AtMostOneApplies | handlers.c:66-67 | Whatever the session, at most one of two rows for the same leaf acts. |
| Registry.UnregisteredLeaves | handlers.c:52-79 | Leaves 5 to 0xA have no decoder and no dumper. |
| Registry.DumpedLeaves | handlers.c:36-49 | A leaf has at most one dumper. The base dumper serves exactly leaves 0, 0x40000000 and 0x80000000; the leaf-4 and leaf-0xB dumpers serve exactly their leaf. |
| Registry.DecodersOf | handlers.c:52-79 | Leaf 0x40000003 is looked up as the Xen clock decoder, then the VMware one. The three name leaves each get only the name decoder. Leaves 1 and 0x80000001 each get only the feature decoder. |
| Registry.UngatedAlwaysApply | handlers.c:52-79 | The decoders that act in every session are exactly the dumpers and the base, feature and name decoders. They are also exactly the ones that act for an unknown vendor without a hypervisor. |
| Registry.SessionDecoders | handlers.c:157-679 | Per session, the decoders that act: Intel adds cache descriptors, serial number, leaf 4, leaf 0xB and the L2 decoder; AMD adds the L1 and L2 decoders; Transmeta the serial number; Cyrix the cache descriptors; Xen its three leaves; VMware its frequency leaf. |
| State.ProgressClosed | handlers.c:243-298 | After some passes none of which ended the loop, the answers so far all failed the end test, each was printed, and sub-leaves 0, 1, … were invoked in order. |
| State.FinishedClosed | handlers.c:243-298 | A finished loop stopped at its first stop, printed exactly what the loop specification prints for its answers, and invoked sub-leaves 0 to n-1. |
| State.Cache02Rounds | handlers.c:158 | The repeat count of leaf 2 is the low byte of EAX, below 256. |
| State.CpuidState.CpuidCall | handlers.c:166 | One invocation answers the oracle's frame for the input EAX/ECX, records EAX as the last leaf and logs the pair. |
| State.CpuidState.Invoke | handlers.c:247-250 | ZERO_REGS followed by setting the leaf and sub-leaf gives the oracle's answer for that pair. |
| State.CpuidState.Pass | handlers.c:247-258 | One pass invokes the sub-leaf. It prints the answer's record, unless the loop skips all-zero answers and this one is all zero. |
| State.CpuidState.Enumerate | handlers.c:243-298 | The loop ends at the first stopping sub-leaf. It appends exactly what the loop specification prints and logs sub-leaves 0 to n-1 of its leaf. |
| State.CpuidState.DumpBase | handlers.c:82-86 | The range maximum becomes EAX, and the frame is dumped. |
| State.CpuidState.StdBase | handlers.c:89-107 | The range maximum becomes EAX, and the vendor is identified from EBX, EDX, ECX. |
| State.CpuidState.Features | handlers.c:110-154 | For leaf 1 the signature is stored and printed with the EBX byte fields. Both leaves print the feature flags. |
| State.CpuidState.StdCache02 | handlers.c:157-171 | On Intel and Cyrix: a heading, the descriptors at hand, then leaf 2 invoked and printed m-1 more times (m is the low byte of the first EAX). Otherwise nothing. |
| State.CpuidState.Redescribe | handlers.c:163-168 | Each further round invokes leaf 2 and prints its descriptors: the output gains the descriptors of leaf 2 once per round, and the log one leaf-2 call per round. |
| State.CpuidState.StdPsn | handlers.c:174-201 | On Intel and Transmeta leaf 1 is invoked. The serial number is "disabled" unless EDX bit 18 is set. Otherwise leaf 3 is invoked and the number printed: as four registers for Transmeta, as six 16-bit halves for Intel. |
| State.CpuidState.StdCache04 | handlers.c:218-299 | On Intel: a heading, then exactly what the leaf-4 decoding loop specification prints. Otherwise nothing changes. |
| State.CpuidState.DumpStd04 | handlers.c:302-315 | Every leaf-4 sub-leaf is dumped up to and including the first with a null cache type. |
| State.CpuidState.StdX2apic | handlers.c:331-361 | On Intel with a non-zero EAX: a heading, then exactly what the leaf-0xB decoding loop specification prints. Otherwise nothing changes. |
| State.CpuidState.DumpStd0B | handlers.c:364-377 | Every leaf-0xB sub-leaf is dumped up to and including the first with EAX and EBX zero. |
| State.CpuidState.ExtBase | handlers.c:380-383 | The range maximum becomes EAX. |
| State.CpuidState.StoreWord | handlers.c:392 | A 32-bit store writes the register's four little-endian bytes at the offset and nothing else. |
| State.CpuidState.ClearName | handlers.c:389-390 | The memset leaves the 48-byte buffer all zero. |
| State.CpuidState.StorePart | handlers.c:392-395 | The four stores write the frame's 16 bytes at the offset and nothing else. |
| State.CpuidState.ExtPname | handlers.c:386-402 | The buffer becomes the name step of its old contents for this leaf's offset. The name is printed exactly after the part at offset 32. |
| State.CpuidState.ExtAmdL1CacheFeat | handlers.c:421-480 | On AMD: a heading, then the L1 TLB and cache lines whose sizes are non-zero. Otherwise nothing. |
| State.CpuidState.ExtL2CacheFeat | handlers.c:483-606 | On Intel: one L2 line. On AMD: a heading and the non-zero L2 TLB, L2 and L3 lines. Otherwise nothing. |
| State.CpuidState.VmmBase | handlers.c:616-640 | The range maximum becomes EAX and the hypervisor is identified from EBX, ECX, EDX. The result is printed unless the hypervisor is unknown. |
| State.CpuidState.XenVersion | handlers.c:643-648 | On Xen: the major and minor version, the two halves of EAX. |
| State.CpuidState.XenLeaf02 | handlers.c:651-660 | On Xen: the hypercall page count (EAX) and the MSR base (EBX). |
| State.CpuidState.XenLeaf03 | handlers.c:663-668 | On Xen: the host clock, EAX kHz shown in whole MHz. |
| State.CpuidState.VmwareLeaf10 | handlers.c:671-679 | On VMware: the TSC and bus frequencies in kHz. |
| State.CpuidState.Dispatch | handlers.c:52-79 | A registered decoder whose vendor or hypervisor condition fails leaves every field of the session, the name buffer and the registers unchanged. |

## Left out

- The cpuid instruction, `cpuid_call` and `cpuid_print` are outside `handlers.c`. The instruction is a deterministic oracle from (leaf, sub-leaf) to a frame. `cpuid_print` is a `RawDump` record of the frame.
- State.CpuidState.CpuidCall: `cpuid_call` is not part of this model. The model assumes that it records the EAX it was called with as the session's last leaf, which the name decoder reads (handlers.c:388). `Invoke`, `Pass`, `Enumerate` and every decoder that calls it inherit this assumption.
- State.CpuidState.constructor: the initial session values are set outside `handlers.c`. The model assumes an unknown vendor, no hypervisor, zero maximum, signature and last leaf, and an empty output and invocation log.
- `print_features`, `print_intel_caches` and `squeeze` are not part of this model. Their output is an opaque record holding the frame (or the name buffer). The signature that `print_intel_caches` also reads is not carried.
- printf formatting (field widths, hexadecimal, blank lines) is not modelled. Each group of printed facts is a typed record holding the values printed.
- The warning for miscompiled bit-field structures (handlers.c:238-241) cannot fire under the layouts modelled here, so it is left out.
- `handle_dump_vmm_base` (handlers.c:609-613) is left out: it is not registered in either table.
- The traversal driver that walks the ranges and calls `Dispatch` for each registered decoder is outside `handlers.c`. The model states what one dispatch does, not the whole walk.
- State.CpuidState.Enumerate: requires that some sub-leaf eventually ends the loop. The C loop would run forever on a processor where none does, and that case is not modelled.
- State.CpuidState.ExtPname: the buffer and the printed name are given as they were before `squeeze`. `squeeze` rewrites the buffer in place before it is printed (handlers.c:399-400), and that rewrite is not modelled.
- State.CpuidState.ExtPname: requires that the last leaf is one of the three name leaves. The registry calls the name decoder only for those leaves, and the traversal invokes the leaf just before the decoder runs; with the `CpuidCall` assumption above, that leaf is the last leaf. A stray leaf would write outside the buffer in C; `ProcName.PartOffsetInBuffer` states which leaves stay inside.
- Registry.Applies: the C tests a vendor bit mask with `&`. A session has a single vendor, so the mask is read as membership in the listed vendors.
- Records.Cache04Bytes: C multiplies the bit-field counts partly as `int` before converting to `uint32_t`. An intermediate product at or above 2^31 is undefined behaviour in C; the model takes the whole product modulo 2^32.
- SubLeaf.SubLeafId: the 32-bit sub-leaf counter is modelled by repeated 32-bit increments. It is not restated as a closed form modulo 2^32.
- SubLeaf.Stops: each C loop breaks in two places (the all-zero test before printing, the termination test after). The model combines them into one end test, `Ends`, and the printing rule `Last`.
- State.CpuidState.VmwareLeaf10: the floating-point MHz conversion of the two frequencies is not modelled; the raw kHz values are kept.
- State.CpuidState.StdCache02: the C counter is a `uint8_t`. Because m is at most 255, it never wraps, so the model counts with a `nat`.

Three places where the code departs from what its comments or the vendors' documents lead one to expect; the model follows the code in each:

- On AMD, the extended model is added when the base model is 0xF (handlers.c:128-129). AMD's CPUID specification adds it when the base family is 0xF.
- The AMD L2 TLB associativity fields are rendered by `amd_associativity`, the byte rendering written for the L1 leaf (handlers.c:571-581). They are not looked up in the 4-bit associativity table of the same function (handlers.c:523-540).
- Leaf 0x40000003 is registered twice, once for Xen and once for VMware (handlers.c:66-67). The comment above the VMware decoder names leaf 0x40000010 (handlers.c:670), but the model keeps the table as written.
