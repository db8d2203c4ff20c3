/**
 * The session state every decoder of handlers.c reads and updates (struct cpuid_state_t;
 * state.h is not part of this model) and the decoders themselves, as methods that
 * change it. The CPUID instruction is a deterministic oracle from (leaf, sub-leaf) to a
 * register frame; what the decoders print is appended to `out` as records.
 */
module State {
  import opened Frames
  import opened Identity
  import opened Records
  import opened SubLeaf
  import opened ProcName
  import Registry

  /** The same value `n` times over. */
  function Repeat<T>(x: T, n: nat): (r: seq<T>)
    ensures |r| == n && forall i :: 0 <= i < n ==> r[i] == x
  {
    seq(n, _ => x)
  }

  /** The invocations made by the first `n` passes of a loop over `leaf`, in order. */
  function Queries(leaf: bv32, n: nat): (qs: seq<(bv32, bv32)>)
    ensures |qs| == n
  {
    if n == 0 then [] else Queries(leaf, n - 1) + [(leaf, SubLeafId(n - 1))]
  }

  /** Concatenation is associative; used to extend the output and invocation logs. */
  lemma AppendAssoc<T>(a: seq<T>, b: seq<T>, c: seq<T>)
    ensures a + b + c == a + (b + c)
  {
  }

  /** Some sub-leaf of the loop's leaf ends the loop. */
  ghost predicate Terminates(cpuid: (bv32, bv32) -> Frame, lp: Loop)
  {
    exists k: nat :: Ends(lp, cpuid(lp.leaf, SubLeafId(k)))
  }

  /**
   * The state of a sub-leaf loop after `count` passes none of which ended it, pass by
   * pass: pass j invoked sub-leaf j of the loop's leaf, its answer did not end the loop,
   * and the answer's record was printed.
   */
  ghost predicate Progress(cpuid: (bv32, bv32) -> Frame, lp: Loop, count: nat, printed: seq<Record>, asked: seq<(bv32, bv32)>)
    decreases count
  {
    |printed| == count && |asked| == count &&
    (count == 0 ||
      var f := cpuid(lp.leaf, SubLeafId(count - 1));
      !Ends(lp, f) && printed[count - 1] == lp.emit(f) && asked[count - 1] == (lp.leaf, SubLeafId(count - 1)) &&
      Progress(cpuid, lp, count - 1, printed[..count - 1], asked[..count - 1]))
  }

  /**
   * The state of a sub-leaf loop that ended at pass `n`: the passes before it made
   * progress, and pass `n` invoked its sub-leaf, whose answer ended the loop and was
   * printed unless the loop skips it as all zero.
   */
  ghost predicate Finished(cpuid: (bv32, bv32) -> Frame, lp: Loop, n: nat, printed: seq<Record>, asked: seq<(bv32, bv32)>)
  {
    0 < n && |asked| == n && n - 1 <= |printed| &&
    Progress(cpuid, lp, n - 1, printed[..n - 1], asked[..n - 1]) &&
    var f := cpuid(lp.leaf, SubLeafId(n - 1));
    Ends(lp, f) && asked[n - 1] == (lp.leaf, SubLeafId(n - 1)) && printed[n - 1..] == EmitAll(lp.emit, Last(lp, f))
  }

  /** `s` is `t` followed by `x` exactly when it has one more element, `t` then `x`. */
  lemma SnocEq<T>(s: seq<T>, t: seq<T>, x: T)
    ensures s == t + [x] <==> |s| == |t| + 1 && s[..|t|] == t && s[|t|] == x
  {
    if |s| == |t| + 1 && s[..|t|] == t && s[|t|] == x {
      assert s == s[..|t|] + [s[|t|]];
    }
  }

  /** `s` is `t` followed by `u` exactly when it starts with `t` and goes on with `u`. */
  lemma AppendEq<T>(s: seq<T>, t: seq<T>, u: seq<T>)
    ensures s == t + u <==> |t| <= |s| && s[..|t|] == t && s[|t|..] == u
  {
    if |t| <= |s| && s[..|t|] == t && s[|t|..] == u {
      assert s == s[..|t|] + s[|t|..];
    }
  }

  /**
   * Progress in closed form: no answer so far ended the loop, every answer was printed
   * and the invocations were sub-leaves 0 to count-1.
   */
  lemma {:induction false} ProgressClosed(cpuid: (bv32, bv32) -> Frame, lp: Loop, count: nat,
                                          printed: seq<Record>, asked: seq<(bv32, bv32)>)
    ensures Progress(cpuid, lp, count, printed, asked) <==>
      var fs := Answers(cpuid, lp.leaf, count);
      NoneEnded(lp, fs) && printed == EmitAll(lp.emit, fs) && asked == Queries(lp.leaf, count)
    decreases count
  {
    if count > 0 {
      var before := Answers(cpuid, lp.leaf, count - 1);
      var f := cpuid(lp.leaf, SubLeafId(count - 1));
      var q := (lp.leaf, SubLeafId(count - 1));
      assert Answers(cpuid, lp.leaf, count) == before + [f];
      assert Queries(lp.leaf, count) == Queries(lp.leaf, count - 1) + [q];
      EmitAllSnoc(lp.emit, before, f);
      assert EmitAll(lp.emit, [f]) == [lp.emit(f)];
      NoneEndedSnoc(lp, before, f);
      SnocEq(printed, EmitAll(lp.emit, before), lp.emit(f));
      SnocEq(asked, Queries(lp.leaf, count - 1), q);
      if |printed| == count && |asked| == count {
        ProgressClosed(cpuid, lp, count - 1, printed[..count - 1], asked[..count - 1]);
      }
    }
  }

  /** The first n answers end the loop first at pass n exactly when none before ends it and pass n does. */
  lemma FirstStopSnoc(lp: Loop, fs: seq<Frame>, f: Frame)
    ensures IsFirstStop(lp, fs + [f], |fs|) <==> NoneEnded(lp, fs) && Ends(lp, f)
  {
    assert forall j :: 0 <= j < |fs| ==> (fs + [f])[j] == fs[j];
  }

  /**
   * Finished pass by pass: the passes before the last made progress, and the last pass
   * ended the loop, printed what `Last` says and invoked its sub-leaf.
   */
  lemma FinishedSnoc(cpuid: (bv32, bv32) -> Frame, lp: Loop, n: nat, printed: seq<Record>, asked: seq<(bv32, bv32)>)
    requires 0 < n
    ensures Finished(cpuid, lp, n, printed, asked) <==>
      var before := Answers(cpuid, lp.leaf, n - 1);
      var f := cpuid(lp.leaf, SubLeafId(n - 1));
      NoneEnded(lp, before) && Ends(lp, f) &&
      printed == EmitAll(lp.emit, before) + EmitAll(lp.emit, Last(lp, f)) &&
      asked == Queries(lp.leaf, n - 1) + [(lp.leaf, SubLeafId(n - 1))]
  {
    var before := Answers(cpuid, lp.leaf, n - 1);
    var f := cpuid(lp.leaf, SubLeafId(n - 1));
    AppendEq(printed, EmitAll(lp.emit, before), EmitAll(lp.emit, Last(lp, f)));
    SnocEq(asked, Queries(lp.leaf, n - 1), (lp.leaf, SubLeafId(n - 1)));
    if |asked| == n && n - 1 <= |printed| {
      ProgressClosed(cpuid, lp, n - 1, printed[..n - 1], asked[..n - 1]);
    }
  }

  /**
   * Finished in closed form: the last pass is the first whose answer ends the loop, what
   * was printed is `Run` of the answers, and the invocations were sub-leaves 0 to n-1.
   */
  lemma FinishedClosed(cpuid: (bv32, bv32) -> Frame, lp: Loop, n: nat, printed: seq<Record>, asked: seq<(bv32, bv32)>)
    ensures Finished(cpuid, lp, n, printed, asked) <==>
      var fs := Answers(cpuid, lp.leaf, n);
      0 < n && IsFirstStop(lp, fs, n - 1) && printed == Run(lp, fs) && asked == Queries(lp.leaf, n)
  {
    if 0 < n {
      var before := Answers(cpuid, lp.leaf, n - 1);
      var f := cpuid(lp.leaf, SubLeafId(n - 1));
      assert Answers(cpuid, lp.leaf, n) == before + [f];
      FirstStopSnoc(lp, before, f);
      FinishedSnoc(cpuid, lp, n, printed, asked);
      if NoneEnded(lp, before) && Ends(lp, f) {
        RunLastStep(lp, before, f);
      }
    }
  }

  /** One more copy of `x` goes at the end. */
  lemma RepeatSnoc<T>(x: T, n: nat)
    ensures Repeat(x, n + 1) == Repeat(x, n) + [x]
  {
  }

  /**
   * The number of times leaf 2 must be invoked to get all descriptors: the low byte of
   * its first EAX (handlers.c:158), 0 to 255.
   */
  function Cache02Rounds(eax: bv32): (m: nat)
    ensures m < 256
  {
    (eax & 0xFF) as nat
  }

  /**
   * The session state of handlers.c and the decoders that act on it. A decoder that
   * invokes the instruction leaves its last answer in `regs` and its leaf in `lastLeaf`;
   * those are scratch values that nothing reads before the traversal invokes the
   * instruction again, so the decoders' contracts do not give them.
   */
  class CpuidState {
    var vendor: Vendor
    var hypervisor: Hypervisor
    /** Highest leaf of the range being traversed, as its base leaf reports it. */
    var curmax: bv32
    /** The leaf-1 signature, stored as the raw EAX it is overlaid on. */
    var sig: bv32
    /** EAX of the most recent invocation (last_leaf.eax). */
    var lastLeaf: bv32
    /** The processor name accumulator. */
    const procname: array<bv8>
    /** Everything printed so far. */
    var out: seq<Record>
    /** Every (leaf, sub-leaf) the instruction was invoked with, in order. */
    ghost var calls: seq<(bv32, bv32)>
    /** The CPUID instruction. */
    const cpuid: (bv32, bv32) -> Frame

    predicate Valid()
      reads this
    {
      procname.Length == NameLength
    }

    constructor (cpuid: (bv32, bv32) -> Frame)
      ensures Valid() && fresh(procname)
      ensures vendor == UnknownVendor && hypervisor == NotPresent
      ensures curmax == 0 && sig == 0 && lastLeaf == 0
      ensures out == [] && calls == [] && this.cpuid == cpuid
    {
      vendor, hypervisor := UnknownVendor, NotPresent;
      curmax, sig, lastLeaf := 0, 0, 0;
      procname := new bv8[NameLength](_ => 0);
      out, calls := [], [];
      this.cpuid := cpuid;
    }

    /**
     * cpuid_call: run the instruction with the inputs in `regs`, overwrite `regs` with the
     * answer and remember the inputs as the last leaf.
     */
    method CpuidCall(regs: Regs)
      modifies regs, this`calls, this`lastLeaf
      ensures regs.Value() == cpuid(old(regs.eax), old(regs.ecx))
      ensures lastLeaf == old(regs.eax)
      ensures calls == old(calls) + [(old(regs.eax), old(regs.ecx))]
    {
      var f := cpuid(regs.eax, regs.ecx);
      calls := calls + [(regs.eax, regs.ecx)];
      lastLeaf := regs.eax;
      regs.eax, regs.ebx, regs.ecx, regs.edx := f.eax, f.ebx, f.ecx, f.edx;
    }

    /** ZERO_REGS, then the leaf and sub-leaf inputs, then cpuid_call. */
    method Invoke(regs: Regs, leaf: bv32, subleaf: bv32)
      modifies regs, this`calls, this`lastLeaf
      ensures regs.Value() == cpuid(leaf, subleaf)
      ensures lastLeaf == leaf
      ensures calls == old(calls) + [(leaf, subleaf)]
    {
      regs.Zero();
      regs.eax := leaf;
      regs.ecx := subleaf;
      CpuidCall(regs);
    }

    /**
     * One pass of a sub-leaf loop (handlers.c:248-255, 307-310, 340-345, 369-372): invoke
     * the sub-leaf, then print the answer unless the loop skips it as all zero.
     */
    method Pass(lp: Loop, regs: Regs, subleaf: bv32) returns (f: Frame)
      modifies regs, this`out, this`calls, this`lastLeaf
      ensures f == cpuid(lp.leaf, subleaf) && regs.Value() == f
      ensures calls == old(calls) + [(lp.leaf, subleaf)] && lastLeaf == lp.leaf
      ensures out == old(out) + EmitAll(lp.emit, Last(lp, f))
    {
      Invoke(regs, lp.leaf, subleaf);
      f := regs.Value();
      if lp.skipsZero && AllZero(f) {
        return;
      }
      out := out + [lp.emit(f)];
    }

    /**
     * The sub-leaf loop of handle_std_cache04, handle_dump_std_04, handle_std_x2apic and
     * handle_dump_std_0B (handlers.c:243-298, 305-314, 339-360, 367-376): sub-leaf i = 0,
     * 1, ... is invoked; a decoder leaves the loop before printing an all-zero answer;
     * otherwise the answer is printed and the loop ends if it passes the termination test.
     * It ends at the first sub-leaf that ends it, having invoked exactly the sub-leaves up
     * to it and printed what `Run` says (`FinishedClosed`).
     */
    method Enumerate(lp: Loop, regs: Regs) returns (ghost n: nat, ghost printed: seq<Record>, ghost asked: seq<(bv32, bv32)>)
      requires Terminates(cpuid, lp)
      modifies regs, this`out, this`calls, this`lastLeaf
      ensures Finished(cpuid, lp, n, printed, asked)
      ensures out == old(out) + printed && calls == old(calls) + asked
      ensures lastLeaf == lp.leaf
    {
      ghost var k: nat :| Ends(lp, cpuid(lp.leaf, SubLeafId(k)));
      ghost var out0, calls0 := out, calls;
      printed, asked := [], [];
      var i: bv32 := 0;
      ghost var count: nat := 0;
      while true
        invariant count <= k && i == SubLeafId(count)
        invariant Progress(cpuid, lp, count, printed, asked)
        invariant out == out0 + printed && calls == calls0 + asked
        decreases k - count
      {
        var stop;
        stop, printed, asked := Step(lp, regs, i, count, k, printed, asked, out0, calls0);
        if stop {
          n := count + 1;
          return;
        }
        i, count := i + 1, count + 1;
      }
    }

    /** The loop body of `Enumerate`: one pass, and whether it ended the loop. */
    method Step(lp: Loop, regs: Regs, i: bv32, ghost count: nat, ghost k: nat, ghost printed: seq<Record>,
                ghost asked: seq<(bv32, bv32)>, ghost out0: seq<Record>, ghost calls0: seq<(bv32, bv32)>)
      returns (stop: bool, ghost printed': seq<Record>, ghost asked': seq<(bv32, bv32)>)
      requires count <= k && i == SubLeafId(count) && Ends(lp, cpuid(lp.leaf, SubLeafId(k)))
      requires Progress(cpuid, lp, count, printed, asked)
      requires out == out0 + printed && calls == calls0 + asked
      modifies regs, this`out, this`calls, this`lastLeaf
      ensures out == out0 + printed' && calls == calls0 + asked' && lastLeaf == lp.leaf
      ensures stop ==> Finished(cpuid, lp, count + 1, printed', asked')
      ensures !stop ==> count + 1 <= k && i + 1 == SubLeafId(count + 1) && Progress(cpuid, lp, count + 1, printed', asked')
    {
      var f := Pass(lp, regs, i);
      printed', asked' := printed + EmitAll(lp.emit, Last(lp, f)), asked + [(lp.leaf, i)];
      AppendAssoc(calls0, asked, [(lp.leaf, i)]);
      AppendAssoc(out0, printed, EmitAll(lp.emit, Last(lp, f)));
      stop := Ends(lp, f);
      assert printed'[..count] == printed && asked'[..count] == asked;
      if !stop {
        assert printed'[count] == lp.emit(f);
      }
    }

    /** handle_dump_base (handlers.c:82-86): record the range maximum and dump the frame. */
    method DumpBase(regs: Regs)
      modifies this`curmax, this`out
      ensures curmax == regs.eax
      ensures out == old(out) + [RawDump(regs.Value(), false)]
    {
      curmax := regs.eax;
      out := out + [RawDump(regs.Value(), false)];
    }

    /**
     * handle_std_base (handlers.c:89-107): record the range maximum and identify the
     * vendor from EBX, EDX, ECX; nothing is printed.
     */
    method StdBase(regs: Regs)
      modifies this`curmax, this`vendor
      ensures curmax == regs.eax
      ensures vendor == VendorOf(regs.ebx, regs.ecx, regs.edx)
    {
      curmax := regs.eax;
      vendor := VendorOf(regs.ebx, regs.ecx, regs.edx);
    }

    /**
     * handle_features (handlers.c:110-154): for leaf 1 only, store the signature and print
     * it with the EBX byte fields; for leaves 1 and 0x80000001 print the feature flags.
     */
    method Features(regs: Regs)
      modifies this`sig, this`out
      ensures lastLeaf == 1 ==> (sig == regs.eax &&
        out == old(out) + [SignatureRecord(vendor, regs.eax), ApicInfoOf(regs.ebx), FeatureFlags(regs.Value())])
      ensures lastLeaf != 1 ==> sig == old(sig) && out == old(out) + [FeatureFlags(regs.Value())]
    {
      if lastLeaf == 1 {
        sig := regs.eax;
        out := out + [SignatureRecord(vendor, sig), ApicInfoOf(regs.ebx)];
      }
      out := out + [FeatureFlags(regs.Value())];
    }

    /**
     * handle_std_cache02 (handlers.c:157-171), Intel and Cyrix only: print the
     * descriptors of the frame at hand, then invoke leaf 2 again m-1 times, m being the
     * low byte of the first EAX, and print each answer's descriptors.
     */
    method StdCache02(regs: Regs)
      modifies regs, this`out, this`calls, this`lastLeaf
      ensures vendor != Intel && vendor != Cyrix ==>
        unchanged(this) && regs.Value() == old(regs.Value())
      ensures vendor == Intel || vendor == Cyrix ==>
        var m := Cache02Rounds(old(regs.eax));
        var again := if m == 0 then 0 else m - 1;
        out == old(out) + [Heading("Cache descriptors"), CacheDescriptors(old(regs.Value()))] +
               Repeat(CacheDescriptors(cpuid(2, 0)), again) &&
        calls == old(calls) + Repeat((2 as bv32, 0 as bv32), again)
    {
      if vendor != Intel && vendor != Cyrix {
        return;
      }
      var m := Cache02Rounds(regs.eax);
      var again := if m == 0 then 0 else m - 1;
      out := out + [Heading("Cache descriptors"), CacheDescriptors(regs.Value())];
      Redescribe(regs, again);
    }

    /**
     * The further rounds of leaf 2 (handlers.c:163-168): each invokes leaf 2 again and
     * prints its descriptors.
     */
    method Redescribe(regs: Regs, rounds: nat)
      modifies regs, this`out, this`calls, this`lastLeaf
      ensures out == old(out) + Repeat(CacheDescriptors(cpuid(2, 0)), rounds)
      ensures calls == old(calls) + Repeat((2 as bv32, 0 as bv32), rounds)
    {
      ghost var out0, calls0 := out, calls;
      var i: nat := 0;
      while i < rounds
        invariant i <= rounds
        invariant out == out0 + Repeat(CacheDescriptors(cpuid(2, 0)), i)
        invariant calls == calls0 + Repeat((2 as bv32, 0 as bv32), i)
      {
        Invoke(regs, 2, 0);
        out := out + [CacheDescriptors(regs.Value())];
        RepeatSnoc(CacheDescriptors(cpuid(2, 0)), i);
        RepeatSnoc((2 as bv32, 0 as bv32), i);
        i := i + 1;
      }
    }

    /**
     * handle_std_psn (handlers.c:174-201), Intel and Transmeta only: leaf 1 EDX bit 18
     * says whether the serial number is enabled; if so leaf 3 is invoked and the number
     * printed, as four registers for Transmeta and as six 16-bit halves (leaf 1 EAX, leaf 3
     * EDX, leaf 3 ECX) for Intel.
     */
    method StdPsn(regs: Regs)
      modifies regs, this`out, this`calls, this`lastLeaf
      ensures vendor != Intel && vendor != Transmeta ==>
        unchanged(this) && regs.Value() == old(regs.Value())
      ensures (vendor == Intel || vendor == Transmeta) && cpuid(1, 0).edx & 0x4_0000 == 0 ==>
        out == old(out) + [SerialDisabled] && calls == old(calls) + [(1, 0)]
      ensures (vendor == Intel || vendor == Transmeta) && cpuid(1, 0).edx & 0x4_0000 != 0 ==>
        calls == old(calls) + [(1, 0), (3, 0)]
      ensures vendor == Transmeta && cpuid(1, 0).edx & 0x4_0000 != 0 ==>
        var l3 := cpuid(3, 0);
        out == old(out) + [SerialNumber([l3.eax, l3.ebx, l3.ecx, l3.edx])]
      ensures vendor == Intel && cpuid(1, 0).edx & 0x4_0000 != 0 ==>
        out == old(out) + [SerialNumber(Halves(cpuid(1, 0).eax) + Halves(cpuid(3, 0).edx) + Halves(cpuid(3, 0).ecx))]
    {
      if vendor != Intel && vendor != Transmeta {
        return;
      }
      Invoke(regs, 1, 0);
      if regs.edx & 0x4_0000 == 0 {
        out := out + [SerialDisabled];
        return;
      }
      if vendor == Transmeta {
        Invoke(regs, 3, 0);
        out := out + [SerialNumber([regs.eax, regs.ebx, regs.ecx, regs.edx])];
      } else {
        var serEax := regs.eax;
        Invoke(regs, 3, 0);
        out := out + [SerialNumber(Halves(serEax) + Halves(regs.edx) + Halves(regs.ecx))];
      }
    }

    /**
     * handle_std_cache04 (handlers.c:218-299), Intel only: a heading, then every cache
     * level of leaf 4 up to the first null cache type, an all-zero answer ending the list
     * unprinted.
     */
    method StdCache04(regs: Regs) returns (ghost n: nat, ghost printed: seq<Record>, ghost asked: seq<(bv32, bv32)>)
      requires vendor == Intel ==> Terminates(cpuid, LoopOf(Cache04))
      modifies regs, this`out, this`calls, this`lastLeaf
      ensures vendor != Intel ==> unchanged(this) && regs.Value() == old(regs.Value())
      ensures vendor == Intel ==>
        Finished(cpuid, LoopOf(Cache04), n, printed, asked) &&
        out == old(out) + [Heading("Deterministic Cache Parameters")] + printed && calls == old(calls) + asked
    {
      n, printed, asked := 0, [], [];
      if vendor != Intel {
        return;
      }
      out := out + [Heading("Deterministic Cache Parameters")];
      n, printed, asked := Enumerate(LoopOf(Cache04), regs);
    }

    /** handle_dump_std_04 (handlers.c:302-315): every sub-leaf of leaf 4 dumped, up to the first null cache type. */
    method DumpStd04(regs: Regs) returns (ghost n: nat, ghost printed: seq<Record>, ghost asked: seq<(bv32, bv32)>)
      requires Terminates(cpuid, LoopOf(Dump04))
      modifies regs, this`out, this`calls, this`lastLeaf
      ensures Finished(cpuid, LoopOf(Dump04), n, printed, asked)
      ensures out == old(out) + printed && calls == old(calls) + asked
    {
      n, printed, asked := Enumerate(LoopOf(Dump04), regs);
    }

    /**
     * handle_std_x2apic (handlers.c:331-361), Intel only and only when leaf 0xB reported a
     * non-zero EAX: a heading, then every topology level up to the first with EAX and EBX
     * both zero, an all-zero answer ending the list unprinted.
     */
    method StdX2apic(regs: Regs) returns (ghost n: nat, ghost printed: seq<Record>, ghost asked: seq<(bv32, bv32)>)
      requires vendor == Intel && regs.eax != 0 ==> Terminates(cpuid, LoopOf(X2apic))
      modifies regs, this`out, this`calls, this`lastLeaf
      ensures vendor != Intel || old(regs.eax) == 0 ==>
        unchanged(this) && regs.Value() == old(regs.Value())
      ensures vendor == Intel && old(regs.eax) != 0 ==>
        Finished(cpuid, LoopOf(X2apic), n, printed, asked) &&
        out == old(out) + [Heading("Processor Topology")] + printed && calls == old(calls) + asked
    {
      n, printed, asked := 0, [], [];
      if vendor != Intel {
        return;
      }
      if regs.eax == 0 {
        return;
      }
      out := out + [Heading("Processor Topology")];
      n, printed, asked := Enumerate(LoopOf(X2apic), regs);
    }

    /** handle_dump_std_0B (handlers.c:364-377): every sub-leaf of leaf 0xB dumped, up to the first with EAX and EBX zero. */
    method DumpStd0B(regs: Regs) returns (ghost n: nat, ghost printed: seq<Record>, ghost asked: seq<(bv32, bv32)>)
      requires Terminates(cpuid, LoopOf(Dump0B))
      modifies regs, this`out, this`calls, this`lastLeaf
      ensures Finished(cpuid, LoopOf(Dump0B), n, printed, asked)
      ensures out == old(out) + printed && calls == old(calls) + asked
    {
      n, printed, asked := Enumerate(LoopOf(Dump0B), regs);
    }

    /** handle_ext_base (handlers.c:380-383): record the extended range maximum. */
    method ExtBase(regs: Regs)
      modifies this`curmax
      ensures curmax == regs.eax
    {
      curmax := regs.eax;
    }

    /** One 32-bit little-endian store into the name buffer. */
    method StoreWord(at: nat, x: bv32)
      requires Valid() && at + 4 <= NameLength
      modifies procname
      ensures procname[..] == Splice(old(procname[..]), at, Lanes(x))
    {
      var b := Lanes(x);
      procname[at], procname[at + 1], procname[at + 2], procname[at + 3] := b[0], b[1], b[2], b[3];
      assert procname[..] == Splice(old(procname[..]), at, b);
    }

    /** The memset of the name buffer (handlers.c:389-390). */
    method ClearName()
      requires Valid()
      modifies procname
      ensures procname[..] == Zeroes(NameLength)
    {
      forall j | 0 <= j < NameLength {
        procname[j] := 0;
      }
    }

    /** The four 32-bit stores of one part (handlers.c:392-395), EAX first. */
    method StorePart(at: nat, f: Frame)
      requires Valid() && at + 16 <= NameLength
      modifies procname
      ensures procname[..] == Splice(old(procname[..]), at, FrameBytes(f))
    {
      ghost var b := procname[..];
      var w0, w1, w2, w3 := Lanes(f.eax), Lanes(f.ebx), Lanes(f.ecx), Lanes(f.edx);
      StoreWord(at, f.eax);
      StoreWord(at + 4, f.ebx);
      SpliceAdjacent(b, at, w0, w1);
      StoreWord(at + 8, f.ecx);
      SpliceAdjacent(b, at, w0 + w1, w2);
      StoreWord(at + 12, f.edx);
      SpliceAdjacent(b, at, w0 + w1 + w2, w3);
    }

    /**
     * handle_ext_pname (handlers.c:386-402): the part for the last leaf goes to offset
     * (leaf - 0x80000002) * 16, the buffer being cleared first at offset 0; after the last
     * part byte 47 is forced to NUL and the name is printed.
     */
    method ExtPname(regs: Regs)
      requires Valid() && IsNameLeaf(lastLeaf)
      modifies procname, this`out
      ensures procname[..] == PnameStep(old(procname[..]), PartOffset(lastLeaf) as nat, regs.Value())
      ensures PartOffset(lastLeaf) == 32 ==> out == old(out) + [ProcessorName(procname[..])]
      ensures PartOffset(lastLeaf) != 32 ==> out == old(out)
    {
      var base := PartOffset(lastLeaf);
      NameLeafOffsets(lastLeaf);
      if base == 0 {
        ClearName();
      }
      ghost var stored := Splice(procname[..], base as nat, FrameBytes(regs.Value()));
      StorePart(base as nat, regs.Value());
      if base == 32 {
        procname[47] := 0;
        assert procname[..] == stored[..47] + [0];
        out := out + [ProcessorName(procname[..])];
      }
    }

    /** handle_ext_amdl1cachefeat (handlers.c:421-480), AMD only: the L1 TLB and cache lines. */
    method ExtAmdL1CacheFeat(regs: Regs)
      modifies this`out
      ensures vendor != Amd ==> unchanged(this)
      ensures vendor == Amd ==> out == old(out) + [Heading("L1 TLBs")] + AmdL1Records(regs.Value())
    {
      if vendor != Amd {
        return;
      }
      out := out + [Heading("L1 TLBs")] + AmdL1Records(regs.Value());
    }

    /**
     * handle_ext_l2cachefeat (handlers.c:483-606): the Intel L2 line from ECX, or the AMD
     * L2 TLB, L2 and L3 lines; other vendors print nothing.
     */
    method ExtL2CacheFeat(regs: Regs)
      modifies this`out
      ensures vendor == Intel ==> out == old(out) + [IntelL2Record(regs.ecx)]
      ensures vendor == Amd ==> out == old(out) + [Heading("L2 TLBs")] + AmdL2Records(regs.Value())
      ensures vendor != Intel && vendor != Amd ==> unchanged(this)
    {
      if vendor == Intel {
        out := out + [IntelL2Record(regs.ecx)];
      }
      if vendor == Amd {
        out := out + [Heading("L2 TLBs")] + AmdL2Records(regs.Value());
      }
    }

    /**
     * handle_vmm_base (handlers.c:616-640): record the range maximum, identify the
     * hypervisor from EBX, ECX, EDX and announce it unless it is unknown.
     */
    method VmmBase(regs: Regs)
      modifies this`curmax, this`hypervisor, this`out
      ensures curmax == regs.eax
      ensures hypervisor == HypervisorOf(regs.ebx, regs.ecx, regs.edx)
      ensures hypervisor == UnknownHypervisor ==> out == old(out)
      ensures hypervisor != UnknownHypervisor ==> out == old(out) + [HypervisorDetected(hypervisor)]
    {
      curmax := regs.eax;
      hypervisor := HypervisorOf(regs.ebx, regs.ecx, regs.edx);
      if hypervisor != UnknownHypervisor {
        out := out + [HypervisorDetected(hypervisor)];
      }
    }

    /** handle_xen_version (handlers.c:643-648), Xen only: major and minor version, the halves of EAX. */
    method XenVersion(regs: Regs)
      modifies this`out
      ensures hypervisor != Xen ==> unchanged(this)
      ensures hypervisor == Xen ==> out == old(out) + [XenRelease(Halves(regs.eax)[0], Halves(regs.eax)[1])]
    {
      if hypervisor != Xen {
        return;
      }
      out := out + [XenRelease(regs.eax >> 16, regs.eax & 0xFFFF)];
    }

    /** handle_xen_leaf02 (handlers.c:651-660), Xen only: hypercall pages (EAX) and MSR base (EBX). */
    method XenLeaf02(regs: Regs)
      modifies this`out
      ensures hypervisor != Xen ==> unchanged(this)
      ensures hypervisor == Xen ==> out == old(out) + [XenFeatures(regs.eax, regs.ebx)]
    {
      if hypervisor != Xen {
        return;
      }
      out := out + [XenFeatures(regs.eax, regs.ebx)];
    }

    /** handle_xen_leaf03 (handlers.c:663-668), Xen only: the host clock, EAX kHz in whole MHz. */
    method XenLeaf03(regs: Regs)
      modifies this`out
      ensures hypervisor != Xen ==> unchanged(this)
      ensures hypervisor == Xen ==> out == old(out) + [HostClock(regs.eax as nat / 1000)]
    {
      if hypervisor != Xen {
        return;
      }
      out := out + [HostClock(regs.eax as nat / 1000)];
    }

    /** handle_vmware_leaf10 (handlers.c:671-679), VMware only: TSC (EAX) and bus (EBX) frequencies in kHz. */
    method VmwareLeaf10(regs: Regs)
      modifies this`out
      ensures hypervisor != VMware ==> unchanged(this)
      ensures hypervisor == VMware ==> out == old(out) + [VMwareFrequencies(regs.eax, regs.ebx)]
    {
      if hypervisor != VMware {
        return;
      }
      out := out + [VMwareFrequencies(regs.eax, regs.ebx)];
    }

    /**
     * Calling a registered decoder through the table (handlers.c:36-79). A decoder that
     * does not apply to the session's vendor and hypervisor returns before touching
     * anything: the session state, the name buffer and the register frame stay as they were.
     */
    method Dispatch(h: Registry.Handler, regs: Regs)
      requires Valid()
      requires h.DumpStd04? ==> Terminates(cpuid, LoopOf(Dump04))
      requires h.DumpStd0B? ==> Terminates(cpuid, LoopOf(Dump0B))
      requires h.StdCache04? && vendor == Intel ==> Terminates(cpuid, LoopOf(Cache04))
      requires h.StdX2apic? && vendor == Intel && regs.eax != 0 ==> Terminates(cpuid, LoopOf(X2apic))
      requires h.ExtPname? ==> IsNameLeaf(lastLeaf)
      modifies this, procname, regs
      ensures !Registry.Applies(h, old(vendor), old(hypervisor)) ==>
        unchanged(this) && unchanged(procname) && regs.Value() == old(regs.Value())
    {
      match h {
        case DumpBase | DumpStd04 | DumpStd0B => DispatchDump(h, regs);
        case StdBase | Features | StdCache02 | StdPsn | StdCache04 | StdX2apic => DispatchStd(h, regs);
        case VmmBase | XenVersion | XenLeaf02 | XenLeaf03 | VmwareLeaf10 => DispatchVmm(h, regs);
        case ExtBase => ExtBase(regs);
        case ExtPname => ExtPname(regs);
        case ExtAmdL1CacheFeat | ExtL2CacheFeat => DispatchExt(h, regs);
      }
    }

    /** `Dispatch` for the raw dumpers. */
    method DispatchDump(h: Registry.Handler, regs: Regs)
      requires h.DumpBase? || h.DumpStd04? || h.DumpStd0B?
      requires h.DumpStd04? ==> Terminates(cpuid, LoopOf(Dump04))
      requires h.DumpStd0B? ==> Terminates(cpuid, LoopOf(Dump0B))
      modifies this, procname, regs
      ensures !Registry.Applies(h, old(vendor), old(hypervisor)) ==>
        unchanged(this) && unchanged(procname) && regs.Value() == old(regs.Value())
    {
      match h {
        case DumpBase => DumpBase(regs);
        case DumpStd04 => ghost var n, printed, asked := DumpStd04(regs);
        case DumpStd0B => ghost var n, printed, asked := DumpStd0B(regs);
      }
    }

    /** `Dispatch` for the decoders of the standard range. */
    method DispatchStd(h: Registry.Handler, regs: Regs)
      requires h.StdBase? || h.Features? || h.StdCache02? || h.StdPsn? || h.StdCache04? || h.StdX2apic?
      requires h.StdCache04? && vendor == Intel ==> Terminates(cpuid, LoopOf(Cache04))
      requires h.StdX2apic? && vendor == Intel && regs.eax != 0 ==> Terminates(cpuid, LoopOf(X2apic))
      modifies this, procname, regs
      ensures !Registry.Applies(h, old(vendor), old(hypervisor)) ==>
        unchanged(this) && unchanged(procname) && regs.Value() == old(regs.Value())
    {
      match h {
        case StdBase => StdBase(regs);
        case Features => Features(regs);
        case StdCache02 => StdCache02(regs);
        case StdPsn => StdPsn(regs);
        case StdCache04 => ghost var n, printed, asked := StdCache04(regs);
        case StdX2apic => ghost var n, printed, asked := StdX2apic(regs);
      }
    }

    /** `Dispatch` for the hypervisor decoders. */
    method DispatchVmm(h: Registry.Handler, regs: Regs)
      requires h.VmmBase? || h.XenVersion? || h.XenLeaf02? || h.XenLeaf03? || h.VmwareLeaf10?
      modifies this, procname, regs
      ensures !Registry.Applies(h, old(vendor), old(hypervisor)) ==>
        unchanged(this) && unchanged(procname) && regs.Value() == old(regs.Value())
    {
      match h {
        case VmmBase => VmmBase(regs);
        case XenVersion => XenVersion(regs);
        case XenLeaf02 => XenLeaf02(regs);
        case XenLeaf03 => XenLeaf03(regs);
        case VmwareLeaf10 => VmwareLeaf10(regs);
      }
    }

    /** `Dispatch` for the vendor-gated decoders of the extended range. */
    method DispatchExt(h: Registry.Handler, regs: Regs)
      requires h.ExtAmdL1CacheFeat? || h.ExtL2CacheFeat?
      modifies this, procname, regs
      ensures !Registry.Applies(h, old(vendor), old(hypervisor)) ==>
        unchanged(this) && unchanged(procname) && regs.Value() == old(regs.Value())
    {
      match h {
        case ExtAmdL1CacheFeat =>
          assert Registry.Applies(h, vendor, hypervisor) <==> vendor == Amd;
          ExtAmdL1CacheFeat(regs);
        case ExtL2CacheFeat =>
          assert Registry.Applies(h, vendor, hypervisor) <==> vendor == Intel || vendor == Amd;
          ExtL2CacheFeat(regs);
      }
    }
  }
}
