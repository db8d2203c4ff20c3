/**
 * The sub-leaf enumerations of leaves 4 and 0xB (handlers.c:218-377). Each handler asks
 * for sub-leaf 0, 1, 2, ... and prints each answer, until a termination test holds.
 * This module states, as functions of the sequence of answers, what gets printed.
 */
module SubLeaf {
  import opened Frames
  import opened Records

  /**
   * A sub-leaf loop: the leaf it enumerates, its termination test, whether it leaves
   * before printing an all-zero answer, and how it prints one answer.
   */
  datatype Loop = Loop(leaf: bv32, stops: Frame -> bool, skipsZero: bool, emit: Frame -> Record)

  /**
   * The pass that answers `f` is the loop's last: the answer is all zero and the loop
   * skips those, or it passes the termination test.
   */
  predicate Ends(lp: Loop, f: Frame)
  {
    (lp.skipsZero && AllZero(f)) || lp.stops(f)
  }

  /** The four loops: leaf 4 decoded or dumped, leaf 0xB decoded or dumped. */
  datatype Protocol = Cache04 | Dump04 | X2apic | Dump0B

  /** The leaf a loop enumerates. */
  function LeafOf(p: Protocol): bv32
  {
    if p.Cache04? || p.Dump04? then 4 else 0xB
  }

  /**
   * The official termination test, applied after a sub-leaf was printed: a null cache
   * type for leaf 4 (handlers.c:293-294, 311-312), EAX and EBX both zero for leaf 0xB
   * (handlers.c:357-358, 373-374).
   */
  predicate Stops(p: Protocol, f: Frame)
  {
    if LeafOf(p) == 4 then f.eax & 0xF == 0 else f.eax == 0 && f.ebx == 0
  }

  /**
   * The decoders (not the dumpers) also stop before printing when a sub-leaf answers
   * all four registers zero (handlers.c:254-255, 344-345).
   */
  predicate ChecksZero(p: Protocol)
  {
    p.Cache04? || p.X2apic?
  }

  /** The dumper that enumerates the same leaf as a decoder. */
  function DumpOf(p: Protocol): (d: Protocol)
    requires ChecksZero(p)
    ensures !ChecksZero(d) && LeafOf(d) == LeafOf(p)
  {
    if p.Cache04? then Dump04 else Dump0B
  }

  /** How a loop prints one sub-leaf. */
  function Emitter(p: Protocol): (emit: Frame -> Record)
  {
    match p
    case Cache04 => Cache04Record
    case X2apic => TopologyRecord
    case Dump04 => f => RawDump(f, true)
    case Dump0B => f => RawDump(f, true)
  }

  /** The loop each protocol runs. */
  function LoopOf(p: Protocol): Loop
  {
    Loop(LeafOf(p), f => Stops(p, f), ChecksZero(p), Emitter(p))
  }

  /**
   * A protocol's loop ends exactly at the answers that pass the official termination
   * test: an all-zero answer always passes it.
   */
  lemma EndsIsStops(p: Protocol, f: Frame)
    ensures Ends(LoopOf(p), f) <==> Stops(p, f)
    ensures AllZero(f) ==> Stops(p, f)
  {
  }

  /** Every frame of `fs` printed with `emit`, in order. */
  function EmitAll(emit: Frame -> Record, fs: seq<Frame>): (rs: seq<Record>)
    ensures |rs| == |fs|
    ensures forall i {:trigger rs[i]} :: 0 <= i < |fs| ==> rs[i] == emit(fs[i])
  {
    seq(|fs|, i requires 0 <= i < |fs| => emit(fs[i]))
  }

  /**
   * The sub-leaf a loop asks for on its pass `j`: the C counter is a `uint32_t` that
   * starts at 0 and is incremented once per pass in 32-bit arithmetic.
   */
  function SubLeafId(j: nat): (sub: bv32)
  {
    if j == 0 then 0 else SubLeafId(j - 1) + 1
  }

  /** The answers to the first `n` passes of a loop over `leaf`, from a deterministic CPUID oracle. */
  function Answers(cpuid: (bv32, bv32) -> Frame, leaf: bv32, n: nat): (fs: seq<Frame>)
    ensures |fs| == n
  {
    if n == 0 then [] else Answers(cpuid, leaf, n - 1) + [cpuid(leaf, SubLeafId(n - 1))]
  }

  /** Answer `i` is the oracle's answer for the sub-leaf of pass `i`. */
  lemma {:induction false} AnswersAt(cpuid: (bv32, bv32) -> Frame, leaf: bv32, n: nat, i: nat)
    requires i < n
    ensures Answers(cpuid, leaf, n)[i] == cpuid(leaf, SubLeafId(i))
    decreases n
  {
    if i < n - 1 {
      AnswersAt(cpuid, leaf, n - 1, i);
    }
  }

  /** No answer of `fs` ends the loop. */
  predicate NoneEnded(lp: Loop, fs: seq<Frame>)
  {
    forall j :: 0 <= j < |fs| ==> !Ends(lp, fs[j])
  }

  /** One more answer that does not end the loop keeps none ended. */
  lemma NoneEndedSnoc(lp: Loop, fs: seq<Frame>, f: Frame)
    ensures NoneEnded(lp, fs + [f]) <==> NoneEnded(lp, fs) && !Ends(lp, f)
  {
    assert forall j :: 0 <= j < |fs| ==> (fs + [f])[j] == fs[j];
    assert (fs + [f])[|fs|] == f;
  }

  /** Pass `k` is the first whose answer ends the loop. */
  predicate IsFirstStop(lp: Loop, fs: seq<Frame>, k: nat)
  {
    k < |fs| && Ends(lp, fs[k]) && forall j :: 0 <= j < k ==> !Ends(lp, fs[j])
  }

  /**
   * The sub-leaves a loop prints, given the answers `fs` to sub-leaves 0, 1, ...: each
   * in turn, stopping before an all-zero answer when the loop skips those and after a
   * sub-leaf that passes the termination test.
   */
  function Shown(lp: Loop, fs: seq<Frame>): (shown: seq<Frame>)
    ensures |shown| <= |fs| && shown == fs[..|shown|]
  {
    if fs == [] then []
    else if lp.skipsZero && AllZero(fs[0]) then []
    else [fs[0]] + (if lp.stops(fs[0]) then [] else Shown(lp, fs[1..]))
  }

  /** What a loop prints for the answers `fs`: the records of a prefix of them, in order. */
  function Run(lp: Loop, fs: seq<Frame>): (rs: seq<Record>)
    ensures |rs| <= |fs|
    ensures forall i :: 0 <= i < |rs| ==> rs[i] == lp.emit(fs[i])
  {
    EmitAll(lp.emit, Shown(lp, fs))
  }

  /** The sub-leaf where a loop stops, if it is printed at all. */
  function Last(lp: Loop, f: Frame): (shown: seq<Frame>)
    ensures shown == [] <==> lp.skipsZero && AllZero(f)
    ensures shown != [] ==> shown == [f]
  {
    if lp.skipsZero && AllZero(f) then [] else [f]
  }

  /** There is only one first stop. */
  lemma FirstStopUnique(lp: Loop, fs: seq<Frame>, k: nat, k': nat)
    requires IsFirstStop(lp, fs, k) && IsFirstStop(lp, fs, k')
    ensures k == k'
  {
  }

  /**
   * Closed form of a loop: every sub-leaf before the first stop is printed, the stopping
   * one is printed unless the loop skips it as all zero, and nothing after it is looked at.
   */
  lemma {:induction false} ShownFirstStop(lp: Loop, fs: seq<Frame>, k: nat)
    requires IsFirstStop(lp, fs, k)
    ensures Shown(lp, fs) == fs[..k] + Last(lp, fs[k])
    decreases k
  {
    if k == 0 {
      ShownAtStop(lp, fs);
    } else {
      FirstStopTail(lp, fs, k);
      ShownStep(lp, fs);
      ShownFirstStop(lp, fs[1..], k - 1);
      assert fs[1..][k - 1] == fs[k];
      var head, tail := [fs[0]], fs[1..][..k - 1];
      assert fs[..k] == head + tail;
      assert (head + tail) + Last(lp, fs[k]) == head + (tail + Last(lp, fs[k]));
    }
  }

  /** A first stop past the first answer is, one answer on, the first stop of the rest. */
  lemma FirstStopTail(lp: Loop, fs: seq<Frame>, k: nat)
    requires IsFirstStop(lp, fs, k) && k > 0
    ensures !Ends(lp, fs[0]) && IsFirstStop(lp, fs[1..], k - 1)
  {
    forall j | 0 <= j < k - 1
      ensures !Ends(lp, fs[1..][j])
    {
      assert fs[1..][j] == fs[j + 1];
    }
  }

  /** A sub-leaf that ends the loop is the last one looked at. */
  lemma ShownAtStop(lp: Loop, fs: seq<Frame>)
    requires fs != [] && Ends(lp, fs[0])
    ensures Shown(lp, fs) == Last(lp, fs[0])
  {
  }

  /** A sub-leaf that does not end the loop is printed, and the loop goes on. */
  lemma ShownStep(lp: Loop, fs: seq<Frame>)
    requires fs != [] && !Ends(lp, fs[0])
    ensures Shown(lp, fs) == [fs[0]] + Shown(lp, fs[1..])
  {
  }

  /** Answers past the first stop never change what is printed. */
  lemma ShownIgnoresLater(lp: Loop, fs: seq<Frame>, k: nat, gs: seq<Frame>)
    requires IsFirstStop(lp, fs, k)
    ensures Shown(lp, fs + gs) == Shown(lp, fs) == Shown(lp, fs[..k + 1])
  {
    assert (fs + gs)[..k] == fs[..k] == fs[..k + 1][..k];
    assert IsFirstStop(lp, fs + gs, k) by {
      forall j | 0 <= j <= k
        ensures (fs + gs)[j] == fs[j]
      {
      }
    }
    assert IsFirstStop(lp, fs[..k + 1], k);
    ShownFirstStop(lp, fs + gs, k);
    ShownFirstStop(lp, fs, k);
    ShownFirstStop(lp, fs[..k + 1], k);
  }

  /**
   * A decoder prints the same sub-leaves as the dumper of its leaf, except that it drops
   * a final all-zero sub-leaf the dumper still prints.
   */
  lemma DecoderMatchesDumper(p: Protocol, fs: seq<Frame>, k: nat)
    requires ChecksZero(p) && IsFirstStop(LoopOf(p), fs, k)
    ensures Shown(LoopOf(DumpOf(p)), fs) == fs[..k + 1]
    ensures Shown(LoopOf(p), fs) == if AllZero(fs[k]) then fs[..k] else fs[..k + 1]
  {
    var d := DumpOf(p);
    assert IsFirstStop(LoopOf(d), fs, k) by {
      forall f
        ensures Ends(LoopOf(d), f) == Ends(LoopOf(p), f)
      {
        EndsIsStops(d, f);
        EndsIsStops(p, f);
      }
    }
    ShownFirstStop(LoopOf(d), fs, k);
    ShownFirstStop(LoopOf(p), fs, k);
    assert fs[..k + 1] == fs[..k] + [fs[k]];
  }

  /** Printing one more sub-leaf appends its record. */
  lemma EmitAllSnoc(emit: Frame -> Record, fs: seq<Frame>, f: Frame)
    ensures EmitAll(emit, fs + [f]) == EmitAll(emit, fs) + EmitAll(emit, [f])
  {
    assert EmitAll(emit, fs + [f])[..|fs|] == EmitAll(emit, fs);
  }

  /**
   * The step that ends a loop: when no earlier answer ends it and `f` does, what is
   * printed is everything before `f`, then `f` unless the loop skips it as all zero.
   */
  lemma RunLastStep(lp: Loop, fs: seq<Frame>, f: Frame)
    requires NoneEnded(lp, fs) && Ends(lp, f)
    ensures Run(lp, fs + [f]) == EmitAll(lp.emit, fs) + EmitAll(lp.emit, Last(lp, f))
  {
    var gs := fs + [f];
    assert IsFirstStop(lp, gs, |fs|) by {
      forall j | 0 <= j < |fs|
        ensures !Ends(lp, gs[j])
      {
        assert gs[j] == fs[j];
      }
    }
    ShownFirstStop(lp, gs, |fs|);
    assert gs[..|fs|] == fs;
    if Last(lp, f) == [] {
      assert fs + Last(lp, f) == fs;
    } else {
      EmitAllSnoc(lp.emit, fs, f);
    }
  }
}
