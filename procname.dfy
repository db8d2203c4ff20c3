/**
 * The processor name buffer of leaves 0x80000002-0x80000004 (handlers.c:386-402): a
 * 48-byte buffer in the session state that the three leaves fill 16 bytes at a time.
 */
module ProcName {
  import opened Frames

  /** Size of the name buffer. */
  const NameLength: nat := 48

  /** The three leaves that each contribute 16 bytes of the name. */
  predicate IsNameLeaf(leaf: bv32)
  {
    leaf == 0x8000_0002 || leaf == 0x8000_0003 || leaf == 0x8000_0004
  }

  /**
   * Where a leaf's part goes (handlers.c:388): (leaf - 0x80000002) * 16, computed in
   * 32-bit unsigned arithmetic.
   */
  function PartOffset(leaf: bv32): (base: bv32)
    ensures base & 0xF == 0
  {
    (leaf - 0x8000_0002) * 16
  }

  /** The three name leaves go to offsets 0, 16 and 32, in leaf order. */
  lemma NameLeafOffsets(leaf: bv32)
    requires IsNameLeaf(leaf)
    ensures PartOffset(leaf) as nat == (leaf - 0x8000_0002) as nat * 16
    ensures PartOffset(leaf) == 0 || PartOffset(leaf) == 16 || PartOffset(leaf) == 32
  {
  }

  /**
   * Because the offset wraps at 2^32, a leaf lands inside the buffer exactly when its
   * distance from 0x80000002 is 0, 1 or 2 modulo 2^28; the registry only hands the
   * handler the three name leaves.
   */
  lemma PartOffsetInBuffer(leaf: bv32)
    ensures PartOffset(leaf) < 48 <==> (leaf - 0x8000_0002) & 0x0FFF_FFFF < 3
  {
  }

  /** `buf` with `bytes` written over it from index `at`. */
  function Splice(buf: seq<bv8>, at: nat, bytes: seq<bv8>): (r: seq<bv8>)
    requires at + |bytes| <= |buf|
    ensures |r| == |buf|
    ensures r[..at] == buf[..at] && r[at..at + |bytes|] == bytes && r[at + |bytes|..] == buf[at + |bytes|..]
  {
    buf[..at] + bytes + buf[at + |bytes|..]
  }

  /** Two adjacent stores are one store of both byte strings. */
  lemma SpliceAdjacent(buf: seq<bv8>, at: nat, a: seq<bv8>, b: seq<bv8>)
    requires at + |a| + |b| <= |buf|
    ensures Splice(Splice(buf, at, a), at + |a|, b) == Splice(buf, at, a + b)
  {
    var r := Splice(Splice(buf, at, a), at + |a|, b);
    assert r[..at] == buf[..at];
    assert r[at..at + |a| + |b|] == a + b by {
      assert r[at..at + |a|] == a;
    }
    assert r == r[..at] + r[at..at + |a| + |b|] + r[at + |a| + |b|..];
  }

  /** All 48 bytes zero, as the memset at handlers.c:389-390 leaves them. */
  function Zeroes(n: nat): (r: seq<bv8>)
    ensures |r| == n && forall i :: 0 <= i < n ==> r[i] == 0
  {
    seq(n, _ => 0)
  }

  /**
   * One name leaf: the buffer is cleared when the part goes to offset 0, the four
   * registers are stored at the offset, and after the last part byte 47 is forced to
   * NUL (handlers.c:388-399).
   */
  function PnameStep(buf: seq<bv8>, base: nat, f: Frame): (r: seq<bv8>)
    requires |buf| == NameLength && (base == 0 || base == 16 || base == 32)
    ensures |r| == NameLength
    ensures base < 32 ==> r[base..base + 16] == FrameBytes(f)
    ensures base == 32 ==> r[32..] == FrameBytes(f)[..15] + [0]
    ensures r[..base] == if base == 0 then [] else buf[..base]
    ensures base == 0 ==> r[16..] == Zeroes(32)
    ensures base == 16 ==> r[32..] == buf[32..]
  {
    var cleared := if base == 0 then Zeroes(NameLength) else buf;
    var stored := Splice(cleared, base, FrameBytes(f));
    if base == 32 then
      assert stored[32..47] == FrameBytes(f)[..15];
      stored[..47] + [0]
    else stored
  }

  /**
   * The three leaves in order build the name from the twelve registers, whatever the
   * buffer held before, with the last byte forced to NUL.
   */
  lemma NameAssembled(buf: seq<bv8>, f1: Frame, f2: Frame, f3: Frame)
    requires |buf| == NameLength
    ensures PnameStep(PnameStep(PnameStep(buf, 0, f1), 16, f2), 32, f3) ==
      (FrameBytes(f1) + FrameBytes(f2) + FrameBytes(f3))[..47] + [0]
  {
    var b1 := PnameStep(buf, 0, f1);
    var b2 := PnameStep(b1, 16, f2);
    var b3 := PnameStep(b2, 32, f3);
    var name := FrameBytes(f1) + FrameBytes(f2) + FrameBytes(f3);
    SpliceAdjacent(Zeroes(NameLength), 0, FrameBytes(f1), FrameBytes(f2));
    assert b2 == Splice(Zeroes(NameLength), 0, FrameBytes(f1) + FrameBytes(f2));
    SpliceAdjacent(Zeroes(NameLength), 0, FrameBytes(f1) + FrameBytes(f2), FrameBytes(f3));
    assert Splice(b2, 32, FrameBytes(f3)) == name;
  }
}
