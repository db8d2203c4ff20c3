/** The register frame of one CPUID invocation and the byte view of a register. */
module Frames {

  /** The four output registers of one invocation, as the decoders read them. */
  datatype Frame = Frame(eax: bv32, ebx: bv32, ecx: bv32, edx: bv32)

  /** The four registers are all zero: the unofficial end test of leaves 4 and 0xB. */
  predicate AllZero(f: Frame)
  {
    f.eax == 0 && f.ebx == 0 && f.ecx == 0 && f.edx == 0
  }

  /** The four bytes an x86 32-bit store puts in memory, least significant byte first. */
  function Lanes(x: bv32): (r: seq<bv8>)
    ensures |r| == 4
  {
    [(x & 0xFF) as bv8, ((x >> 8) & 0xFF) as bv8, ((x >> 16) & 0xFF) as bv8, (x >> 24) as bv8]
  }

  /** The 32-bit value an x86 load reads from four bytes in memory. */
  function Pack(b: seq<bv8>): bv32
    requires |b| == 4
  {
    (b[0] as bv32) | ((b[1] as bv32) << 8) | ((b[2] as bv32) << 16) | ((b[3] as bv32) << 24)
  }

  /** Storing a register and reading it back gives the register; storing bytes read back gives the bytes. */
  lemma LanesRoundTrip(x: bv32, b: seq<bv8>)
    requires |b| == 4
    ensures Pack(Lanes(x)) == x
    ensures Lanes(Pack(b)) == b
  {
  }

  /** The 16 bytes a frame occupies when its registers are stored eax, ebx, ecx, edx at consecutive addresses. */
  function FrameBytes(f: Frame): (r: seq<bv8>)
    ensures |r| == 16
    ensures r[0..4] == Lanes(f.eax) && r[4..8] == Lanes(f.ebx)
    ensures r[8..12] == Lanes(f.ecx) && r[12..16] == Lanes(f.edx)
  {
    Lanes(f.eax) + Lanes(f.ebx) + Lanes(f.ecx) + Lanes(f.edx)
  }

  /** The register structure handed to every decoder; decoders overwrite it when they invoke further leaves. */
  class Regs {
    var eax: bv32
    var ebx: bv32
    var ecx: bv32
    var edx: bv32

    constructor (f: Frame)
      ensures Value() == f
    {
      eax, ebx, ecx, edx := f.eax, f.ebx, f.ecx, f.edx;
    }

    function Value(): Frame
      reads this
    {
      Frame(eax, ebx, ecx, edx)
    }

    /** ZERO_REGS: clear all four registers before they are reused as an input template. */
    method Zero()
      modifies this
      ensures AllZero(Value())
    {
      eax, ebx, ecx, edx := 0, 0, 0, 0;
    }
  }
}
