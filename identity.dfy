/**
 * Vendor and hypervisor identification from the base leaves: a 12-byte ASCII string
 * assembled from three registers as little-endian byte lanes, terminated by a NUL at
 * byte 12, and compared as a C string against fixed names.
 */
module Identity {
  import opened Frames

  datatype Vendor = Intel | Amd | Transmeta | Cyrix | UnknownVendor

  /** NotPresent is the value before the hypervisor base leaf has been decoded. */
  datatype Hypervisor = Xen | VMware | Kvm | UnknownHypervisor | NotPresent

  /** The bytes of a C string up to, not including, its first NUL. */
  function CString(s: seq<bv8>): (r: seq<bv8>)
    ensures |r| <= |s| && r == s[..|r|]
    ensures forall i :: 0 <= i < |r| ==> r[i] != 0
    ensures |r| < |s| ==> s[|r|] == 0
  {
    if s == [] || s[0] == 0 then [] else [s[0]] + CString(s[1..])
  }

  /** The characters an ASCII byte string spells. */
  function Text(b: seq<bv8>): (r: string)
    ensures |r| == |b|
  {
    seq(|b|, i requires 0 <= i < |b| => b[i] as char)
  }

  /** The 12 identification bytes: registers `a`, `b`, `c` stored at offsets 0, 4 and 8. */
  function IdBytes(a: bv32, b: bv32, c: bv32): (r: seq<bv8>)
    ensures |r| == 12
  {
    Lanes(a) + Lanes(b) + Lanes(c)
  }

  /** strcmp(buf, lit) == 0, for a literal `lit` without NUL characters. */
  predicate StrEq(buf: seq<bv8>, lit: string)
  {
    Text(CString(buf)) == lit
  }

  /** Comparing a string with a NUL-free literal of the same length is plain equality. */
  lemma {:induction false} StrEqFull(buf: seq<bv8>, lit: string)
    requires |buf| == |lit|
    requires forall i :: 0 <= i < |lit| ==> lit[i] != 0 as char
    ensures StrEq(buf, lit) <==> Text(buf) == lit
  {
    if Text(buf) == lit {
      forall i | 0 <= i < |buf| ensures buf[i] != 0 {
        assert Text(buf)[i] == lit[i];
      }
      var r := CString(buf);
      assert |r| == |buf|;
    }
  }

  /** A shorter literal matches exactly when the buffer spells it and then holds a NUL. */
  lemma {:induction false} StrEqPrefix(buf: seq<bv8>, lit: string)
    requires |lit| < |buf|
    requires forall i :: 0 <= i < |lit| ==> lit[i] != 0 as char
    ensures StrEq(buf, lit) <==> Text(buf[..|lit|]) == lit && buf[|lit|] == 0
  {
    var r := CString(buf);
    if Text(buf[..|lit|]) == lit && buf[|lit|] == 0 {
      forall i | 0 <= i < |lit| ensures buf[i] != 0 {
        assert Text(buf[..|lit|])[i] == lit[i];
      }
      assert |r| == |lit|;
      assert r == buf[..|lit|];
    }
    if StrEq(buf, lit) {
      assert |r| == |lit|;
      assert r == buf[..|lit|];
    }
  }

  /** The four vendor strings the standard base leaf is matched against. */
  const KnownVendors: set<string> := {"GenuineIntel", "AuthenticAMD", "GenuineTMx86", "CyrixInstead"}

  /** handle_std_base's match: the string is EBX, EDX, ECX in that order. */
  function VendorOf(ebx: bv32, ecx: bv32, edx: bv32): (v: Vendor)
    ensures v == Intel <==> Text(IdBytes(ebx, edx, ecx)) == "GenuineIntel"
    ensures v == Amd <==> Text(IdBytes(ebx, edx, ecx)) == "AuthenticAMD"
    ensures v == Transmeta <==> Text(IdBytes(ebx, edx, ecx)) == "GenuineTMx86"
    ensures v == Cyrix <==> Text(IdBytes(ebx, edx, ecx)) == "CyrixInstead"
    ensures v == UnknownVendor <==> Text(IdBytes(ebx, edx, ecx)) !in KnownVendors
  {
    var buf := IdBytes(ebx, edx, ecx);
    StrEqFull(buf, "GenuineIntel");
    StrEqFull(buf, "AuthenticAMD");
    StrEqFull(buf, "GenuineTMx86");
    StrEqFull(buf, "CyrixInstead");
    if StrEq(buf, "GenuineIntel") then Intel
    else if StrEq(buf, "AuthenticAMD") then Amd
    else if StrEq(buf, "GenuineTMx86") then Transmeta
    else if StrEq(buf, "CyrixInstead") then Cyrix
    else UnknownVendor
  }

  /**
   * handle_vmm_base's match: the string is EBX, ECX, EDX in that order. "KVMKVMKVM" is
   * nine characters, so as a C string it matches only when byte 9 is NUL.
   */
  function HypervisorOf(ebx: bv32, ecx: bv32, edx: bv32): (h: Hypervisor)
    ensures h == Xen <==> Text(IdBytes(ebx, ecx, edx)) == "XenVMMXenVMM"
    ensures h == VMware <==> Text(IdBytes(ebx, ecx, edx)) == "VMwareVMware"
    ensures h == Kvm <==> Text(IdBytes(ebx, ecx, edx)[..9]) == "KVMKVMKVM" && IdBytes(ebx, ecx, edx)[9] == 0
    ensures h != NotPresent
  {
    var buf := IdBytes(ebx, ecx, edx);
    StrEqFull(buf, "XenVMMXenVMM");
    StrEqFull(buf, "VMwareVMware");
    StrEqPrefix(buf, "KVMKVMKVM");
    if StrEq(buf, "XenVMMXenVMM") then Xen
    else if StrEq(buf, "VMwareVMware") then VMware
    else if StrEq(buf, "KVMKVMKVM") then Kvm
    else UnknownHypervisor
  }

  /** The registers an Intel processor reports in leaf 0 identify it as Intel. */
  lemma GenuineIntelRegisters()
    ensures VendorOf(0x756E_6547, 0x6C65_746E, 0x4965_6E69) == Intel
  {
    var buf := IdBytes(0x756E_6547, 0x4965_6E69, 0x6C65_746E);
    assert Lanes(0x756E_6547) == [0x47, 0x65, 0x6E, 0x75];
    assert Lanes(0x4965_6E69) == [0x69, 0x6E, 0x65, 0x49];
    assert Lanes(0x6C65_746E) == [0x6E, 0x74, 0x65, 0x6C];
    assert buf == [0x47, 0x65, 0x6E, 0x75, 0x69, 0x6E, 0x65, 0x49, 0x6E, 0x74, 0x65, 0x6C];
    assert Text(buf) == "GenuineIntel";
  }
}
