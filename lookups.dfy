/**
 * Index-to-name lookups and the KB/MB size rendering shared by the cache decoders.
 * Every lookup is total over the range of the field that feeds it: an index outside
 * the known entries renders as an explicit "unknown" token.
 */
module Lookups {

  datatype Option<T> = None | Some(value: T)

  /** Names of the leaf-4 cache types 0..3 (handlers.c:206-211). */
  const Cache04Types: seq<string> := ["null", "data", "code", "unified"]

  /** cache04_type: the name of a leaf-4 cache type; anything above 3 is "unknown". */
  function Cache04TypeName(t: bv8): (r: string)
    ensures r == "unknown" <==> t > 3
    ensures t <= 3 ==> r == Cache04Types[t]
  {
    if t > 3 then "unknown" else Cache04Types[t]
  }

  /** Distinct known types get distinct names, so the name identifies the type. */
  lemma Cache04TypeNameInjective(a: bv8, b: bv8)
    requires a <= 3 && b <= 3 && Cache04TypeName(a) == Cache04TypeName(b)
    ensures a == b
  {
  }

  /** Names of the leaf-0xB level types, the last one standing for every type above 2 (handlers.c:320-325). */
  const LevelTypes: seq<string> := ["Invalid", "Thread", "Core", "Unknown"]

  /** x2apic_level_type: the name of a topology level type; anything above 2 is "Unknown". */
  function X2apicLevelTypeName(t: bv8): (r: string)
    ensures r == "Unknown" <==> t > 2
    ensures t <= 2 ==> r == LevelTypes[t]
  {
    LevelTypes[if t > 2 then 3 else t]
  }

  /** The rendering of an AMD associativity byte. */
  datatype Associativity = Reserved | DirectMapped | FullyAssociative | Ways(n: nat)

  /**
   * amd_associativity: the rendering of an associativity byte, chosen over all 256 values:
   * 0x00 is reserved, 0x01 direct mapped, 0xFF fully associative, any other N is N-way.
   */
  function AmdAssociativity(a: bv8): (r: Associativity)
    ensures r == Reserved <==> a == 0x00
    ensures r == DirectMapped <==> a == 0x01
    ensures r == FullyAssociative <==> a == 0xFF
    ensures r.Ways? <==> 0x02 <= a <= 0xFE
    ensures r.Ways? ==> r.n == a as nat
  {
    match a
    case 0x00 => Reserved
    case 0x01 => DirectMapped
    case 0xFF => FullyAssociative
    case _ => Ways(a as nat)
  }

  /** The byte an associativity rendering came from. */
  function AssociativityByte(r: Associativity): bv8
    requires r.Ways? ==> 2 <= r.n <= 0xFE
  {
    match r
    case Reserved => 0x00
    case DirectMapped => 0x01
    case FullyAssociative => 0xFF
    case Ways(n) => n as bv8
  }

  /** The rendering loses nothing: every one of the 256 byte values can be read back from it. */
  lemma AmdAssociativityInverse(a: bv8)
    ensures AssociativityByte(AmdAssociativity(a)) == a
  {
  }

  /** The Intel leaf-0x80000006 associativity table; None stands for a NULL slot (handlers.c:486-503). */
  const IntelL2Assoc: seq<Option<string>> := [
    Some("Disabled"), Some("Direct mapped"), Some("2-way"), None,
    Some("4-way"), None, Some("8-way"), None,
    Some("16-way"), None, None, None,
    None, None, None, Some("Fully associative")]

  /** The AMD leaf-0x80000006 associativity table (handlers.c:523-540). */
  const AmdL2Assoc: seq<Option<string>> := [
    Some("Disabled"), Some("Direct mapped"), Some("2-way"), None,
    Some("4-way"), None, Some("8-way"), None,
    Some("16-way"), None, Some("32-way"), Some("48-way"),
    Some("64-way"), Some("96-way"), Some("128-way"), Some("Fully associative")]

  /**
   * Intel L2 associativity name (handlers.c:518): the table's name, and "Unknown" exactly
   * at the NULL slots.
   */
  function IntelL2AssocName(i: bv32): (r: string)
    requires i < 16
    ensures r == "Unknown" <==> i == 3 || i == 5 || i == 7 || 9 <= i <= 14
    ensures r != "Unknown" ==> IntelL2Assoc[i] == Some(r)
  {
    match IntelL2Assoc[i]
    case Some(s) => s
    case None => "Unknown"
  }

  /**
   * AMD L2/L3 associativity name (handlers.c:591, 600): the table's name, and "unknown
   * associativity" exactly at the NULL slots.
   */
  function AmdL2AssocName(i: bv32): (r: string)
    requires i < 16
    ensures r == "unknown associativity" <==> i == 3 || i == 5 || i == 7 || i == 9
    ensures r != "unknown associativity" ==> AmdL2Assoc[i] == Some(r)
  {
    match AmdL2Assoc[i]
    case Some(s) => s
    case None => "unknown associativity"
  }

  /** The two tables agree wherever Intel defines a slot; AMD only adds the 32- to 128-way slots. */
  lemma L2AssocTablesAgree(i: bv32)
    requires i < 16
    ensures IntelL2Assoc[i].Some? ==> AmdL2Assoc[i] == IntelL2Assoc[i]
    ensures IntelL2Assoc[i].None? && AmdL2Assoc[i].Some? <==> 10 <= i <= 14
  {
  }

  /** A size as displayed: in KB, or in whole MB. */
  datatype Size = KB(n: nat) | MB(n: nat)

  /** A KB count is shown in MB (rounded down) only when strictly above 1024 KB. */
  function ShowSize(kb: nat): (r: Size)
    ensures r.MB? <==> kb > 1024
    ensures r.KB? ==> r.n == kb
    ensures r.MB? ==> r.n * 1024 <= kb < r.n * 1024 + 1024
  {
    if kb > 1024 then MB(kb / 1024) else KB(kb)
  }
}
