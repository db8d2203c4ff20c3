/**
 * The leaf registry (handlers.c:36-79): two ordered tables from leaf number to decoder,
 * one for decoding and one for raw dumping, and which decoder acts in which session.
 */
module Registry {
  import opened Identity

  /** The decoders of handlers.c, one constructor per C function. */
  datatype Handler =
    | DumpBase | DumpStd04 | DumpStd0B
    | StdBase | Features | StdCache02 | StdPsn | StdCache04 | StdX2apic
    | VmmBase | XenVersion | XenLeaf02 | XenLeaf03 | VmwareLeaf10
    | ExtBase | ExtPname | ExtAmdL1CacheFeat | ExtL2CacheFeat

  /** One table row: a leaf and the decoder registered for it. */
  datatype Entry = Entry(leaf: nat, handler: Handler)

  /** dump_handlers (handlers.c:36-49), without its {0, 0} end marker. */
  const DumpHandlers: seq<Entry> := [
    Entry(0x0000_0000, DumpBase),
    Entry(0x0000_0004, DumpStd04),
    Entry(0x0000_000B, DumpStd0B),
    Entry(0x4000_0000, DumpBase),
    Entry(0x8000_0000, DumpBase)
  ]

  /**
   * decode_handlers (handlers.c:52-79), without its {0, 0} end marker. Leaf
   * 0x40000003 carries two decoders, the Xen clock one and the VMware frequency one.
   */
  const DecodeHandlers: seq<Entry> := [
    Entry(0x0000_0000, StdBase),
    Entry(0x0000_0001, Features),
    Entry(0x0000_0002, StdCache02),
    Entry(0x0000_0003, StdPsn),
    Entry(0x0000_0004, StdCache04),
    Entry(0x0000_000B, StdX2apic),
    Entry(0x4000_0000, VmmBase),
    Entry(0x4000_0001, XenVersion),
    Entry(0x4000_0002, XenLeaf02),
    Entry(0x4000_0003, XenLeaf03),
    Entry(0x4000_0003, VmwareLeaf10),
    Entry(0x8000_0000, ExtBase),
    Entry(0x8000_0001, Features),
    Entry(0x8000_0002, ExtPname),
    Entry(0x8000_0003, ExtPname),
    Entry(0x8000_0004, ExtPname),
    Entry(0x8000_0005, ExtAmdL1CacheFeat),
    Entry(0x8000_0006, ExtL2CacheFeat)
  ]

  /** Every decoder registered for `leaf`, in registration order. */
  function HandlersFor(table: seq<Entry>, leaf: nat): (hs: seq<Handler>)
    ensures |hs| <= |table|
  {
    if table == [] then []
    else (if table[0].leaf == leaf then [table[0].handler] else []) + HandlersFor(table[1..], leaf)
  }

  /** A decoder is looked up for a leaf exactly when the table has a row pairing them. */
  lemma {:induction false} HandlersForMembers(table: seq<Entry>, leaf: nat, h: Handler)
    ensures h in HandlersFor(table, leaf) <==> Entry(leaf, h) in table
  {
    if table != [] {
      HandlersForMembers(table[1..], leaf, h);
      assert table == [table[0]] + table[1..];
    }
  }

  /** Looking up in two tables one after the other finds the first table's decoders first. */
  lemma {:induction false} HandlersForAppend(a: seq<Entry>, b: seq<Entry>, leaf: nat)
    ensures HandlersFor(a + b, leaf) == HandlersFor(a, leaf) + HandlersFor(b, leaf)
  {
    if a == [] {
      assert a + b == b;
    } else {
      var first := if a[0].leaf == leaf then [a[0].handler] else [];
      assert (a + b)[0] == a[0] && (a + b)[1..] == a[1..] + b;
      HandlersForAppend(a[1..], b, leaf);
      assert first + (HandlersFor(a[1..], leaf) + HandlersFor(b, leaf))
          == (first + HandlersFor(a[1..], leaf)) + HandlersFor(b, leaf);
    }
  }

  /** A leaf without a row has no decoder. */
  lemma HandlersForNone(table: seq<Entry>, leaf: nat)
    requires forall i :: 0 <= i < |table| ==> table[i].leaf != leaf
    ensures HandlersFor(table, leaf) == []
  {
  }

  /** A leaf with a single row has exactly that row's decoder. */
  lemma HandlersForOne(table: seq<Entry>, leaf: nat, i: nat)
    requires i < |table| && table[i].leaf == leaf
    requires forall j :: 0 <= j < |table| && j != i ==> table[j].leaf != leaf
    ensures HandlersFor(table, leaf) == [table[i].handler]
  {
    assert table == table[..i] + ([table[i]] + table[i + 1..]);
    HandlersForAppend(table[..i], [table[i]] + table[i + 1..], leaf);
    HandlersForAppend([table[i]], table[i + 1..], leaf);
    HandlersForNone(table[..i], leaf);
    HandlersForNone(table[i + 1..], leaf);
  }

  /** A leaf with two adjacent rows has their two decoders, in row order. */
  lemma HandlersForTwo(table: seq<Entry>, leaf: nat, i: nat)
    requires i + 1 < |table| && table[i].leaf == leaf && table[i + 1].leaf == leaf
    requires forall j :: 0 <= j < |table| && j != i && j != i + 1 ==> table[j].leaf != leaf
    ensures HandlersFor(table, leaf) == [table[i].handler, table[i + 1].handler]
  {
    assert table == table[..i] + ([table[i]] + ([table[i + 1]] + table[i + 2..]));
    HandlersForAppend(table[..i], [table[i]] + ([table[i + 1]] + table[i + 2..]), leaf);
    HandlersForAppend([table[i]], [table[i + 1]] + table[i + 2..], leaf);
    HandlersForAppend([table[i + 1]], table[i + 2..], leaf);
    HandlersForNone(table[..i], leaf);
    HandlersForNone(table[i + 2..], leaf);
  }

  /** The rows of a table are in ascending leaf order. */
  predicate Ascending(table: seq<Entry>)
  {
    forall i, j :: 0 <= i < j < |table| ==> table[i].leaf <= table[j].leaf
  }

  /** Each row's leaf is at most the next row's. */
  predicate StepAscending(table: seq<Entry>)
  {
    forall i, j :: 0 <= i && j == i + 1 < |table| ==> table[i].leaf <= table[j].leaf
  }

  /** Ascending step by step is ascending. */
  lemma {:induction false} StepAscendingChain(table: seq<Entry>, i: nat, j: nat)
    requires StepAscending(table) && i <= j < |table|
    ensures table[i].leaf <= table[j].leaf
    decreases j - i
  {
    if i < j {
      StepAscendingChain(table, i + 1, j);
    }
  }

  /** Both tables list their leaves in ascending order. */
  lemma TablesAscending()
    ensures Ascending(DumpHandlers) && Ascending(DecodeHandlers)
  {
    assert StepAscending(DumpHandlers) && StepAscending(DecodeHandlers);
    forall i, j | 0 <= i < j < |DumpHandlers|
      ensures DumpHandlers[i].leaf <= DumpHandlers[j].leaf
    {
      StepAscendingChain(DumpHandlers, i, j);
    }
    forall i, j | 0 <= i < j < |DecodeHandlers|
      ensures DecodeHandlers[i].leaf <= DecodeHandlers[j].leaf
    {
      StepAscendingChain(DecodeHandlers, i, j);
    }
  }

  /**
   * The session a decoder needs before it prints anything (handlers.c:160-161, 176-177,
   * 235-236, 334-335, 439-440, 485, 522, 645-646, 653-654, 665-666, 673-674): the
   * others always run. The C tests `vendor & (A | B)` on a bit mask; a session has one vendor, so they
   * read as membership.
   */
  predicate Applies(h: Handler, v: Vendor, hv: Hypervisor)
  {
    match h
    case StdCache02 => v == Intel || v == Cyrix
    case StdPsn => v == Intel || v == Transmeta
    case StdCache04 => v == Intel
    case StdX2apic => v == Intel
    case ExtAmdL1CacheFeat => v == Amd
    case ExtL2CacheFeat => v == Intel || v == Amd
    case XenVersion => hv == Xen
    case XenLeaf02 => hv == Xen
    case XenLeaf03 => hv == Xen
    case VmwareLeaf10 => hv == VMware
    case _ => true
  }

  /** The decoders that act in every session: the dumpers and the base, feature and name decoders. */
  const Ungated: set<Handler> := {DumpBase, DumpStd04, DumpStd0B, StdBase, Features, VmmBase, ExtBase, ExtPname}

  /** The ungated decoders are the ones that act whatever the session. */
  lemma UngatedAlwaysApply(h: Handler)
    ensures (forall v, hv :: Applies(h, v, hv)) <==> h in Ungated
    ensures Applies(h, UnknownVendor, NotPresent) <==> h in Ungated
  {
    if h !in Ungated {
      assert !Applies(h, UnknownVendor, NotPresent);
    }
  }

  /**
   * Which decoders act in which session: the cache, serial-number and topology decoders
   * by vendor, the Xen and VMware leaves by hypervisor.
   */
  lemma SessionDecoders(h: Handler)
    ensures Applies(h, Intel, NotPresent) <==> h in Ungated || h in {StdCache02, StdPsn, StdCache04, StdX2apic, ExtL2CacheFeat}
    ensures Applies(h, Amd, NotPresent) <==> h in Ungated || h in {ExtAmdL1CacheFeat, ExtL2CacheFeat}
    ensures Applies(h, Transmeta, NotPresent) <==> h in Ungated || h in {StdPsn}
    ensures Applies(h, Cyrix, NotPresent) <==> h in Ungated || h in {StdCache02}
    ensures Applies(h, UnknownVendor, Xen) <==> h in Ungated || h in {XenVersion, XenLeaf02, XenLeaf03}
    ensures Applies(h, UnknownVendor, VMware) <==> h in Ungated || h in {VmwareLeaf10}
  {
  }

  /** Only leaves 0, 4, 0xB and the two range bases are dumped raw, each by a single dumper. */
  lemma DumpedLeaves(leaf: nat)
    ensures var hs := HandlersFor(DumpHandlers, leaf);
      |hs| <= 1 &&
      (DumpBase in hs <==> leaf == 0 || leaf == 0x4000_0000 || leaf == 0x8000_0000) &&
      (DumpStd04 in hs <==> leaf == 4) &&
      (DumpStd0B in hs <==> leaf == 0xB)
  {
    var t := DumpHandlers;
    if leaf == 0 {
      HandlersForOne(t, leaf, 0);
    } else if leaf == 4 {
      HandlersForOne(t, leaf, 1);
    } else if leaf == 0xB {
      HandlersForOne(t, leaf, 2);
    } else if leaf == 0x4000_0000 {
      HandlersForOne(t, leaf, 3);
    } else if leaf == 0x8000_0000 {
      HandlersForOne(t, leaf, 4);
    } else {
      HandlersForNone(t, leaf);
    }
  }

  /**
   * Leaves with more than one row, or sharing a decoder with other leaves: 0x40000003 is
   * looked up as the Xen clock decoder followed by the VMware one, the three name leaves
   * all go to the name decoder, and leaves 1 and 0x80000001 both go to the feature decoder.
   */
  lemma DecodersOf(leaf: nat)
    ensures leaf == 0x4000_0003 ==> HandlersFor(DecodeHandlers, leaf) == [XenLeaf03, VmwareLeaf10]
    ensures 0x8000_0002 <= leaf <= 0x8000_0004 ==> HandlersFor(DecodeHandlers, leaf) == [ExtPname]
    ensures leaf == 1 || leaf == 0x8000_0001 ==> HandlersFor(DecodeHandlers, leaf) == [Features]
  {
    var t := DecodeHandlers;
    if leaf == 0x4000_0003 {
      HandlersForTwo(t, leaf, 9);
    } else if leaf == 1 {
      HandlersForOne(t, leaf, 1);
    } else if leaf == 0x8000_0001 {
      HandlersForOne(t, leaf, 12);
    } else if leaf == 0x8000_0002 {
      HandlersForOne(t, leaf, 13);
    } else if leaf == 0x8000_0003 {
      HandlersForOne(t, leaf, 14);
    } else if leaf == 0x8000_0004 {
      HandlersForOne(t, leaf, 15);
    }
  }

  /** Only rows 9 and 10 (leaf 0x40000003, Xen clock then VMware) repeat a leaf. */
  lemma SharedLeaf()
    ensures StepAscending(DecodeHandlers)
    ensures forall i, j :: 0 <= i && j == i + 1 < |DecodeHandlers| ==>
      (DecodeHandlers[i].leaf == DecodeHandlers[j].leaf <==> i == 9)
    ensures DecodeHandlers[9] == Entry(0x4000_0003, XenLeaf03)
    ensures DecodeHandlers[10] == Entry(0x4000_0003, VmwareLeaf10)
  {
  }

  /**
   * The broadcast is safe: whatever the session, of two rows for the same leaf at most
   * one decoder acts.
   */
  lemma AtMostOneApplies(v: Vendor, hv: Hypervisor)
    ensures forall i, j :: 0 <= i < j < |DecodeHandlers| && DecodeHandlers[i].leaf == DecodeHandlers[j].leaf ==>
      !(Applies(DecodeHandlers[i].handler, v, hv) && Applies(DecodeHandlers[j].handler, v, hv))
  {
    var t := DecodeHandlers;
    SharedLeaf();
    forall i, j | 0 <= i < j < |t| && t[i].leaf == t[j].leaf
      ensures i == 9 && j == 10
    {
      StepAscendingChain(t, i + 1, j);
      StepAscendingChain(t, i, j - 1);
    }
  }

  /** Leaves without a row (here 5 to 0xA) are skipped: no decoder, no dump. */
  lemma UnregisteredLeaves(leaf: nat)
    requires 5 <= leaf <= 0xA
    ensures HandlersFor(DecodeHandlers, leaf) == [] && HandlersFor(DumpHandlers, leaf) == []
  {
    assert forall i :: 0 <= i < |DecodeHandlers| ==> DecodeHandlers[i].leaf < 5 || 0xA < DecodeHandlers[i].leaf;
    assert forall i :: 0 <= i < |DumpHandlers| ==> DumpHandlers[i].leaf < 5 || 0xA < DumpHandlers[i].leaf;
    HandlersForNone(DecodeHandlers, leaf);
    HandlersForNone(DumpHandlers, leaf);
  }
}
