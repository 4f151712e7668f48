/** The part of the segmented memory that security verification reads: the
    real and temporary segment families, the size of a real segment, and the
    scan of real memory for a leftover temporary address. */
module VmMemory {
  import opened Wrappers
  import opened Addresses

  /** A memory cell; `None` is a hole that was never written. */
  type Cell = Option<MaybeRelocatable>

  /** A segment: its cells in offset order. */
  type Segment = seq<Cell>

  /** `data[i]` is real segment `i`; `tempData` holds the temporary segments. */
  datatype Memory = Memory(data: seq<Segment>, tempData: seq<Segment>)

  /** The length of real segment `index`, or `None` when no such segment was
      created (Rust's `data.get(index).map(|segment| segment.len())`). */
  function SegmentSize(data: seq<Segment>, index: nat): Option<nat>
  {
    if index < |data| then Some(|data[index]|) else None
  }

  /** The address a cell holds when that address is temporary; holes, field
      elements and real addresses give `None`. */
  function TemporaryAddress(cell: Cell): (r: Option<Relocatable>)
    ensures r.Some? <==> cell.Some? && cell.value.RelocatableValue? && IsTemporary(cell.value.addr)
    ensures r.Some? ==> cell == Some(RelocatableValue(r.value))
  {
    match cell
    case Some(RelocatableValue(addr)) => if addr.segmentIndex < 0 then Some(addr) else None
    case _ => None
  }

  /** The first temporary address in `segment` at an offset `from` or later. */
  function SegmentScan(segment: Segment, from: nat): Option<Relocatable>
    decreases |segment| - from
  {
    if from >= |segment| then None
    else if TemporaryAddress(segment[from]).Some? then TemporaryAddress(segment[from])
    else SegmentScan(segment, from + 1)
  }

  /** The first temporary address in the real segments numbered `from` or
      later, visiting segments in index order and each segment in offset
      order (Rust's `data.iter().flatten()`). */
  function MemoryScan(data: seq<Segment>, from: nat): Option<Relocatable>
    decreases |data| - from
  {
    if from >= |data| then None
    else match SegmentScan(data[from], 0)
      case Some(addr) => Some(addr)
      case None => MemoryScan(data, from + 1)
  }

  /** The first temporary address in real memory, if any. */
  function FirstTemporaryAddress(data: seq<Segment>): Option<Relocatable>
  {
    MemoryScan(data, 0)
  }

  /** No real cell holds a temporary address. */
  ghost predicate NoTemporaryAddress(data: seq<Segment>)
  {
    forall s, o :: 0 <= s < |data| && 0 <= o < |data[s]| ==> TemporaryAddress(data[s][o]).None?
  }

  /** Cell `o` of real segment `s` is the first cell, in segment-then-offset
      order, that holds a temporary address. */
  ghost predicate IsFirstTemporary(data: seq<Segment>, s: nat, o: nat)
  {
    && s < |data| && o < |data[s]|
    && TemporaryAddress(data[s][o]).Some?
    && (forall s', o' :: 0 <= s' < s && 0 <= o' < |data[s']| ==> TemporaryAddress(data[s'][o']).None?)
    && (forall o' :: 0 <= o' < o ==> TemporaryAddress(data[s][o']).None?)
  }

  /** Two memories whose real segments have the same count and lengths. */
  ghost predicate SameShape(data: seq<Segment>, data': seq<Segment>)
  {
    |data| == |data'| && forall s :: 0 <= s < |data| ==> |data[s]| == |data'[s]|
  }

  /** The segment scan finds nothing exactly when no cell from `from` on holds
      a temporary address. */
  lemma {:induction false} SegmentScanNone(segment: Segment, from: nat)
    ensures SegmentScan(segment, from).None?
        <==> forall o :: from <= o < |segment| ==> TemporaryAddress(segment[o]).None?
    decreases |segment| - from
  {
    if from < |segment| {
      SegmentScanNone(segment, from + 1);
    }
  }

  /** What the segment scan reports is the temporary address held by the first
      temporary cell at or after `from`. */
  lemma {:induction false} SegmentScanPosition(segment: Segment, from: nat) returns (o: nat)
    requires SegmentScan(segment, from).Some?
    ensures from <= o < |segment|
    ensures TemporaryAddress(segment[o]) == SegmentScan(segment, from)
    ensures forall o' :: from <= o' < o ==> TemporaryAddress(segment[o']).None?
    decreases |segment| - from
  {
    if TemporaryAddress(segment[from]).Some? {
      o := from;
    } else {
      o := SegmentScanPosition(segment, from + 1);
    }
  }

  /** The memory scan finds nothing exactly when no real segment numbered
      `from` or later holds a temporary address. */
  lemma {:induction false} MemoryScanNone(data: seq<Segment>, from: nat)
    ensures MemoryScan(data, from).None?
        <==> forall s, o :: from <= s < |data| && 0 <= o < |data[s]| ==> TemporaryAddress(data[s][o]).None?
    decreases |data| - from
  {
    if from < |data| {
      SegmentScanNone(data[from], 0);
      MemoryScanNone(data, from + 1);
    }
  }

  /** What the memory scan reports is the temporary address held by the first
      temporary cell, in segment-then-offset order, among segments `from` on. */
  lemma {:induction false} MemoryScanPosition(data: seq<Segment>, from: nat) returns (s: nat, o: nat)
    requires MemoryScan(data, from).Some?
    ensures from <= s < |data| && o < |data[s]|
    ensures TemporaryAddress(data[s][o]) == MemoryScan(data, from)
    ensures forall s', o' :: from <= s' < s && 0 <= o' < |data[s']| ==> TemporaryAddress(data[s'][o']).None?
    ensures forall o' :: 0 <= o' < o ==> TemporaryAddress(data[s][o']).None?
    decreases |data| - from
  {
    if SegmentScan(data[from], 0).Some? {
      s := from;
      o := SegmentScanPosition(data[from], 0);
    } else {
      SegmentScanNone(data[from], 0);
      s, o := MemoryScanPosition(data, from + 1);
    }
  }

  /** The whole-memory scan finds nothing exactly when no real cell holds a
      temporary address. */
  lemma FirstTemporaryAddressNone(data: seq<Segment>)
    ensures FirstTemporaryAddress(data).None? <==> NoTemporaryAddress(data)
  {
    MemoryScanNone(data, 0);
  }

  /** A reported address sits in the first temporary cell of real memory. */
  lemma FirstTemporaryAddressPosition(data: seq<Segment>) returns (s: nat, o: nat)
    requires FirstTemporaryAddress(data).Some?
    ensures IsFirstTemporary(data, s, o)
    ensures data[s][o] == Some(RelocatableValue(FirstTemporaryAddress(data).value))
  {
    s, o := MemoryScanPosition(data, 0);
  }

  /** The first temporary cell of real memory is the one reported: its
      address, and no other, is what the scan returns. */
  lemma FirstTemporaryIsReported(data: seq<Segment>, s: nat, o: nat)
    requires IsFirstTemporary(data, s, o)
    ensures FirstTemporaryAddress(data) == TemporaryAddress(data[s][o])
  {
    FirstTemporaryAddressNone(data);
    var s2, o2 := FirstTemporaryAddressPosition(data);
    assert s2 <= s && s <= s2;
    assert o2 <= o && o <= o2;
  }
}
