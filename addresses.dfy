/** Addresses of the segmented memory and the values a memory cell can hold. */
module Addresses {

  /** A memory address: a segment and an offset within it. A negative segment
      index names a temporary segment that has not been relocated yet; a
      non-negative one names a real segment. */
  datatype Relocatable = Relocatable(segmentIndex: int, offset: nat)

  /** The content of a memory cell: a field element, kept opaque, or an
      address. */
  datatype MaybeRelocatable =
    | Int(felt: int)
    | RelocatableValue(addr: Relocatable)

  /** True of an address that still points into a temporary segment. */
  predicate IsTemporary(addr: Relocatable)
  {
    addr.segmentIndex < 0
  }
}
