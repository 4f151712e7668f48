/** The errors the security verification can end with. */
module VmErrors {
  import opened Addresses

  datatype VmError =
    /** A builtin segment holds more cells than the builtin's stop pointer allows. */
    | OutOfBoundsBuiltinSegmentAccess
    /** The program segment holds more cells than the program has words. */
    | OutOfBoundsProgramSegmentAccess
    /** A real memory cell still holds this temporary address. */
    | InvalidMemoryValueTemporaryAddress(addr: Relocatable)
    /** The runner has no usable program base (the runner error `NoProgBase`). */
    | NoProgBase
    /** An error raised by code outside this model (a builtin's own security
        check, or the query for the builtin segments), kept opaque. */
    | External(code: nat)
}
