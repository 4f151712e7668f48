/** The unit-test scenarios of security verification, stated as lemmas about
    the verdict. The memories are written out cell by cell; they stand for
    what runner initialisation and the tests' own assignments leave. */
module SecurityTests {
  import opened Wrappers
  import opened Addresses
  import opened VmErrors
  import opened VmMemory
  import opened Security

  function Addr(segmentIndex: int, offset: nat): Cell
  {
    Some(RelocatableValue(Relocatable(segmentIndex, offset)))
  }

  /** A runner whose program, of `length` words, is loaded at `(0, 0)`. */
  function LoadedRunner(length: nat, bounds: seq<BuiltinBound>): Runner
  {
    Runner(Some(Relocatable(0, 0)), length, Ok(bounds))
  }

  /** Real memory holding four real addresses in segment 0, as the success
      tests write it; `third` is the address in cell 2. */
  function FourAddresses(third: Cell): seq<Segment>
  {
    [[Addr(1, 0), Addr(2, 1), third, Addr(4, 3)]]
  }

  /** Real memory with a one-cell builtin segment at index 2, as the builtin
      tests write it. */
  function BuiltinSegmentMemory(): seq<Segment>
  {
    [[], [], [Some(Int(1))]]
  }

  /** A runner that was never initialised has no program base. */
  lemma WithoutProgramBase()
    ensures SecureRunnerVerdict(Runner(None, 0, Ok([])), true, Vm(Memory([], []), [])) == Fail(NoProgBase)
  {
  }

  /** An initialised run with an empty program: the program segment is empty
      and the execution segment holds the return frame pointer and the end
      address, both real. */
  lemma EmptyMemory()
    ensures SecureRunnerVerdict(LoadedRunner(0, []), true,
                                Vm(Memory([[], [Addr(2, 0), Addr(3, 0)], [], []], []), []))
         == Pass
  {
  }

  /** One cell in the program segment of a program with no words. */
  lemma ProgramAccessOutOfBounds()
    ensures SecureRunnerVerdict(LoadedRunner(0, []), true, Vm(Memory([[Some(Int(100))]], []), []))
         == Fail(OutOfBoundsProgramSegmentAccess)
  {
  }

  /** A range-check builtin on segment 2 with stop pointer 0, whose segment
      holds one cell. */
  lemma BuiltinAccessOutOfBounds()
    ensures SecureRunnerVerdict(LoadedRunner(0, [BuiltinBound(2, 0)]), true,
                                Vm(Memory(BuiltinSegmentMemory(), []), [BuiltinRunner("range_check", Pass)]))
         == Fail(OutOfBoundsBuiltinSegmentAccess)
  {
  }

  /** The same builtin with stop pointer 1 is within its bound. */
  lemma BuiltinAccessCorrect()
    ensures SecureRunnerVerdict(LoadedRunner(0, [BuiltinBound(2, 1)]), true,
                                Vm(Memory(BuiltinSegmentMemory(), []), [BuiltinRunner("range_check", Pass)]))
         == Pass
  {
  }

  /** Four real addresses in a program segment of a four-word program. */
  lemma Success()
    ensures SecureRunnerVerdict(LoadedRunner(4, []), true, Vm(Memory(FourAddresses(Addr(3, 2)), []), [])) == Pass
  {
  }

  /** A temporary segment exists, but real memory holds only real
      addresses. */
  lemma TemporaryMemoryProperlyRelocated()
    ensures SecureRunnerVerdict(LoadedRunner(4, []), true,
                                Vm(Memory(FourAddresses(Addr(3, 2)), [[Addr(1, 2)]]), []))
         == Pass
  {
  }

  /** A temporary segment exists and real memory still holds `(-3, 2)`. */
  lemma TemporaryMemoryNotFullyRelocated()
    ensures SecureRunnerVerdict(LoadedRunner(4, []), true,
                                Vm(Memory(FourAddresses(Addr(-3, 2)), [[Addr(1, 2)]]), []))
         == Fail(InvalidMemoryValueTemporaryAddress(Relocatable(-3, 2)))
  {
  }

  /** The same memory without any temporary segment passes: the scan is
      skipped. */
  lemma TemporaryAddressWithoutTemporarySegments()
    ensures SecureRunnerVerdict(LoadedRunner(4, []), true, Vm(Memory(FourAddresses(Addr(-3, 2)), []), [])) == Pass
  {
  }

  /** A missing program base is not reported when a builtin bound fails
      first. */
  lemma MissingProgramBaseAfterBuiltinBounds()
    ensures SecureRunnerVerdict(Runner(None, 0, Ok([BuiltinBound(2, 0)])), true, Vm(Memory(BuiltinSegmentMemory(), []), []))
         == Fail(OutOfBoundsBuiltinSegmentAccess)
  {
  }

  /** The first failing builtin's own check is the verdict, and the builtins
      after it are not consulted. */
  lemma FirstFailingBuiltinCheck()
    ensures SecureRunnerVerdict(LoadedRunner(0, []), false,
              Vm(Memory([[]], []), [BuiltinRunner("pedersen", Pass), BuiltinRunner("range_check", Fail(External(1))),
                                   BuiltinRunner("bitwise", Fail(External(2)))]))
         == Fail(External(1))
  {
  }
}
