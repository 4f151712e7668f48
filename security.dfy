/** Security verification of a finished run: the check that decides whether
    the run's memory may be relocated. It reads the runner and the memory and
    changes nothing; it runs four steps in a fixed order and stops at the
    first one that fails. */
module Security {
  import opened Wrappers
  import opened Addresses
  import opened VmErrors
  import opened VmMemory

  /** A builtin's segment and its stop pointer: the number of cells the
      builtin itself considers used. */
  datatype BuiltinBound = BuiltinBound(segmentIndex: nat, stopPtr: nat)

  /** What verification reads from the runner. `builtinSegmentsInfo` is the
      answer the runner gives when asked for the builtin segments; the query
      itself is not part of this model, and its answer may be an error. */
  datatype Runner = Runner(
    programBase: Option<Relocatable>,
    programLength: nat,
    builtinSegmentsInfo: Result<seq<BuiltinBound>, VmError>)

  /** A registered builtin and the outcome of its own security check on the
      run's memory; how that check decides is not part of this model. */
  datatype BuiltinRunner = BuiltinRunner(name: string, securityCheck: Outcome<VmError>)

  /** What verification reads from the virtual machine: its memory and its
      builtins in registration order. */
  datatype Vm = Vm(memory: Memory, builtinRunners: seq<BuiltinRunner>)

  /** Rust's `>=` on `Option<usize>`: `None` is below every `Some`. */
  predicate OptionGe(a: Option<nat>, b: Option<nat>)
  {
    match (a, b)
    case (None, None) => true
    case (None, Some(_)) => false
    case (Some(_), None) => true
    case (Some(x), Some(y)) => x >= y
  }

  /** The builtin's segment holds more cells than its stop pointer, in the
      source's terms: `current_size >= Some(stop_ptr + 1)`. */
  predicate ExceedsBound(data: seq<Segment>, bound: BuiltinBound)
  {
    OptionGe(SegmentSize(data, bound.segmentIndex), Some(bound.stopPtr + 1))
  }

  /** Reference reading of a builtin bound: the segment was never created, or
      its length is at most the stop pointer. */
  ghost predicate WithinBound(data: seq<Segment>, bound: BuiltinBound)
  {
    bound.segmentIndex >= |data| || |data[bound.segmentIndex]| <= bound.stopPtr
  }

  /** The builtin bound loop: fails at the first builtin whose segment
      exceeds its stop pointer. */
  function CheckBuiltinBounds(data: seq<Segment>, bounds: seq<BuiltinBound>): (r: Outcome<VmError>)
    ensures r.Pass? || r == Fail(OutOfBoundsBuiltinSegmentAccess)
  {
    if bounds == [] then Pass
    else if ExceedsBound(data, bounds[0]) then Fail(OutOfBoundsBuiltinSegmentAccess)
    else CheckBuiltinBounds(data, bounds[1..])
  }

  /** Step 1. With `verifyBuiltins` the runner's builtin segments are
      fetched (an error there is returned as it is) and checked; without it
      the list of bounds is empty. */
  function BuiltinBoundsStep(runner: Runner, verifyBuiltins: bool, data: seq<Segment>): Outcome<VmError>
  {
    match (if verifyBuiltins then runner.builtinSegmentsInfo else Ok([]))
    case Err(e) => Fail(e)
    case Ok(bounds) => CheckBuiltinBounds(data, bounds)
  }

  /** The program segment index: the program base's segment index when there
      is a base and that index converts to `usize`, that is, is not
      negative. */
  function ProgramSegmentIndex(programBase: Option<Relocatable>): Option<nat>
  {
    match programBase
    case None => None
    case Some(base) => if base.segmentIndex >= 0 then Some(base.segmentIndex as nat) else None
  }

  /** Step 2. The program base must be usable, and the program segment may
      hold no more cells than the program has words. */
  function ProgramBoundsStep(runner: Runner, data: seq<Segment>): Outcome<VmError>
  {
    match ProgramSegmentIndex(runner.programBase)
    case None => Fail(NoProgBase)
    case Some(index) =>
      if OptionGe(SegmentSize(data, index), Some(runner.programLength + 1))
      then Fail(OutOfBoundsProgramSegmentAccess)
      else Pass
  }

  /** Step 3. Only when some temporary segment exists: real memory must hold
      no temporary address; the first one found is reported. */
  function TemporaryAddressStep(memory: Memory): Outcome<VmError>
  {
    if |memory.tempData| == 0 then Pass
    else match FirstTemporaryAddress(memory.data)
      case Some(addr) => Fail(InvalidMemoryValueTemporaryAddress(addr))
      case None => Pass
  }

  /** Step 4. Each builtin's own security check, in registration order; the
      first failure is returned and later builtins are not consulted. */
  function BuiltinSecurityChecks(runners: seq<BuiltinRunner>): Outcome<VmError>
  {
    if runners == [] then Pass
    else if runners[0].securityCheck.Fail? then runners[0].securityCheck
    else BuiltinSecurityChecks(runners[1..])
  }

  /** The verdict of `verify_secure_runner`: the outcome of the first failing
      step, or `Pass` when all four pass. */
  function SecureRunnerVerdict(runner: Runner, verifyBuiltins: bool, vm: Vm): Outcome<VmError>
  {
    var builtinBounds := BuiltinBoundsStep(runner, verifyBuiltins, vm.memory.data);
    if builtinBounds.Fail? then builtinBounds
    else
      var programBounds := ProgramBoundsStep(runner, vm.memory.data);
      if programBounds.Fail? then programBounds
      else
        var temporaryAddresses := TemporaryAddressStep(vm.memory);
        if temporaryAddresses.Fail? then temporaryAddresses
        else BuiltinSecurityChecks(vm.builtinRunners)
  }

  /** `verify_secure_runner` as the source writes it: three early-return
      loops over the builtin bounds, the real cells and the builtins. */
  method VerifySecureRunner(runner: Runner, verifyBuiltins: bool, vm: Vm) returns (r: Outcome<VmError>)
    ensures r == SecureRunnerVerdict(runner, verifyBuiltins, vm)
  {
    var data := vm.memory.data;
    var bounds: seq<BuiltinBound> := [];
    if verifyBuiltins {
      match runner.builtinSegmentsInfo
      case Err(e) => return Fail(e);
      case Ok(info) => bounds := info;
    }
    for i := 0 to |bounds|
      invariant CheckBuiltinBounds(data, bounds[i..]) == CheckBuiltinBounds(data, bounds)
    {
      var currentSize := if bounds[i].segmentIndex < |data| then Some(|data[bounds[i].segmentIndex]|) else None;
      if OptionGe(currentSize, Some(bounds[i].stopPtr + 1)) {
        return Fail(OutOfBoundsBuiltinSegmentAccess);
      }
      assert bounds[i..][1..] == bounds[i + 1..];
    }
    var programSegmentIndex: nat;
    match runner.programBase
    case None => return Fail(NoProgBase);
    case Some(base) =>
      if base.segmentIndex < 0 {
        return Fail(NoProgBase);
      }
      programSegmentIndex := base.segmentIndex as nat;
    var programSegmentSize := if programSegmentIndex < |data| then Some(|data[programSegmentIndex]|) else None;
    if OptionGe(programSegmentSize, Some(runner.programLength + 1)) {
      return Fail(OutOfBoundsProgramSegmentAccess);
    }
    if |vm.memory.tempData| != 0 {
      for s := 0 to |data|
        invariant MemoryScan(data, s) == FirstTemporaryAddress(data)
      {
        for o := 0 to |data[s]|
          invariant SegmentScan(data[s], o) == SegmentScan(data[s], 0)
        {
          match data[s][o]
          case Some(RelocatableValue(addr)) =>
            if addr.segmentIndex < 0 {
              return Fail(InvalidMemoryValueTemporaryAddress(addr));
            }
          case _ =>
        }
      }
    }
    var runners := vm.builtinRunners;
    for j := 0 to |runners|
      invariant BuiltinSecurityChecks(runners[j..]) == BuiltinSecurityChecks(runners)
    {
      if runners[j].securityCheck.Fail? {
        return runners[j].securityCheck;
      }
      assert runners[j..][1..] == runners[j + 1..];
    }
    return Pass;
  }

  /** Step 1 passes exactly when, if bounds are verified, the runner gives its
      builtin segments and every builtin is within its bound. */
  ghost predicate BuiltinBoundsHold(runner: Runner, verifyBuiltins: bool, data: seq<Segment>)
  {
    verifyBuiltins ==>
      && runner.builtinSegmentsInfo.Ok?
      && forall i :: 0 <= i < |runner.builtinSegmentsInfo.value| ==>
           WithinBound(data, runner.builtinSegmentsInfo.value[i])
  }

  /** Step 2 passes exactly when the program base has a non-negative segment
      index and that segment, if it exists, is no longer than the program. */
  ghost predicate ProgramBoundsHold(runner: Runner, data: seq<Segment>)
  {
    && runner.programBase.Some?
    && runner.programBase.value.segmentIndex >= 0
    && (runner.programBase.value.segmentIndex >= |data|
        || |data[runner.programBase.value.segmentIndex]| <= runner.programLength)
  }

  /** Step 3 passes exactly when there is no temporary segment or no real cell
      holds a temporary address. */
  ghost predicate TemporaryAddressesHold(memory: Memory)
  {
    |memory.tempData| == 0 || NoTemporaryAddress(memory.data)
  }

  /** Step 4 passes exactly when every builtin's own check passes. */
  ghost predicate SecurityChecksHold(runners: seq<BuiltinRunner>)
  {
    forall j :: 0 <= j < |runners| ==> runners[j].securityCheck.Pass?
  }

  /** A run that is safe to relocate. */
  ghost predicate SecureRun(runner: Runner, verifyBuiltins: bool, vm: Vm)
  {
    && BuiltinBoundsHold(runner, verifyBuiltins, vm.memory.data)
    && ProgramBoundsHold(runner, vm.memory.data)
    && TemporaryAddressesHold(vm.memory)
    && SecurityChecksHold(vm.builtinRunners)
  }

  /** Option ordering: a missing segment never reaches a bound, a present one
      does when its length is at least the bound. */
  lemma OptionGeBound(size: Option<nat>, bound: nat)
    ensures OptionGe(size, Some(bound)) <==> size.Some? && size.value >= bound
    ensures !OptionGe(None, Some(bound))
  {
  }

  /** The builtin bound loop passes exactly when every builtin is within its
      bound; a builtin whose segment was never created always is. */
  lemma {:induction false} CheckBuiltinBoundsPassIff(data: seq<Segment>, bounds: seq<BuiltinBound>)
    ensures CheckBuiltinBounds(data, bounds).Pass?
        <==> forall i :: 0 <= i < |bounds| ==> WithinBound(data, bounds[i])
  {
    if bounds != [] {
      CheckBuiltinBoundsPassIff(data, bounds[1..]);
      assert forall i :: 1 <= i < |bounds| ==> bounds[i] == bounds[1..][i - 1];
    }
  }

  /** The builtin bound loop only reads segment lengths. */
  lemma {:induction false} CheckBuiltinBoundsShape(data: seq<Segment>, data': seq<Segment>, bounds: seq<BuiltinBound>)
    requires SameShape(data, data')
    ensures CheckBuiltinBounds(data, bounds) == CheckBuiltinBounds(data', bounds)
  {
    if bounds != [] {
      CheckBuiltinBoundsShape(data, data', bounds[1..]);
    }
  }

  lemma BuiltinBoundsStepPassIff(runner: Runner, verifyBuiltins: bool, data: seq<Segment>)
    ensures BuiltinBoundsStep(runner, verifyBuiltins, data).Pass? <==> BuiltinBoundsHold(runner, verifyBuiltins, data)
  {
    if verifyBuiltins && runner.builtinSegmentsInfo.Ok? {
      CheckBuiltinBoundsPassIff(data, runner.builtinSegmentsInfo.value);
    }
  }

  /** Step 2's three outcomes and exactly when each occurs. */
  lemma ProgramBoundsStepCases(runner: Runner, data: seq<Segment>)
    ensures ProgramBoundsStep(runner, data) == Pass <==> ProgramBoundsHold(runner, data)
    ensures ProgramBoundsStep(runner, data) == Fail(NoProgBase)
        <==> runner.programBase.None? || runner.programBase.value.segmentIndex < 0
    ensures ProgramBoundsStep(runner, data) == Fail(OutOfBoundsProgramSegmentAccess)
        <==> && runner.programBase.Some?
             && 0 <= runner.programBase.value.segmentIndex < |data|
             && |data[runner.programBase.value.segmentIndex]| > runner.programLength
  {
  }

  lemma TemporaryAddressStepPassIff(memory: Memory)
    ensures TemporaryAddressStep(memory).Pass? <==> TemporaryAddressesHold(memory)
  {
    FirstTemporaryAddressNone(memory.data);
  }

  lemma {:induction false} SecurityChecksPassIff(runners: seq<BuiltinRunner>)
    ensures BuiltinSecurityChecks(runners).Pass? <==> SecurityChecksHold(runners)
  {
    if runners != [] {
      SecurityChecksPassIff(runners[1..]);
      assert forall j :: 1 <= j < |runners| ==> runners[j] == runners[1..][j - 1];
    }
  }

  /** When the builtins' checks fail, the error returned is that of the
      first failing builtin. */
  lemma {:induction false} FailingSecurityCheck(runners: seq<BuiltinRunner>) returns (j: nat)
    requires BuiltinSecurityChecks(runners).Fail?
    ensures j < |runners| && runners[j].securityCheck == BuiltinSecurityChecks(runners)
    ensures forall k :: 0 <= k < j ==> runners[k].securityCheck.Pass?
  {
    if runners[0].securityCheck.Fail? {
      j := 0;
    } else {
      var j' := FailingSecurityCheck(runners[1..]);
      j := j' + 1;
      assert forall k :: 1 <= k < j ==> runners[k] == runners[1..][k - 1];
    }
  }

  /** The first failing builtin's error is the one returned. */
  lemma {:induction false} FirstFailingSecurityCheck(runners: seq<BuiltinRunner>, j: nat)
    requires j < |runners| && runners[j].securityCheck.Fail?
    requires forall k :: 0 <= k < j ==> runners[k].securityCheck.Pass?
    ensures BuiltinSecurityChecks(runners) == runners[j].securityCheck
  {
    if j > 0 {
      FirstFailingSecurityCheck(runners[1..], j - 1);
    }
  }

  /** Builtins after a failing one are never consulted: replacing them
      changes nothing. */
  lemma {:induction false} LaterSecurityChecksIgnored(runners: seq<BuiltinRunner>, j: nat, later: seq<BuiltinRunner>)
    requires j < |runners| && runners[j].securityCheck.Fail?
    ensures BuiltinSecurityChecks(runners[..j + 1] + later) == BuiltinSecurityChecks(runners)
  {
    if runners[0].securityCheck.Pass? {
      assert (runners[..j + 1] + later)[1..] == runners[1..][..j] + later;
      LaterSecurityChecksIgnored(runners[1..], j - 1, later);
    }
  }

  /** The verdict is `Pass` exactly when the run is secure: every builtin
      within bounds (when checked), the program segment within the program,
      no leftover temporary address (when a temporary segment exists) and
      every builtin's own check passing. */
  lemma SecureRunnerPassIff(runner: Runner, verifyBuiltins: bool, vm: Vm)
    ensures SecureRunnerVerdict(runner, verifyBuiltins, vm) == Pass <==> SecureRun(runner, verifyBuiltins, vm)
  {
    BuiltinBoundsStepPassIff(runner, verifyBuiltins, vm.memory.data);
    ProgramBoundsStepCases(runner, vm.memory.data);
    TemporaryAddressStepPassIff(vm.memory);
    SecurityChecksPassIff(vm.builtinRunners);
  }

  /** An error from the builtin segment query is returned before anything
      else is checked. */
  lemma SegmentsInfoErrorFirst(runner: Runner, vm: Vm, e: VmError)
    requires runner.builtinSegmentsInfo == Err(e)
    ensures SecureRunnerVerdict(runner, true, vm) == Fail(e)
  {
  }

  /** With bounds verified, any builtin whose segment holds at least
      `stop_ptr + 1` cells makes the verdict `OutOfBoundsBuiltinSegmentAccess`,
      whatever the program, memory and builtins' own checks are. */
  lemma BuiltinOutOfBoundsFirst(runner: Runner, vm: Vm, i: nat)
    requires runner.builtinSegmentsInfo.Ok? && i < |runner.builtinSegmentsInfo.value|
    requires runner.builtinSegmentsInfo.value[i].segmentIndex < |vm.memory.data|
    requires |vm.memory.data[runner.builtinSegmentsInfo.value[i].segmentIndex]|
             >= runner.builtinSegmentsInfo.value[i].stopPtr + 1
    ensures SecureRunnerVerdict(runner, true, vm) == Fail(OutOfBoundsBuiltinSegmentAccess)
  {
    CheckBuiltinBoundsPassIff(vm.memory.data, runner.builtinSegmentsInfo.value);
  }

  /** Without bound verification the verdict is that of a runner with no
      builtin bounds: the bound step never fails, and the later steps,
      the builtins' own checks included, still run. */
  lemma UncheckedBuiltinBounds(runner: Runner, vm: Vm)
    ensures BuiltinBoundsStep(runner, false, vm.memory.data) == Pass
    ensures SecureRunnerVerdict(runner, false, vm)
         == SecureRunnerVerdict(runner.(builtinSegmentsInfo := Ok([])), true, vm)
  {
  }

  /** Once the builtin bounds pass, a missing program base, or one with a
      negative segment index, makes the verdict `NoProgBase`. */
  lemma MissingProgramBaseSecond(runner: Runner, verifyBuiltins: bool, vm: Vm)
    requires BuiltinBoundsHold(runner, verifyBuiltins, vm.memory.data)
    requires runner.programBase.None? || runner.programBase.value.segmentIndex < 0
    ensures SecureRunnerVerdict(runner, verifyBuiltins, vm) == Fail(NoProgBase)
  {
    BuiltinBoundsStepPassIff(runner, verifyBuiltins, vm.memory.data);
  }

  /** Once the builtin bounds pass, a program segment holding more cells than
      the program has words makes the verdict
      `OutOfBoundsProgramSegmentAccess`. */
  lemma ProgramOutOfBoundsThird(runner: Runner, verifyBuiltins: bool, vm: Vm)
    requires BuiltinBoundsHold(runner, verifyBuiltins, vm.memory.data)
    requires runner.programBase.Some? && 0 <= runner.programBase.value.segmentIndex < |vm.memory.data|
    requires |vm.memory.data[runner.programBase.value.segmentIndex]| >= runner.programLength + 1
    ensures SecureRunnerVerdict(runner, verifyBuiltins, vm) == Fail(OutOfBoundsProgramSegmentAccess)
  {
    BuiltinBoundsStepPassIff(runner, verifyBuiltins, vm.memory.data);
  }

  /** A program base whose segment was never created passes the program
      bound check, whatever the program length. */
  lemma AbsentProgramSegmentPasses(runner: Runner, data: seq<Segment>)
    requires runner.programBase.Some? && runner.programBase.value.segmentIndex >= |data|
    ensures ProgramBoundsStep(runner, data) == Pass
  {
  }

  /** Once the bound checks pass and a temporary segment exists, the verdict
      reports exactly the address in the first real cell, in
      segment-then-offset order, that holds a temporary address. */
  lemma TemporaryAddressFourth(runner: Runner, verifyBuiltins: bool, vm: Vm, s: nat, o: nat, addr: Relocatable)
    requires BuiltinBoundsHold(runner, verifyBuiltins, vm.memory.data)
    requires ProgramBoundsHold(runner, vm.memory.data)
    requires |vm.memory.tempData| > 0
    requires IsFirstTemporary(vm.memory.data, s, o)
    requires vm.memory.data[s][o] == Some(RelocatableValue(addr))
    ensures SecureRunnerVerdict(runner, verifyBuiltins, vm) == Fail(InvalidMemoryValueTemporaryAddress(addr))
  {
    BuiltinBoundsStepPassIff(runner, verifyBuiltins, vm.memory.data);
    ProgramBoundsStepCases(runner, vm.memory.data);
    FirstTemporaryIsReported(vm.memory.data, s, o);
  }

  /** Without temporary segments the scan is skipped: the verdict depends on
      the real segments' lengths only, so no temporary address left in them,
      nor any other cell content, changes it. */
  lemma NoTemporarySegmentsBlindSpot(runner: Runner, verifyBuiltins: bool, vm: Vm, data': seq<Segment>)
    requires |vm.memory.tempData| == 0
    requires SameShape(vm.memory.data, data')
    ensures SecureRunnerVerdict(runner, verifyBuiltins, vm)
         == SecureRunnerVerdict(runner, verifyBuiltins, vm.(memory := vm.memory.(data := data')))
  {
    if verifyBuiltins && runner.builtinSegmentsInfo.Ok? {
      CheckBuiltinBoundsShape(vm.memory.data, data', runner.builtinSegmentsInfo.value);
    }
  }

  /** Once every earlier step passes, the first failing builtin's own check
      decides the verdict, whether or not bounds were verified. */
  lemma FailingSecurityCheckLast(runner: Runner, verifyBuiltins: bool, vm: Vm, j: nat)
    requires BuiltinBoundsHold(runner, verifyBuiltins, vm.memory.data)
    requires ProgramBoundsHold(runner, vm.memory.data)
    requires TemporaryAddressesHold(vm.memory)
    requires j < |vm.builtinRunners| && vm.builtinRunners[j].securityCheck.Fail?
    requires forall k :: 0 <= k < j ==> vm.builtinRunners[k].securityCheck.Pass?
    ensures SecureRunnerVerdict(runner, verifyBuiltins, vm) == vm.builtinRunners[j].securityCheck
  {
    BuiltinBoundsStepPassIff(runner, verifyBuiltins, vm.memory.data);
    ProgramBoundsStepCases(runner, vm.memory.data);
    TemporaryAddressStepPassIff(vm.memory);
    FirstFailingSecurityCheck(vm.builtinRunners, j);
  }
}
