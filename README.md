# Security verification of a Cairo VM run

This project models `verify_secure_runner` from cairo-rs. The function runs
once after a Cairo program has finished. It decides whether the run's
segmented memory may be relocated into one flat address space. It only
reads the runner and the memory, and it stops at the first failing step.
The steps run in this order:

1. **Builtin bounds.** This step runs only when `verify_builtins` is set.
   For each builtin, in order, the real segment named by the builtin must
   hold no more cells than the builtin's stop pointer. A segment that was
   never created passes, because Rust orders `None` below every `Some`.
2. **Program bounds.** The runner needs a program base whose segment index
   converts to `usize` (it is not negative); otherwise the result is
   `NoProgBase`. The program segment may hold no more cells than the
   program has words.
3. **Temporary addresses.** This step runs only when at least one temporary
   segment exists. Real memory is scanned segment by segment, and each
   segment offset by offset. The first cell holding an address with a
   negative segment index is reported.
4. **Builtin self-checks.** Each builtin's own security check runs in
   registration order. The first failure is returned.

The modules are:
- `Wrappers`: `Option`, `Result`, and `Outcome` (`Result<(), E>`).
- `Addresses`: `Relocatable` and `MaybeRelocatable`.
- `VmErrors`: the error kinds.
- `VmMemory`: the real and temporary segments, segment sizes, and the scan
  for the first temporary address.
- `Security`: the runner and VM records, the four steps, and the verdict
  `SecureRunnerVerdict`. It also holds `VerifySecureRunner`, a method with
  the source's three early-return loops that is proved to return that
  verdict, and the lemmas about the verdict.
- `SecurityTests`: the source's unit-test scenarios as lemmas.

The source takes `&mut VirtualMachine` but never writes through it. The model
passes the runner and the VM as values, so verification cannot change them.

Two consequences of the code's order and reads:
- Sizes are the raw length of `vm.memory.data[index]` (src/vm/security.rs:34
  and 45-49). `segment_used_sizes` and effective sizes are not read.
- A missing program base is reported only once step 1 passes. With bounds
  verified, a failing segment query or a builtin out of bounds is reported
  first (`Security.SegmentsInfoErrorFirst`,
  `SecurityTests.MissingProgramBaseAfterBuiltinBounds`).

## Model

| member | source | states |
|---|---|---|
| `VmMemory.SegmentSize` | src/vm/security.rs:45-49 | No contract of its own. It gives `data.get(index).map(len)`: the segment's length, or `None` for a segment never created. `Security.OptionGeBound`, `Security.CheckBuiltinBoundsPassIff` and `Security.ProgramBoundsStepCases` characterise it. |
| `VmMemory.SegmentScan` | src/vm/security.rs:58-67 | No contract of its own. It is the offset-order scan of one segment, characterised by `VmMemory.SegmentScanNone` and `VmMemory.SegmentScanPosition`. |
| `VmMemory.MemoryScan` | src/vm/security.rs:58-67 | No contract of its own. It is the segment-then-offset scan of `data.iter().flatten()`, characterised by `VmMemory.MemoryScanNone` and `VmMemory.MemoryScanPosition`. |
| `VmMemory.FirstTemporaryAddress` | src/vm/security.rs:58-67 | No contract of its own. It is the whole-memory scan, characterised in both directions by `VmMemory.FirstTemporaryAddressNone`, `VmMemory.FirstTemporaryAddressPosition` and `VmMemory.FirstTemporaryIsReported`. |
| `Security.OptionGe` | src/vm/security.rs:36 | No contract of its own. It is Rust's `>=` on `Option<usize>`, with `None` below every `Some`; `Security.OptionGeBound` characterises it. |
| `Security.ExceedsBound` | src/vm/security.rs:34-36 | No contract of its own. It is the test `current_size >= Some(stop_ptr + 1)`; `Security.CheckBuiltinBoundsPassIff` relates it to the reference bound `WithinBound`. |
| `Security.BuiltinBoundsStep` | src/vm/security.rs:28-39 | No contract of its own. It is step 1, characterised by `Security.BuiltinBoundsStepPassIff`, `Security.SegmentsInfoErrorFirst`, `Security.BuiltinOutOfBoundsFirst` and `Security.UncheckedBuiltinBounds`. |
| `Security.ProgramSegmentIndex` | src/vm/security.rs:41-44 | No contract of its own. It is `program_base.and_then(to_usize)`: no index for a missing base or a negative segment index; `Security.ProgramBoundsStepCases` and `Security.MissingProgramBaseSecond` characterise it. |
| `Security.ProgramBoundsStep` | src/vm/security.rs:41-53 | No contract of its own. It is step 2, characterised by `Security.ProgramBoundsStepCases` and `Security.AbsentProgramSegmentPasses`. |
| `Security.TemporaryAddressStep` | src/vm/security.rs:54-68 | No contract of its own. It is step 3, characterised by `Security.TemporaryAddressStepPassIff`, `Security.TemporaryAddressFourth` and `Security.NoTemporarySegmentsBlindSpot`. |
| `Security.BuiltinSecurityChecks` | src/vm/security.rs:69-71 | No contract of its own. It is step 4, characterised by `Security.SecurityChecksPassIff`, `Security.FailingSecurityCheck`, `Security.FirstFailingSecurityCheck` and `Security.LaterSecurityChecksIgnored`. |
| `Security.SecureRunnerVerdict` | src/vm/security.rs:23-74 | No contract of its own. It is the verdict of `verify_secure_runner`, characterised by `Security.SecureRunnerPassIff` and the precedence lemmas `Security.SegmentsInfoErrorFirst`, `Security.BuiltinOutOfBoundsFirst`, `Security.MissingProgramBaseSecond`, `Security.ProgramOutOfBoundsThird`, `Security.TemporaryAddressFourth` and `Security.FailingSecurityCheckLast`. `Security.VerifySecureRunner` is proved to return it. |
| `VmMemory.TemporaryAddress` | src/vm/security.rs:59-66 | A cell yields an address exactly when it holds an address whose segment index is negative. Holes, field elements and real addresses yield nothing. |
| `VmMemory.SegmentScanNone` | src/vm/security.rs:58-67 | The scan of one segment finds nothing exactly when no cell from the start offset on holds a temporary address. |
| `VmMemory.SegmentScanPosition` | src/vm/security.rs:58-67 | A hit in one segment is the address in a cell at or after the start offset, and no earlier cell in that range holds a temporary address. |
| `VmMemory.MemoryScanNone` | src/vm/security.rs:58-67 | The scan of the segments from a given index on finds nothing exactly when none of their cells holds a temporary address. |
| `VmMemory.MemoryScanPosition` | src/vm/security.rs:58-67 | A hit from a given segment on is the address in some cell, and no cell before it in segment-then-offset order holds a temporary address. |
| `VmMemory.FirstTemporaryAddressNone` | src/vm/security.rs:58-67 | The whole-memory scan finds nothing exactly when no real cell holds a temporary address. |
| `VmMemory.FirstTemporaryAddressPosition` | src/vm/security.rs:58-67 | A reported address is the content of the first temporary cell in segment-then-offset order. |
| `VmMemory.FirstTemporaryIsReported` | src/vm/security.rs:57-67 | Conversely, the first temporary cell's address, and no other, is what the scan returns. |
| `Security.OptionGeBound` | src/vm/security.rs:34-36 | `size >= Some(bound)` holds exactly when the segment exists and its length reaches the bound. An absent segment never does. |
| `Security.CheckBuiltinBounds` | src/vm/security.rs:33-39 | The builtin bound loop either passes or fails with `OutOfBoundsBuiltinSegmentAccess`, never with another error. |
| `Security.CheckBuiltinBoundsPassIff` | src/vm/security.rs:33-39 | The bound loop passes exactly when every builtin's segment is absent or no longer than its stop pointer. |
| `Security.CheckBuiltinBoundsShape` | src/vm/security.rs:33-39 | The bound loop depends only on segment lengths, not on cell contents. |
| `Security.BuiltinBoundsStepPassIff` | src/vm/security.rs:28-39 | Step 1 passes exactly when either bounds are not verified, or the builtin segment query succeeds and every builtin is within bounds. |
| `Security.ProgramBoundsStepCases` | src/vm/security.rs:41-53 | Step 2 gives `NoProgBase` exactly when the base is missing or has a negative segment index. It gives `OutOfBoundsProgramSegmentAccess` exactly when the program segment exists and is longer than the program. Otherwise it passes. |
| `Security.AbsentProgramSegmentPasses` | src/vm/security.rs:45-53 | A program segment that was never created passes step 2, whatever the program length. |
| `Security.TemporaryAddressStepPassIff` | src/vm/security.rs:54-68 | Step 3 passes exactly when no temporary segment exists or no real cell holds a temporary address. |
| `Security.SecurityChecksPassIff` | src/vm/security.rs:69-71 | Step 4 passes exactly when every builtin's own check passes. |
| `Security.FailingSecurityCheck` | src/vm/security.rs:69-71 | A failure of step 4 is the outcome of some builtin whose predecessors all passed. |
| `Security.FirstFailingSecurityCheck` | src/vm/security.rs:69-71 | The first failing builtin's error is the one step 4 returns. |
| `Security.LaterSecurityChecksIgnored` | src/vm/security.rs:69-71 | Builtins after a failing one are not consulted: replacing them leaves step 4's outcome unchanged. |
| `Security.VerifySecureRunner` | src/vm/security.rs:23-74 | The loop implementation returns exactly the verdict of the four steps taken in order, stopping at the first failure. |
| `Security.SecureRunnerPassIff` | src/vm/security.rs:23-74 | The verdict is `Ok(())` exactly when all four conditions hold: builtin bounds (when checked), a usable program base with the program segment in bounds, no leftover temporary address (when a temporary segment exists), and every builtin self-check passing. |
| `Security.SegmentsInfoErrorFirst` | src/vm/security.rs:28-29 | With bounds verified, an error from the builtin segment query is the verdict, whatever else holds. |
| `Security.BuiltinOutOfBoundsFirst` | src/vm/security.rs:28-39 | With bounds verified, one builtin whose segment holds `stop_ptr + 1` or more cells makes the verdict `OutOfBoundsBuiltinSegmentAccess`, whatever the later steps would give. |
| `Security.UncheckedBuiltinBounds` | src/vm/security.rs:28-31 | Without bound verification, step 1 never fails and the verdict equals that of a runner with an empty bound list. The builtin self-checks still run. |
| `Security.MissingProgramBaseSecond` | src/vm/security.rs:41-44 | Once step 1 passes, a missing base or one with a negative segment index makes the verdict `NoProgBase`. |
| `Security.ProgramOutOfBoundsThird` | src/vm/security.rs:45-53 | Once step 1 passes, a program segment of at least program length + 1 cells makes the verdict `OutOfBoundsProgramSegmentAccess`. |
| `Security.TemporaryAddressFourth` | src/vm/security.rs:54-68 | Once steps 1 and 2 pass and a temporary segment exists, the verdict is `InvalidMemoryValueTemporaryAddress(a)`, where `a` is the address in the first temporary cell in segment-then-offset order. |
| `Security.NoTemporarySegmentsBlindSpot` | src/vm/security.rs:54-57 | Without temporary segments, the verdict does not change when real cell contents change and segment lengths stay the same. A leftover temporary address is therefore never reported. |
| `Security.FailingSecurityCheckLast` | src/vm/security.rs:69-73 | Once steps 1 to 3 pass, the first failing builtin self-check is the verdict, with or without bound verification. |
| `SecurityTests.WithoutProgramBase` | src/vm/security.rs:88-99 | An uninitialised runner gives `NoProgBase`. |
| `SecurityTests.EmptyMemory` | src/vm/security.rs:101-111 | An initialised run with an empty program passes. |
| `SecurityTests.ProgramAccessOutOfBounds` | src/vm/security.rs:113-129 | One cell in the program segment of a zero-word program gives `OutOfBoundsProgramSegmentAccess`. |
| `SecurityTests.BuiltinAccessOutOfBounds` | src/vm/security.rs:131-147 | Stop pointer 0 with a one-cell builtin segment gives `OutOfBoundsBuiltinSegmentAccess`. |
| `SecurityTests.BuiltinAccessCorrect` | src/vm/security.rs:149-166 | Stop pointer 1 with a one-cell builtin segment passes. |
| `SecurityTests.Success` | src/vm/security.rs:168-194 | Four real addresses in the program segment of a four-word program pass. |
| `SecurityTests.TemporaryMemoryProperlyRelocated` | src/vm/security.rs:196-223 | With a temporary segment and only real addresses in real memory, the run passes. |
| `SecurityTests.TemporaryMemoryNotFullyRelocated` | src/vm/security.rs:225-257 | With a temporary segment, the leftover address `(-3, 2)` is reported. |
| `SecurityTests.TemporaryAddressWithoutTemporarySegments` | src/vm/security.rs:54-57 | The same leftover address passes when no temporary segment exists. |
| `SecurityTests.MissingProgramBaseAfterBuiltinBounds` | src/vm/security.rs:28-44 | Without a program base, a builtin out of bounds is still the verdict. |
| `SecurityTests.FirstFailingBuiltinCheck` | src/vm/security.rs:69-71 | With three builtins whose checks pass, fail, and fail, the second builtin's error is the verdict. |

## Left out

- The builtin segment query (`get_builtin_segments_info`) is not modelled. Its answer, a bound list or an error, is an input field `Runner.builtinSegmentsInfo`.
- Each builtin's own `run_security_checks` is not modelled, because it is per-builtin logic outside this function. Its outcome is an input, `BuiltinRunner.securityCheck`. Both collaborators may return any error kind. `VmError.External` stands for the errors that only they raise, which this model keeps opaque.
- Field elements are not modelled. A scalar cell is `Int(felt: int)`, and its value is never inspected.
- The conversion of `RunnerError` into `VirtualMachineError` is not modelled. A single error type has a `NoProgBase` variant.
- `segment_used_sizes` and effective sizes are not modelled, because this function does not read them.
- Program loading, runner initialisation, hint processing and relocation are not modelled. The test lemmas write the memory those steps would leave as literal values.
- Security.CheckBuiltinBounds: `stop_ptr + 1` is computed on unbounded naturals. The `usize` wrap (or debug-build panic) at `usize::MAX` is not modelled.
- Security.ProgramBoundsStep: `program.data.len() + 1` is computed on unbounded naturals, here and in `Security.VerifySecureRunner`. The `usize` wrap at `usize::MAX` is not modelled.
- Security.VerifySecureRunner: the `&mut VirtualMachine` parameter becomes a value. Nothing is written through it in the source, so no state change is lost.
