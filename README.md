# WebAssembly test-runner bookkeeping, modelled in Dafny

V8's cctest harness for WebAssembly (`test/cctest/wasm/wasm-run-utils.h`)
gives each test a `WasmRunner`. The runner has these parts:

- A `TestingModuleBuilder`: the signature table, the test tier, the
  tiering state and the linear memory.
- The test's functions.
- A cache of JavaScript wrappers.
- The protocol for calling the main function and checking what it returned.

That call protocol runs in two ways:

- On the compiled tiers, the harness sets the thread-in-wasm flag and
  registers a single-shot trap callback. A trap then comes back as the value
  `0xDEADBEEFDEADBEEF`, converted to the return type.
- In the interpreter, the final state of the interpreter (finished, trapped,
  or stopped) decides the result. It also records possible nondeterminism.

This project models that bookkeeping and proves what the harness relies on.

The modules, in dependency order:

- `Outcomes` (`outcomes.dfy`): `Option`, and `Result`. A failed `CHECK`
  aborts the process; here it is the value `CheckFailed(name)`. A `DCHECK`
  is a debug-only assertion, so it becomes a precondition.
- `Tiers` (`tiers.dfy`): `TestExecutionTier`, the engine's `ExecutionTier`
  and the translation between them.
- `MachineTypes` (`machine_types.dfy`): the C integer types with their
  widths and two's-complement conversions. Also the trap sentinel, the
  `CHECK_TRAP32`/`CHECK_TRAP64` masks and `WasmValueInitializer`.
- `LinearMemory` (`linear_memory.dfy`): little-endian encoding and decoding
  of values in a byte sequence.
- `ModuleBuilder` (`module_builder.dfy`): the `TestingModuleBuilder` class.
  Its memory is an `array<byte>` that `BlankMemory`, `WriteMemory` and
  `ReadMemory` work on byte by byte, proved against `LinearMemory`.
- `Runner` (`runner.dfy`): holds the following.
  - The trap-callback state.
  - A `ThreadState` object for the process-wide and thread-local state:
    `trap_happened`, the registered trap callback, the thread-in-wasm flag
    and the isolate's context.
  - The `WasmRunner` class: `NewFunction`, `Build`, `TierDown`, `Call`,
    `CallInterpreter`, `CheckCallApplyViaJS` and the two `CheckCallViaJS`
    forms.

The engine itself is outside the model. This covers compiled code, the
interpreter's execution, `Execution::TryCall` and `WrapCode`. Each call
therefore takes a value that describes what the engine did. `NativeRun`
gives the wrapper's return value, whether a trap was signalled, the value
stored in the return slot, and the context left behind. `InterpreterRun` and
`JsRun` do the same for the interpreter and JavaScript calls. The harness's
own logic around these inputs is modelled branch by branch, with its
`CHECK`s and constants, except for the parts listed under "Left out" (the
floating-point comparisons and the wrapper set-up around compiled calls).

`AddSignature` (wasm-run-utils.h:123-130) does not deduplicate: every
signature is appended to `types` and the result is the new length minus one.
Only the canonical id is shared between equal signatures, so in the model
`types` always grows and `signatureMap` grows only for a new signature.

## Model

| member | source | states |
|---|---|---|
| Tiers.ToExecutionTier | test/cctest/wasm/wasm-run-utils.h:248-257 | execution_tier() is defined only for the two compiled test tiers. It maps Liftoff to Liftoff and Turbofan to Turbofan, and nothing else. |
| Tiers.FromExecutionTier | test/cctest/wasm/wasm-run-utils.h:50-55 | The test tiers that share the engine tiers' numeric values are exactly the compiled ones, Liftoff going to Liftoff. |
| Tiers.TierRoundTrip | test/cctest/wasm/wasm-run-utils.h:50-55 | The engine tiers and the compiled test tiers correspond one to one. execution_tier() inverts the shared numbering. |
| MachineTypes.Cast | test/cctest/wasm/wasm-run-utils.h:582 | static_cast to an integer type gives the one value of that type congruent to the argument modulo 2^(8·sizeof). |
| MachineTypes.Bits | test/cctest/wasm/wasm-run-utils.h:75-78 | The bit_cast to the unsigned type of the same width is below 2^(8·sizeof). |
| MachineTypes.CastOfBits | test/cctest/wasm/wasm-run-utils.h:158-166 | Converting a value's bit pattern back to its type gives the value. |
| MachineTypes.CastThroughInt64 | test/cctest/wasm/wasm-run-utils.h:617-618 | Narrowing through int64_t first gives the same value as narrowing directly. |
| MachineTypes.CompiledTrapValue | test/cctest/wasm/wasm-run-utils.h:582 | The value a trapped compiled call returns has as its bit pattern the low bits of 0xDEADBEEFDEADBEEF. |
| MachineTypes.InterpreterTrapValue | test/cctest/wasm/wasm-run-utils.h:615-618 | The interpreter's trap value is a value of the return type. |
| MachineTypes.TrapValuesAgree | test/cctest/wasm/wasm-run-utils.h:582-602 | The compiled tier and the interpreter report a trap with the same value of every return type. |
| MachineTypes.CheckTrap32 | test/cctest/wasm/wasm-run-utils.h:75-76 | CHECK_TRAP32: masking a 32-bit bit pattern with 0xFFFFFFFF changes nothing, so the check compares the bit pattern with 0xDEADBEEF. |
| MachineTypes.CheckTrap64 | test/cctest/wasm/wasm-run-utils.h:77-78 | CHECK_TRAP64: masking a 64-bit bit pattern changes nothing, so the check compares the bit pattern with 0xDEADBEEFDEADBEEF. |
| MachineTypes.CheckTrap32Accepts | test/cctest/wasm/wasm-run-utils.h:75-76 | CHECK_TRAP32 accepts a 32-bit value exactly when it is the value a trapped call returns. |
| MachineTypes.CheckTrap64Accepts | test/cctest/wasm/wasm-run-utils.h:77-78 | CHECK_TRAP64 accepts a 64-bit value exactly when it is the value a trapped call returns. |
| MachineTypes.WasmValueInitializer | test/cctest/wasm/wasm-run-utils.h:540-551 | Every type up to 32 bits gives an i32 wasm value (int8_t and int16_t by their specialisations, uint8_t and uint16_t by integral promotion), and 64-bit types an i64. The bits fit the value type and convert back to the argument. |
| MachineTypes.SignExtension | test/cctest/wasm/wasm-run-utils.h:544-551 | Widening int8_t or int16_t is sign extension: its own bit pattern in the low bits, and its sign bit in every higher bit. |
| LinearMemory.Encode | test/cctest/wasm/wasm-run-utils.h:158-161 | WriteLittleEndianValue writes exactly sizeof(T) bytes. |
| LinearMemory.Decode | test/cctest/wasm/wasm-run-utils.h:163-166 | The number ReadLittleEndianValue assembles from w bytes is below 256^w. |
| LinearMemory.DecodeEncode | test/cctest/wasm/wasm-run-utils.h:158-166 | Decoding the little-endian encoding of a value gives the value. |
| LinearMemory.EncodeDecode | test/cctest/wasm/wasm-run-utils.h:158-166 | Encoding the value of a byte sequence gives the same bytes. |
| LinearMemory.DecodeSplit | test/cctest/wasm/wasm-run-utils.h:163-166 | In little-endian byte order, bytes at higher addresses carry more weight: a value splits at any byte into its low part and 256^k times the rest. |
| LinearMemory.Store | test/cctest/wasm/wasm-run-utils.h:158-161 | A write changes exactly the bytes it covers, and the memory keeps its size. |
| LinearMemory.ReadValue | test/cctest/wasm/wasm-run-utils.h:163-166 | A read gives a value of the requested type. |
| LinearMemory.WriteValue | test/cctest/wasm/wasm-run-utils.h:158-161 | A write leaves every byte outside [addr, addr+sizeof(T)) unchanged. |
| LinearMemory.WriteThenRead | test/cctest/wasm/wasm-run-utils.h:158-166 | Reading back a value where it was written gives the value. |
| LinearMemory.WriteKeepsOthers | test/cctest/wasm/wasm-run-utils.h:158-166 | A write leaves every value that does not overlap it as it was. |
| LinearMemory.Blank | test/cctest/wasm/wasm-run-utils.h:168-171 | The blank memory has mem_size_ bytes, every one of them zero. |
| LinearMemory.DecodeZeros | test/cctest/wasm/wasm-run-utils.h:168-171 | Zero bytes decode to zero. |
| LinearMemory.BlankReadsZero | test/cctest/wasm/wasm-run-utils.h:168-171 | Every value read from blanked memory is zero. |
| ModuleBuilder.FindSignature | test/cctest/wasm/wasm-run-utils.h:123-126 | Finding a signature among the canonical ones gives a position holding an equal signature, or none exactly when it is absent. |
| ModuleBuilder.SameIdIffSameSignature | test/cctest/wasm/wasm-run-utils.h:124-126 | Two signature indices share a canonical id exactly when their signatures are structurally equal. |
| ModuleBuilder.TestingModuleBuilder.constructor | test/cctest/wasm/wasm-run-utils.h:101-102 | A new builder has an empty signature table, the given tier and a memory of the given size. |
| ModuleBuilder.TestingModuleBuilder.AddSignature | test/cctest/wasm/wasm-run-utils.h:123-130 | The signature is always appended and the table stays canonical. The result is the new size minus one. The CHECK_GT(127, size) fails exactly when more than 126 signatures exist. |
| ModuleBuilder.TestingModuleBuilder.SetTieredDown | test/cctest/wasm/wasm-run-utils.h:234-237 | The native module is tiered down and the test tier becomes Liftoff. |
| ModuleBuilder.TestingModuleBuilder.TierDown | test/cctest/wasm/wasm-run-utils.h:239-242 | After tiering down, execution_tier() is Liftoff and one more recompilation is requested. |
| ModuleBuilder.TestingModuleBuilder.CurrentExecutionTier | test/cctest/wasm/wasm-run-utils.h:248-257 | The engine tier given has the numeric value of the current test tier. |
| ModuleBuilder.TestingModuleBuilder.MemSize | test/cctest/wasm/wasm-run-utils.h:132 | mem_size() is the number of bytes of memory, which fits its uint32_t result. |
| ModuleBuilder.TestingModuleBuilder.RawMemEnd | test/cctest/wasm/wasm-run-utils.h:140-144 | raw_mem_end is mem_size_ bytes past the start, whatever the element type, and fits 32 bits. |
| ModuleBuilder.TestingModuleBuilder.BlankMemory | test/cctest/wasm/wasm-run-utils.h:168-171 | Every byte in the range [0, mem_size_) becomes zero. |
| ModuleBuilder.TestingModuleBuilder.WriteMemory | test/cctest/wasm/wasm-run-utils.h:157-161 | The memory afterwards is exactly the little-endian write of the value's bit pattern at the address. |
| ModuleBuilder.TestingModuleBuilder.ReadMemory | test/cctest/wasm/wasm-run-utils.h:162-166 | The value read is the little-endian reading of the bytes at the address, converted to the type. |
| ModuleBuilder.TestingModuleBuilder.RawMemAt | test/cctest/wasm/wasm-run-utils.h:146-150 | raw_mem_at(i) reads element i, at byte offset i·sizeof(T). |
| ModuleBuilder.TestingModuleBuilder.RawValAt | test/cctest/wasm/wasm-run-utils.h:152-155 | raw_val_at(i) reads at byte offset i. |
| Runner.ArmTrapCallback | test/cctest/wasm/wasm-run-utils.h:402-409 | Setting up the callback clears trap_happened and leaves the callback registered. |
| Runner.SignalTrap | test/cctest/wasm/wasm-run-utils.h:404-408 | A trap sets trap_happened exactly when the callback was registered (or it was already set), and leaves no callback registered. |
| Runner.SignalTrapSingleShot | test/cctest/wasm/wasm-run-utils.h:402-409 | The trap callback deregisters itself, so a second trap changes nothing. |
| Runner.TrapsAfterSetUp | test/cctest/wasm/wasm-run-utils.h:402-409 | After SetUpTrapCallback, trap_happened is set exactly when at least one trap occurred. The callback stays registered exactly while none has. |
| Runner.ThreadState.constructor | test/cctest/wasm/wasm-run-utils.h:535-537 | Initially no trap has happened, no callback is registered and the thread is not in wasm. |
| Runner.SetUpTrapCallback | test/cctest/wasm/wasm-run-utils.h:402-409 | Clears trap_happened and registers the callback. |
| Runner.HandleTrap | test/cctest/wasm/wasm-run-utils.h:404-407 | A trap runs the registered callback, if there is one. |
| Runner.SetThreadInWasmFlag | test/cctest/wasm/wasm-run-utils.h:524-527 | Sets the thread-in-wasm flag. |
| Runner.ClearThreadInWasmFlag | test/cctest/wasm/wasm-run-utils.h:529-532 | Clears the thread-in-wasm flag. |
| Runner.CompiledCallResult | test/cctest/wasm/wasm-run-utils.h:582-602 | The call fails its CHECK exactly when the wrapper did not return 8754. Otherwise it gives the sentinel if a trap happened or nothing was stored, and else the stored value. |
| Runner.InterpreterCallResult | test/cctest/wasm/wasm-run-utils.h:610-622 | The call fails its CHECK exactly when no call was interpreted. FINISHED gives the return value, TRAPPED the same trap value as the compiled tier, and any other state 0. |
| Runner.NondeterminismAfter | test/cctest/wasm/wasm-run-utils.h:613 | The flag afterwards is set exactly when it was set before or the call finished reporting possible nondeterminism. |
| Runner.NondeterminismSticky | test/cctest/wasm/wasm-run-utils.h:610-613 | possible_nondeterminism_ after any series of interpreted calls is set exactly when it was set before, or some finished call reported nondeterminism. |
| Runner.TrappedCallsAgree | test/cctest/wasm/wasm-run-utils.h:582-623 | A trapped call returns the same value on the compiled tier as in the interpreter. That value passes CHECK_TRAP32 or CHECK_TRAP64. |
| Runner.UntrappedCallReturnsStoredValue | test/cctest/wasm/wasm-run-utils.h:599-602 | A compiled call without a trap returns the stored value. A 32-bit value passes CHECK_TRAP32 only if it equals the sentinel. |
| Runner.InitializeArgs | test/cctest/wasm/wasm-run-utils.h:606-607 | The interpreter's frame holds each argument through WasmValueInitializer, in order. |
| Runner.NeedsWrapper | test/cctest/wasm/wasm-run-utils.h:474-477 | WrapCode is needed exactly when the cache holds no wrapper at the index. |
| Runner.CacheAfter | test/cctest/wasm/wasm-run-utils.h:474-480 | The jsfuncs_ cache afterwards covers the index, and earlier entries are unchanged. An empty entry at the index gets the new wrapper, a filled one is kept, and the added entries are empty. |
| Runner.WrappedAtMostOnce | test/cctest/wasm/wasm-run-utils.h:477-479 | A second call for the same index finds the wrapper cached and leaves the cache unchanged. |
| Runner.JsCallVerdict | test/cctest/wasm/wasm-run-utils.h:486-497 | A passing verdict means the interpreter ran when there is one, 0xDEADBEEF was expected after a null result or a trap, a Smi equals the expected value, and the result was no other kind of object. |
| Runner.InterpretedCallsVerdict | test/cctest/wasm/wasm-run-utils.h:498-500 | The check passes exactly when there is no interpreter or it interpreted at least one call. |
| Runner.JsVerdictOnTrap | test/cctest/wasm/wasm-run-utils.h:486-500 | A null result or a trap passes exactly when 0xDEADBEEF was expected, and a Smi exactly when it equals the expected value. Any other object fails. |
| Runner.WasmRunner.constructor | test/cctest/wasm/wasm-run-utils.h:556-572 | The new runner's only function is the main one, with its signature the only one in the table. The builder has the given tier and tiering state and no recompilations. Nothing is compiled and the cache is empty. |
| Runner.WasmRunner.NewFunction | test/cctest/wasm/wasm-run-utils.h:430-436 | A compiler for the signature is appended and the signature is added to the table. The result is the new compiler's position. It fails with AddSignature's check. The signature map grows only for a new signature, and the builder's tier, tiering state and recompilations are unchanged. |
| Runner.WasmRunner.Build | test/cctest/wasm/wasm-run-utils.h:414-418 | It succeeds exactly when nothing was built before, and builds the main function alone. A second call fails CHECK(!compiled_) and changes nothing. |
| Runner.WasmRunner.TierDown | test/cctest/wasm/wasm-run-utils.h:454 | The builder is tiered down, execution_tier() becomes Liftoff, and one more recompilation is requested. |
| Runner.WasmRunner.RunWrapper | test/cctest/wasm/wasm-run-utils.h:591-596 | While the thread-in-wasm flag is set, a fault in the wrapper is a trap the handler records. |
| Runner.WasmRunner.Call | test/cctest/wasm/wasm-run-utils.h:574-603 | The interpreter path gives CallInterpreter's result. The compiled path arms the callback and runs with the flag set, then clears the flag and restores the context. It requires the wrapper's 8754. It returns the sentinel when a trap happened, and otherwise the value in the return slot, which starts as the sentinel. The interpreter path leaves the trap state and the flag alone, and only it sets the frame arguments. |
| Runner.WasmRunner.CallInterpreter | test/cctest/wasm/wasm-run-utils.h:605-623 | The frame gets the converted arguments, and CHECK_GT(NumInterpretedCalls(), 0) is checked. FINISHED gives the return value and ORs in the nondeterminism flag. TRAPPED gives the sentinel and any other state gives 0. |
| Runner.WasmRunner.CheckCallApplyViaJS | test/cctest/wasm/wasm-run-utils.h:470-500 | The cache afterwards is CacheAfter, and WrapCode is called exactly when the entry was empty. Each function index is wrapped at most once. The verdict is JsCallVerdict. |
| Runner.WasmRunner.CheckCallViaJS | test/cctest/wasm/wasm-run-utils.h:625-631 | CheckCallApplyViaJS on the main function: the same cache update, WrapCode call, trap re-arming and verdict. |
| Runner.WasmRunner.CheckCallViaJSTraps | test/cctest/wasm/wasm-run-utils.h:633-635 | CheckCallViaJS expecting 0xDEADBEEF: the same cache update, WrapCode call and trap re-arming, with that verdict. |
| Runner.BuildTwice | test/cctest/wasm/wasm-run-utils.h:411-418 | A runner's first Build succeeds and its second fails its check. |
| Runner.TrapDoesNotLeak | test/cctest/wasm/wasm-run-utils.h:402-403 | Because every call resets trap_happened, a call without a trap after a trapped one returns its own stored value. |

## Left out

- `src/builtins/builtins-console.cc` is not part of this model.
- Floating-point types are not modelled. `float` and `double` arguments and results are left out, along with `CHECK_DOUBLE_EQ` (a `HeapNumber` result carries only whether it equals the expected value) and `RandomizeMemory`, whose random bytes come from outside.
- Runner.WasmRunner.CheckCallApplyViaJS: `expected` is an integer, not a `double`. The JavaScript arguments (`NewNumber` of each parameter) are not modelled, because they only reach the call, which is an input.
- These are declared in the header but defined elsewhere, so they are not modelled: `AddMemory`, `AddGlobal`, `AddFunction`, the indirect function tables, the data and element segments, `AddException`, `FreezeSignatureMapAndInitializeWrapperCache`, `WrapCode`, `CreateSig`, `CreateCompilationEnv` and the builder's real constructor. The model's builder constructor only sets the state the harness itself keeps.
- Execution is not modelled. Compiled code (`CodeRunner::Call`), the interpreter's `Run`, `Execution::TryCall` and `WrapCode` are inputs that describe what they did. The same goes for the wrapper set-up in `Call` and in the runner's constructor (`SetInnerCode`, `SetInstance`, `GetWrapperCode`, and the `if (!interpret())` branch that calls `Init`).
- ModuleBuilder.TestingModuleBuilder.TierDown: the native module's tiering state and its recompilation are a field and a counter. What recompilation does to the code is outside the model.
- ModuleBuilder.TestingModuleBuilder.AddSignature: the canonical-id table (`add_signature`) is defined elsewhere. The model keeps the distinct signatures in order of first appearance, so equal signatures share an id.
- ModuleBuilder.TestingModuleBuilder.CurrentExecutionTier: `UNREACHABLE()` on the interpreter and fuzzing tiers is a precondition.
- ModuleBuilder.TestingModuleBuilder.RawMemAt: the `DCHECK(mem_start_)` that memory exists is left out. The model's memory always exists, possibly with zero bytes, and every access must lie inside it, because memory outside it is undefined behaviour in C++.
- Accessors without logic are not modelled separately: `function_index`, `function`, `interpreter`, `possible_nondeterminism`, `builder`, `zone`, `interpret`, `AllocateLocal`, `SetMaxSteps`, `test_execution_tier`, `raw_mem_start` and `GetFunctionAt`. The fields they return are the model's fields.
- The thread-local storage of the thread-in-wasm flag is one field of `ThreadState`. Concurrency is not modelled.
- The `WASM_EXEC_TEST` family of macros and `BUILD` are test-declaration sugar and are not modelled.
