/** WasmRunnerBase and WasmRunner: build a test function once, call it on the
    compiled tier or in the interpreter, turn a trap into the sentinel value,
    and call it through a cached JavaScript wrapper. The engine itself (the
    compiled wrapper, the interpreter, JavaScript calls) is outside the model:
    each call takes what the engine did as an input. */
module Runner {
  import opened MachineTypes
  import opened Tiers
  import opened Outcomes
  import opened ModuleBuilder

  /** WASM_WRAPPER_RETURN_VALUE: what the compiled call wrapper returns. */
  const WrapperReturnValue: int := 8754

  // ---------------------------------------------------------------------
  // Trap bookkeeping

  /** The static trap_happened flag, and whether the test's trap callback is
      registered with the trap handler. */
  datatype TrapState = TrapState(happened: bool, callbackSet: bool)

  /** SetUpTrapCallback(): clear the flag and register the callback. */
  function ArmTrapCallback(s: TrapState): (s': TrapState)
    ensures !s'.happened && s'.callbackSet
  {
    TrapState(false, true)
  }

  /** A trap reaches the trap handler: a registered callback records it and
      deregisters itself; with no callback registered nothing is recorded. */
  function SignalTrap(s: TrapState): (s': TrapState)
    ensures s'.happened <==> s.happened || s.callbackSet
    ensures !s'.callbackSet
  {
    if s.callbackSet then TrapState(true, false) else s
  }

  /** The state after n traps. */
  function SignalTraps(s: TrapState, n: nat): TrapState
  {
    if n == 0 then s else SignalTrap(SignalTraps(s, n - 1))
  }

  /** The callback is single-shot: a second trap changes nothing. */
  lemma SignalTrapSingleShot(s: TrapState)
    ensures SignalTrap(SignalTrap(s)) == SignalTrap(s)
    ensures !SignalTrap(s).callbackSet
  {
  }

  /** After SetUpTrapCallback(), trap_happened says whether at least one trap
      occurred, and the callback stays registered only while none has. */
  lemma {:induction false} TrapsAfterSetUp(s: TrapState, n: nat)
    ensures SignalTraps(ArmTrapCallback(s), n).happened <==> n > 0
    ensures SignalTraps(ArmTrapCallback(s), n).callbackSet <==> n == 0
  {
    if n > 1 {
      TrapsAfterSetUp(s, n - 1);
    }
  }

  /** Process-wide and thread-local state the runner touches: the trap
      bookkeeping, the thread-in-wasm flag the trap handler consults, and the
      isolate's current context. */
  class ThreadState {
    var trap: TrapState
    var threadInWasm: bool
    var context: int

    constructor (context: int)
      ensures trap == TrapState(false, false) && !threadInWasm && this.context == context
    {
      trap := TrapState(false, false);
      threadInWasm := false;
      this.context := context;
    }
  }

  /** WasmRunnerBase::SetUpTrapCallback() */
  method SetUpTrapCallback(th: ThreadState)
    modifies th`trap
    ensures th.trap == ArmTrapCallback(old(th.trap))
  {
    th.trap := ArmTrapCallback(th.trap);
  }

  /** The trap handler taking a trap: it runs the registered callback, if any. */
  method HandleTrap(th: ThreadState)
    modifies th`trap
    ensures th.trap == SignalTrap(old(th.trap))
  {
    th.trap := SignalTrap(th.trap);
  }

  /** WasmRunnerBase::SetThreadInWasmFlag() */
  method SetThreadInWasmFlag(th: ThreadState)
    modifies th`threadInWasm
    ensures th.threadInWasm
  {
    th.threadInWasm := true;
  }

  /** WasmRunnerBase::ClearThreadInWasmFlag() */
  method ClearThreadInWasmFlag(th: ThreadState)
    modifies th`threadInWasm
    ensures !th.threadInWasm
  {
    th.threadInWasm := false;
  }

  // ---------------------------------------------------------------------
  // What the engine did during a call (inputs to the model)

  /** What running the compiled wrapper did: the value it returned, whether
      a trap was signalled, the value it stored in the return slot (if it
      stored one) and the context it left the isolate in. */
  datatype NativeRun = NativeRun(wrapperResult: int, trapped: bool, stored: Option<int>, contextAfter: int)

  /** WasmInterpreter::State as the harness distinguishes it: finished,
      trapped, or stopped in any other way. */
  datatype InterpreterState = Finished | Trapped | Stopped

  /** What a run of the interpreter did. */
  datatype InterpreterRun = InterpreterRun(
    interpretedCalls: nat, state: InterpreterState, returnValue: int, possibleNondeterminism: bool)

  /** A JavaScript function handle. */
  datatype JsFunction = JsFunction(id: nat)

  /** The outcome of Execution::TryCall: an exception (a null handle), a small
      integer, a heap number (whether it equals the expected value is a
      floating-point comparison outside the model), or anything else. */
  datatype JsResult = Exception | Smi(value: int) | HeapNumber(equalsExpected: bool) | OtherObject

  /** What calling through JavaScript did: the handle WrapCode returns if it
      is asked for one, the call's result, whether a trap was signalled and
      the interpreter's call count afterwards. */
  datatype JsRun = JsRun(wrapper: JsFunction, result: JsResult, trapped: bool, interpretedCalls: nat)

  // ---------------------------------------------------------------------
  // The call protocol as functions

  /** What the compiled Call returns once the wrapper has run. */
  function CompiledCallResult(t: CType, run: NativeRun, trapHappened: bool): (r: Result<int>)
    ensures r.CheckFailed? <==> run.wrapperResult != WrapperReturnValue
    ensures r.Ok? && (trapHappened || run.stored.None?) ==> r.value == CompiledTrapValue(t)
    ensures r.Ok? && !trapHappened && run.stored.Some? ==> r.value == run.stored.value
  {
    var returnValue := run.stored.GetOr(CompiledTrapValue(t));
    if run.wrapperResult != WrapperReturnValue then
      CheckFailed("CHECK_EQ(WASM_WRAPPER_RETURN_VALUE, result)")
    else if trapHappened then Ok(CompiledTrapValue(t))
    else Ok(returnValue)
  }

  /** What CallInterpreter returns once the interpreter has run. */
  function InterpreterCallResult(t: CType, run: InterpreterRun): (r: Result<int>)
    ensures r.CheckFailed? <==> run.interpretedCalls == 0
    ensures r.Ok? && run.state.Finished? ==> r.value == run.returnValue
    ensures r.Ok? && run.state.Trapped? ==> r.value == CompiledTrapValue(t)
    ensures r.Ok? && run.state.Stopped? ==> r.value == 0
  {
    TrapValuesAgree(t);
    if run.interpretedCalls == 0 then CheckFailed("CHECK_GT(NumInterpretedCalls(), 0)")
    else
      match run.state
      case Finished => Ok(run.returnValue)
      case Trapped => Ok(InterpreterTrapValue(t))
      case Stopped => Ok(0)
  }

  /** possible_nondeterminism_ after an interpreted call. */
  function NondeterminismAfter(flag: bool, run: InterpreterRun): (f: bool)
    ensures f <==> flag || ReportsNondeterminism(run)
  {
    flag || (run.interpretedCalls > 0 && run.state.Finished? && run.possibleNondeterminism)
  }

  /** possible_nondeterminism_ after a series of interpreted calls. */
  function NondeterminismAfterAll(flag: bool, runs: seq<InterpreterRun>): bool
    decreases |runs|
  {
    if runs == [] then flag
    else NondeterminismAfterAll(NondeterminismAfter(flag, runs[0]), runs[1..])
  }

  /** A finished interpreted call that reported possible nondeterminism. */
  predicate ReportsNondeterminism(run: InterpreterRun)
  {
    run.interpretedCalls > 0 && run.state.Finished? && run.possibleNondeterminism
  }

  /** The flag is sticky: after any series of calls it is set exactly when it
      was set before or some finished call reported nondeterminism. */
  lemma {:induction false} NondeterminismSticky(flag: bool, runs: seq<InterpreterRun>)
    decreases |runs|
    ensures NondeterminismAfterAll(flag, runs)
        <==> flag || exists i :: 0 <= i < |runs| && ReportsNondeterminism(runs[i])
  {
    if runs != [] {
      NondeterminismSticky(NondeterminismAfter(flag, runs[0]), runs[1..]);
      if exists i :: 0 <= i < |runs[1..]| && ReportsNondeterminism(runs[1..][i]) {
        var i :| 0 <= i < |runs[1..]| && ReportsNondeterminism(runs[1..][i]);
        assert ReportsNondeterminism(runs[i + 1]);
      }
      if exists i :: 0 <= i < |runs| && ReportsNondeterminism(runs[i]) {
        var i :| 0 <= i < |runs| && ReportsNondeterminism(runs[i]);
        if i > 0 {
          assert ReportsNondeterminism(runs[1..][i - 1]);
        }
      }
    }
  }

  /** A trapped call gives the same value on both tiers, and that value passes
      CHECK_TRAP32 or CHECK_TRAP64 for the return type's width. */
  lemma TrappedCallsAgree(t: CType, native: NativeRun, interp: InterpreterRun)
    requires native.wrapperResult == WrapperReturnValue
    requires interp.interpretedCalls > 0 && interp.state.Trapped?
    ensures CompiledCallResult(t, native, true) == InterpreterCallResult(t, interp)
    ensures Width(t) == 4 ==> CheckTrap32(t, CompiledCallResult(t, native, true).value)
    ensures Width(t) == 8 ==> CheckTrap64(t, CompiledCallResult(t, native, true).value)
  {
    TrapValuesAgree(t);
    if Width(t) == 4 {
      CheckTrap32Accepts(t, CompiledTrapValue(t));
    } else if Width(t) == 8 {
      CheckTrap64Accepts(t, CompiledTrapValue(t));
    }
  }

  /** A compiled call that did not trap returns the value the function
      stored, and a 32-bit one passes CHECK_TRAP32 only if that value is the
      sentinel itself. */
  lemma UntrappedCallReturnsStoredValue(t: CType, native: NativeRun, v: int)
    requires native.wrapperResult == WrapperReturnValue && native.stored == Some(v)
    requires InRange(t, v)
    ensures CompiledCallResult(t, native, false) == Ok(v)
    ensures Width(t) == 4 ==> (CheckTrap32(t, v) <==> v == CompiledTrapValue(t))
  {
    if Width(t) == 4 {
      CheckTrap32Accepts(t, v);
    }
  }

  /** The frame arguments: every argument through WasmValueInitializer. */
  function InitializeArgs(ts: seq<CType>, vs: seq<int>): (ws: seq<WasmValue>)
    requires |ts| == |vs|
    requires forall i :: 0 <= i < |ts| ==> InRange(ts[i], vs[i])
    ensures |ws| == |vs|
    ensures forall i :: 0 <= i < |ws| ==> ws[i] == WasmValueInitializer(ts[i], vs[i])
  {
    if ts == [] then []
    else [WasmValueInitializer(ts[0], vs[0])] + InitializeArgs(ts[1..], vs[1..])
  }

  // ---------------------------------------------------------------------
  // The JavaScript wrapper cache and verdict

  /** WrapCode is asked for a wrapper exactly when the cache holds none. */
  predicate NeedsWrapper(cache: seq<Option<JsFunction>>, index: nat)
    ensures !NeedsWrapper(cache, index) <==> index < |cache| && cache[index].Some?
  {
    index >= |cache| || cache[index].None?
  }

  /** The cache after CheckCallApplyViaJS for function index: it covers
      index; every earlier entry is unchanged except an empty one at index,
      which now holds the new wrapper; the entries it grew by are empty apart
      from index. */
  function CacheAfter(cache: seq<Option<JsFunction>>, index: nat, wrap: JsFunction): (c: seq<Option<JsFunction>>)
    ensures |c| == if |cache| <= index then index + 1 else |cache|
    ensures forall i :: 0 <= i < |cache| && i != index ==> c[i] == cache[i]
    ensures forall i :: |cache| <= i < |c| && i != index ==> c[i].None?
    ensures c[index] == if NeedsWrapper(cache, index) then Some(wrap) else cache[index]
  {
    var grown := if |cache| <= index then cache + seq(index + 1 - |cache|, _ => None) else cache;
    if grown[index].None? then grown[index := Some(wrap)] else grown
  }

  /** A function is wrapped at most once: a second call for the same index
      finds the wrapper cached and leaves the cache as it is. */
  lemma WrappedAtMostOnce(cache: seq<Option<JsFunction>>, index: nat, w1: JsFunction, w2: JsFunction)
    ensures !NeedsWrapper(CacheAfter(cache, index, w1), index)
    ensures CacheAfter(CacheAfter(cache, index, w1), index, w2) == CacheAfter(cache, index, w1)
  {
  }

  /** The checks CheckCallApplyViaJS makes once the call has returned. */
  function JsCallVerdict(expected: int, result: JsResult, trapHappened: bool,
                         interpret: bool, interpretedCalls: nat): (r: Result<()>)
    ensures r.Ok? ==> !interpret || interpretedCalls > 0
    ensures r.Ok? && (result.Exception? || trapHappened) ==> expected == TrapSentinel32
    ensures r.Ok? && !trapHappened && result.Smi? ==> expected == result.value
    ensures r.Ok? && !trapHappened ==> !result.OtherObject?
  {
    if result.Exception? || trapHappened then
      (if expected != TrapSentinel32 then CheckFailed("CHECK_EQ(expected, 0xDEADBEEF)")
       else InterpretedCallsVerdict(interpret, interpretedCalls))
    else
      match result
      case Smi(v) =>
        if expected != v then CheckFailed("CHECK_EQ(expected, Smi::ToInt(*result))")
        else InterpretedCallsVerdict(interpret, interpretedCalls)
      case HeapNumber(equal) =>
        if !equal then CheckFailed("CHECK_DOUBLE_EQ(expected, value)")
        else InterpretedCallsVerdict(interpret, interpretedCalls)
      case OtherObject => CheckFailed("CHECK(result->IsHeapNumber())")
  }

  /** CHECK_GT(NumInterpretedCalls(), 0) when there is an interpreter. */
  function InterpretedCallsVerdict(interpret: bool, interpretedCalls: nat): (r: Result<()>)
    ensures r.Ok? <==> !interpret || interpretedCalls > 0
  {
    if interpret && interpretedCalls == 0 then CheckFailed("CHECK_GT(NumInterpretedCalls(), 0)")
    else Ok(())
  }

  /** A null result or a recorded trap is accepted exactly when 0xDEADBEEF
      was expected (given that the interpreter ran, when there is one); a
      small integer exactly when it is the expected one. */
  lemma JsVerdictOnTrap(expected: int, result: JsResult, trapHappened: bool,
                        interpret: bool, interpretedCalls: nat)
    requires !interpret || interpretedCalls > 0
    ensures result.Exception? || trapHappened ==>
      (JsCallVerdict(expected, result, trapHappened, interpret, interpretedCalls).Ok? <==> expected == TrapSentinel32)
    ensures !trapHappened && result.Smi? ==>
      (JsCallVerdict(expected, result, trapHappened, interpret, interpretedCalls).Ok? <==> expected == result.value)
    ensures !trapHappened && result.OtherObject? ==>
      JsCallVerdict(expected, result, trapHappened, interpret, interpretedCalls).CheckFailed?
  {
  }

  // ---------------------------------------------------------------------
  // The runner

  /** One function being built: its signature and, once built, its body. */
  datatype FunctionCompiler = FunctionCompiler(sig: FunctionSig, body: Option<seq<byte>>)

  class WasmRunner {
    const builder: TestingModuleBuilder
    /** ReturnType and ParamTypes... of the template. */
    const returnType: CType
    const paramTypes: seq<CType>
    /** functions_: the main function first, then the ones NewFunction added. */
    var functions: seq<FunctionCompiler>
    /** compiled_ */
    var compiled: bool
    /** possible_nondeterminism_ */
    var possibleNondeterminism: bool
    /** main_fn_index_: the function index of the main function. */
    const mainFnIndex: nat
    /** jsfuncs_: the JavaScript wrapper of each function index, once made. */
    var jsfuncs: seq<Option<JsFunction>>
    /** The function indices WrapCode has been asked to wrap, in order. */
    var wrapped: seq<nat>
    /** The arguments of the last frame handed to the interpreter. */
    var frameArgs: seq<WasmValue>

    ghost predicate Valid()
      reads this, builder
    {
      && builder.Valid()
      && |functions| >= 1
      && (compiled <==> functions[0].body.Some?)
      && (forall k :: 0 <= k < |wrapped| ==> wrapped[k] < |jsfuncs| && jsfuncs[wrapped[k]].Some?)
      && (forall k, l :: 0 <= k < l < |wrapped| ==> wrapped[k] != wrapped[l])
      && (forall i :: 0 <= i < |jsfuncs| && jsfuncs[i].Some? ==> i in wrapped)
    }

    /** A runner whose main function has signature mainSig and function index
        mainFnIndex; the constructor adds the main function with NewFunction. */
    constructor (tier: TestExecutionTier, interpret: bool, memSize: nat, tiering: TieringState,
                 returnType: CType, paramTypes: seq<CType>, mainSig: FunctionSig, mainFnIndex: nat)
      requires memSize < 0x1_0000_0000
      ensures Valid() && fresh(builder) && fresh(builder.mem)
      ensures builder.types == [mainSig] && builder.signatureMap == [mainSig]
      ensures builder.executionTier == tier && builder.tieringState == tiering && builder.recompilations == 0
      ensures builder.interpret == interpret && builder.mem.Length == memSize
      ensures functions == [FunctionCompiler(mainSig, None)]
      ensures !compiled && !possibleNondeterminism && jsfuncs == [] && wrapped == []
      ensures this.returnType == returnType && this.paramTypes == paramTypes
      ensures this.mainFnIndex == mainFnIndex
    {
      var b := new TestingModuleBuilder(tier, interpret, memSize, tiering);
      var _ := b.AddSignature(mainSig);
      builder := b;
      this.returnType, this.paramTypes, this.mainFnIndex := returnType, paramTypes, mainFnIndex;
      functions, compiled, possibleNondeterminism := [FunctionCompiler(mainSig, None)], false, false;
      jsfuncs, wrapped, frameArgs := [], [], [];
    }

    /** NewFunction(sig): adds a function compiler for sig, and sig to the
        signature table; returns the new compiler's position. */
    method NewFunction(sig: FunctionSig) returns (r: Result<nat>)
      requires Valid()
      modifies this`functions, builder
      ensures Valid()
      ensures functions == old(functions) + [FunctionCompiler(sig, None)]
      ensures builder.types == old(builder.types) + [sig]
      ensures r.Ok? <==> |builder.types| <= MaxSignatures
      ensures r.Ok? ==> r.value == |functions| - 1
      ensures old(sig in builder.signatureMap) ==> builder.signatureMap == old(builder.signatureMap)
      ensures old(sig !in builder.signatureMap) ==> builder.signatureMap == old(builder.signatureMap) + [sig]
      ensures builder.executionTier == old(builder.executionTier) && builder.tieringState == old(builder.tieringState)
      ensures builder.recompilations == old(builder.recompilations)
    {
      functions := functions + [FunctionCompiler(sig, None)];
      var added := builder.AddSignature(sig);
      if added.CheckFailed? {
        return CheckFailed(added.check);
      }
      r := Ok(|functions| - 1);
    }

    /** Build(code): builds the main function from code; allowed only once. */
    method Build(code: seq<byte>) returns (r: Result<()>)
      requires Valid()
      modifies this`functions, this`compiled
      ensures Valid()
      ensures r.Ok? <==> !old(compiled)
      ensures compiled
      ensures old(compiled) ==> functions == old(functions)
      ensures !old(compiled) ==> functions == old(functions)[0 := FunctionCompiler(old(functions)[0].sig, Some(code))]
    {
      if compiled {
        return CheckFailed("CHECK(!compiled_)");
      }
      compiled := true;
      functions := functions[0 := FunctionCompiler(functions[0].sig, Some(code))];
      r := Ok(());
    }

    /** WasmRunnerBase::TierDown() */
    method TierDown()
      requires Valid()
      modifies builder`tieringState, builder`executionTier, builder`recompilations
      ensures Valid()
      ensures builder.executionTier == Liftoff && builder.tieringState == TieredDown
      ensures builder.CurrentExecutionTier() == LiftoffTier
      ensures builder.recompilations == old(builder.recompilations) + 1
    {
      builder.TierDown();
    }

    /** The arguments of a call are values of the parameter types. */
    predicate ArgsFit(args: seq<int>)
    {
      |args| == |paramTypes| && forall i :: 0 <= i < |args| ==> InRange(paramTypes[i], args[i])
    }

    /** The runner's compiled wrapper calling the code: the wrapper runs with
        the thread-in-wasm flag set, so a fault in it is taken as a trap. */
    method RunWrapper(th: ThreadState, run: NativeRun) returns (result: int, stored: Option<int>)
      requires th.threadInWasm
      modifies th`trap, th`context
      ensures th.trap == if run.trapped then SignalTrap(old(th.trap)) else old(th.trap)
      ensures th.context == run.contextAfter
      ensures result == run.wrapperResult && stored == run.stored
    {
      if run.trapped {
        HandleTrap(th);
      }
      th.context := run.contextAfter;
      result, stored := run.wrapperResult, run.stored;
    }

    /** Call(p...): runs the main function in the interpreter if there is one,
        otherwise through the compiled wrapper; either way a trap comes back
        as the sentinel value and the isolate's context is restored. */
    method Call(th: ThreadState, args: seq<int>, native: NativeRun, interp: InterpreterRun)
      returns (r: Result<int>)
      requires Valid() && compiled && ArgsFit(args)
      requires native.stored.Some? ==> InRange(returnType, native.stored.value)
      requires interp.state.Finished? ==> InRange(returnType, interp.returnValue)
      modifies this`possibleNondeterminism, this`frameArgs, th
      ensures Valid()
      ensures th.context == old(th.context)
      ensures builder.interpret ==> r == InterpreterCallResult(returnType, interp)
      ensures builder.interpret ==> possibleNondeterminism == NondeterminismAfter(old(possibleNondeterminism), interp)
      ensures builder.interpret ==> frameArgs == InitializeArgs(paramTypes, args)
      ensures builder.interpret ==> th.trap == old(th.trap) && th.threadInWasm == old(th.threadInWasm)
      ensures !builder.interpret ==> frameArgs == old(frameArgs)
      ensures !builder.interpret ==> r == CompiledCallResult(returnType, native, native.trapped)
      ensures !builder.interpret ==> th.trap == SignalTraps(ArmTrapCallback(old(th.trap)), if native.trapped then 1 else 0)
      ensures !builder.interpret ==> !th.threadInWasm && possibleNondeterminism == old(possibleNondeterminism)
    {
      var savedContext := th.context;
      if builder.interpret {
        r := CallInterpreter(args, interp);
        return;
      }
      var returnValue := CompiledTrapValue(returnType);
      SetUpTrapCallback(th);
      SetThreadInWasmFlag(th);
      var result, stored := RunWrapper(th, native);
      returnValue := stored.GetOr(returnValue);
      ClearThreadInWasmFlag(th);
      th.context := savedContext;
      if result != WrapperReturnValue {
        return CheckFailed("CHECK_EQ(WASM_WRAPPER_RETURN_VALUE, result)");
      }
      r := Ok(if th.trap.happened then CompiledTrapValue(returnType) else returnValue);
    }

    /** CallInterpreter(p...): hands the converted arguments to the
        interpreter, then maps its final state to a result. */
    method CallInterpreter(args: seq<int>, interp: InterpreterRun) returns (r: Result<int>)
      requires Valid() && builder.interpret && ArgsFit(args)
      requires interp.state.Finished? ==> InRange(returnType, interp.returnValue)
      modifies this`possibleNondeterminism, this`frameArgs
      ensures Valid()
      ensures frameArgs == InitializeArgs(paramTypes, args)
      ensures r == InterpreterCallResult(returnType, interp)
      ensures possibleNondeterminism == NondeterminismAfter(old(possibleNondeterminism), interp)
    {
      frameArgs := InitializeArgs(paramTypes, args);
      if interp.interpretedCalls == 0 {
        return CheckFailed("CHECK_GT(NumInterpretedCalls(), 0)");
      }
      match interp.state {
        case Finished =>
          possibleNondeterminism := possibleNondeterminism || interp.possibleNondeterminism;
          r := Ok(interp.returnValue);
        case Trapped =>
          var result := Cast(Int64, TrapSentinel);
          r := Ok(Cast(returnType, result));
        case Stopped =>
          r := Ok(0);
      }
    }

    /** CheckCallApplyViaJS(expected, function_index, ...): calls the function
        through its JavaScript wrapper, made on first use and cached, and
        checks the result against expected. */
    method CheckCallApplyViaJS(th: ThreadState, expected: int, functionIndex: nat, js: JsRun)
      returns (r: Result<()>)
      requires Valid()
      modifies this`jsfuncs, this`wrapped, th`trap
      ensures Valid()
      ensures jsfuncs == CacheAfter(old(jsfuncs), functionIndex, js.wrapper)
      ensures wrapped == old(wrapped) + (if NeedsWrapper(old(jsfuncs), functionIndex) then [functionIndex] else [])
      ensures th.trap == SignalTraps(ArmTrapCallback(old(th.trap)), if js.trapped then 1 else 0)
      ensures r == JsCallVerdict(expected, js.result, js.trapped, builder.interpret, js.interpretedCalls)
    {
      SetUpTrapCallback(th);
      if |jsfuncs| <= functionIndex {
        jsfuncs := jsfuncs + seq(functionIndex + 1 - |jsfuncs|, _ => None);
      }
      if jsfuncs[functionIndex].None? {
        wrapped := wrapped + [functionIndex];
        jsfuncs := jsfuncs[functionIndex := Some(js.wrapper)];
      }
      if js.trapped {
        HandleTrap(th);
      }
      r := JsCallVerdict(expected, js.result, th.trap.happened, builder.interpret, js.interpretedCalls);
    }

    /** CheckCallViaJS(expected, p...): CheckCallApplyViaJS on the main function. */
    method CheckCallViaJS(th: ThreadState, expected: int, js: JsRun) returns (r: Result<()>)
      requires Valid()
      modifies this`jsfuncs, this`wrapped, th`trap
      ensures Valid()
      ensures jsfuncs == CacheAfter(old(jsfuncs), mainFnIndex, js.wrapper)
      ensures wrapped == old(wrapped) + (if NeedsWrapper(old(jsfuncs), mainFnIndex) then [mainFnIndex] else [])
      ensures th.trap == SignalTraps(ArmTrapCallback(old(th.trap)), if js.trapped then 1 else 0)
      ensures r == JsCallVerdict(expected, js.result, js.trapped, builder.interpret, js.interpretedCalls)
    {
      r := CheckCallApplyViaJS(th, expected, mainFnIndex, js);
    }

    /** CheckCallViaJSTraps(p...): the call must trap. */
    method CheckCallViaJSTraps(th: ThreadState, js: JsRun) returns (r: Result<()>)
      requires Valid()
      modifies this`jsfuncs, this`wrapped, th`trap
      ensures Valid()
      ensures jsfuncs == CacheAfter(old(jsfuncs), mainFnIndex, js.wrapper)
      ensures wrapped == old(wrapped) + (if NeedsWrapper(old(jsfuncs), mainFnIndex) then [mainFnIndex] else [])
      ensures th.trap == SignalTraps(ArmTrapCallback(old(th.trap)), if js.trapped then 1 else 0)
      ensures r == JsCallVerdict(TrapSentinel32, js.result, js.trapped, builder.interpret, js.interpretedCalls)
    {
      r := CheckCallViaJS(th, TrapSentinel32, js);
    }
  }

  // ---------------------------------------------------------------------
  // How tests use a runner

  /** A runner's main function is built once: a second Build fails its check. */
  method BuildTwice(tier: TestExecutionTier, mainSig: FunctionSig, code1: seq<byte>, code2: seq<byte>)
    returns (first: Result<()>, second: Result<()>)
    ensures first.Ok? && second.CheckFailed?
  {
    var runner := new WasmRunner(tier, false, 0, TieredUp, Int32, [], mainSig, 0);
    first := runner.Build(code1);
    second := runner.Build(code2);
  }

  /** trap_happened is reset by every compiled call: after a call that traps
      and returns the sentinel, a call that does not trap returns the value
      its function stored. */
  method TrapDoesNotLeak(tier: TestExecutionTier, mainSig: FunctionSig, code: seq<byte>,
                         trapping: NativeRun, normal: NativeRun, v: int)
    returns (r1: Result<int>, r2: Result<int>)
    requires trapping.wrapperResult == WrapperReturnValue && trapping.trapped && trapping.stored.None?
    requires normal.wrapperResult == WrapperReturnValue && !normal.trapped && normal.stored == Some(v)
    requires InRange(Int32, v)
    ensures r1 == Ok(CompiledTrapValue(Int32)) && r2 == Ok(v)
  {
    var th := new ThreadState(0);
    var runner := new WasmRunner(tier, false, 0, TieredUp, Int32, [], mainSig, 0);
    var _ := runner.Build(code);
    var idle := InterpreterRun(0, Stopped, 0, false);
    r1 := runner.Call(th, [], trapping, idle);
    r2 := runner.Call(th, [], normal, idle);
  }
}
