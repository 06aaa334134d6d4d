/** TestingModuleBuilder: the module a test builds up piece by piece, reduced
    to the state this harness keeps itself: the signature table, the test
    tier and the native module's tiering state, and the linear memory. */
module ModuleBuilder {
  import opened MachineTypes
  import opened LinearMemory
  import opened Tiers
  import opened Outcomes

  /** A function signature: its return and parameter types. */
  datatype FunctionSig = FunctionSig(results: seq<ValueType>, params: seq<ValueType>)

  /** The largest signature table whose last index still fits the byte the
      builder returns it in (CHECK_GT(127, size)). */
  const MaxSignatures: nat := 126

  /** Where sig stands among the canonical signatures, if it is one of them
      (signatures compare by structure). */
  function FindSignature(canon: seq<FunctionSig>, sig: FunctionSig): (r: Option<nat>)
    ensures r.Some? ==> r.value < |canon| && canon[r.value] == sig
    ensures r.None? ==> sig !in canon
  {
    if canon == [] then None
    else if canon[|canon| - 1] == sig then Some(|canon| - 1)
    else FindSignature(canon[..|canon| - 1], sig)
  }

  /** The module's signature table: types[i] is signature i, ids[i] its
      canonical id, and canon lists each distinct signature once, at its id. */
  ghost predicate Canonicalized(types: seq<FunctionSig>, ids: seq<nat>, canon: seq<FunctionSig>)
  {
    && |types| == |ids|
    && (forall i :: 0 <= i < |ids| ==> ids[i] < |canon| && canon[ids[i]] == types[i])
    && (forall i, j :: 0 <= i < j < |canon| ==> canon[i] != canon[j])
  }

  /** Two signature indices share a canonical id exactly when their signatures
      are structurally equal: what indirect-call type checks rely on. */
  lemma SameIdIffSameSignature(types: seq<FunctionSig>, ids: seq<nat>, canon: seq<FunctionSig>, i: nat, j: nat)
    requires Canonicalized(types, ids, canon)
    requires i < |types| && j < |types|
    ensures ids[i] == ids[j] <==> types[i] == types[j]
  {
  }

  class TestingModuleBuilder {
    /** test_module_->types: every signature added, in order. */
    var types: seq<FunctionSig>
    /** test_module_->canonicalized_type_ids, parallel to types. */
    var canonicalTypeIds: seq<nat>
    /** The module's signature map: the distinct signatures, by canonical id. */
    var signatureMap: seq<FunctionSig>
    /** execution_tier_ */
    var executionTier: TestExecutionTier
    /** The tiering state last given to the native module. */
    var tieringState: TieringState
    /** How many recompilations for tiering have been requested. */
    var recompilations: nat
    /** interpreter_ != nullptr: the builder runs functions in the interpreter. */
    const interpret: bool
    /** The linear memory; its length is mem_size_. */
    const mem: array<byte>

    ghost predicate Valid()
      reads this
    {
      && Canonicalized(types, canonicalTypeIds, signatureMap)
      && mem.Length < 0x1_0000_0000
    }

    /** A builder for the given tier, with or without an interpreter, whose
        memory has memSize bytes and whose signature table is empty. */
    constructor (tier: TestExecutionTier, interpret: bool, memSize: nat, tiering: TieringState)
      requires memSize < 0x1_0000_0000
      ensures Valid() && fresh(mem)
      ensures types == [] && signatureMap == []
      ensures executionTier == tier && tieringState == tiering && recompilations == 0
      ensures this.interpret == interpret && mem.Length == memSize
    {
      types, canonicalTypeIds, signatureMap := [], [], [];
      executionTier, tieringState, recompilations := tier, tiering, 0;
      this.interpret := interpret;
      mem := new byte[memSize];
    }

    /** AddSignature(sig): appends sig to the table (equal signatures share a
        canonical id) and returns its index, which must fit a byte below 127. */
    method AddSignature(sig: FunctionSig) returns (r: Result<byte>)
      requires Valid()
      modifies this
      ensures Valid()
      ensures types == old(types) + [sig]
      ensures r.Ok? <==> |types| <= MaxSignatures
      ensures r.Ok? ==> r.value as int == |types| - 1 && types[r.value] == sig
      ensures old(sig in signatureMap) ==> signatureMap == old(signatureMap)
      ensures old(sig !in signatureMap) ==> signatureMap == old(signatureMap) + [sig]
      ensures executionTier == old(executionTier) && tieringState == old(tieringState)
      ensures recompilations == old(recompilations)
    {
      var id: nat;
      match FindSignature(signatureMap, sig) {
        case Some(i) =>
          id := i;
        case None =>
          id := |signatureMap|;
          signatureMap := signatureMap + [sig];
      }
      types := types + [sig];
      canonicalTypeIds := canonicalTypeIds + [id];
      var size := |types|;
      if !(127 > size) {
        return CheckFailed("CHECK_GT(127, size)");
      }
      r := Ok((size - 1) as byte);
    }

    /** SetTieredDown(): puts the native module into the tiered-down state and
        runs tests on Liftoff from now on. */
    method SetTieredDown()
      requires Valid()
      modifies this`tieringState, this`executionTier
      ensures Valid()
      ensures tieringState == TieredDown && executionTier == Liftoff
    {
      tieringState := TieredDown;
      executionTier := Liftoff;
    }

    /** TierDown(): SetTieredDown() followed by a request to recompile the
        module for its new tiering state. */
    method TierDown()
      requires Valid()
      modifies this`tieringState, this`executionTier, this`recompilations
      ensures Valid()
      ensures tieringState == TieredDown && executionTier == Liftoff
      ensures IsCompiledTier(executionTier) && CurrentExecutionTier() == LiftoffTier
      ensures recompilations == old(recompilations) + 1
    {
      SetTieredDown();
      recompilations := recompilations + 1;
    }

    /** execution_tier(): the engine tier the test tier stands for. */
    function CurrentExecutionTier(): (e: ExecutionTier)
      reads this
      requires IsCompiledTier(executionTier)
      ensures FromExecutionTier(e) == executionTier
    {
      ToExecutionTier(executionTier)
    }

    /** mem_size() */
    function MemSize(): (n: nat)
      reads this
      requires Valid()
      ensures n == mem.Length && n < 0x1_0000_0000
    {
      mem.Length
    }

    /** raw_mem_end<T>(): the address just past the memory, as a byte offset
        from its start whatever the element type. */
    function RawMemEnd(t: CType): (end: nat)
      reads this
      requires Valid()
      ensures end == MemSize() && end < 0x1_0000_0000
    {
      mem.Length
    }

    /** BlankMemory(): zero every byte of the memory. */
    method BlankMemory()
      requires Valid()
      modifies mem
      ensures mem[..] == Blank(mem.Length)
    {
      var i := 0;
      while i < mem.Length
        invariant 0 <= i <= mem.Length
        invariant forall j :: 0 <= j < i ==> mem[j] == 0
      {
        mem[i] := 0;
        i := i + 1;
      }
      assert mem[..] == Blank(mem.Length);
    }

    /** WriteMemory(p, val) at byte address addr: the bytes of val, least
        significant first. */
    method WriteMemory(t: CType, addr: nat, val: int)
      requires Valid() && InRange(t, val) && addr + Width(t) <= mem.Length
      modifies mem
      ensures mem[..] == WriteValue(old(mem[..]), t, addr, val)
    {
      ModulusIsPow256(t);
      var bytes := Encode(Bits(t, val), Width(t));
      var k := 0;
      while k < Width(t)
        invariant 0 <= k <= Width(t)
        invariant forall i :: addr <= i < addr + k ==> mem[i] == bytes[i - addr]
        invariant forall i :: 0 <= i < mem.Length && !(addr <= i < addr + k) ==> mem[i] == old(mem[i])
      {
        mem[addr + k] := bytes[k];
        k := k + 1;
      }
      ghost var expected := WriteValue(old(mem[..]), t, addr, val);
      forall i | 0 <= i < mem.Length
        ensures mem[i] == expected[i]
      {
        if addr <= i < addr + Width(t) {
          assert expected[addr..addr + Width(t)] == bytes;
          assert expected[i] == expected[addr..addr + Width(t)][i - addr];
        }
      }
      assert mem[..] == expected;
    }

    /** ReadMemory(p) at byte address addr: the value whose bytes, least
        significant first, start there. */
    method ReadMemory(t: CType, addr: nat) returns (v: int)
      requires Valid() && addr + Width(t) <= mem.Length
      ensures v == ReadValue(mem[..], t, addr)
      ensures InRange(t, v)
    {
      var end := addr + Width(t);
      var acc: nat := 0;
      var k := end;
      while k > addr
        invariant addr <= k <= end
        invariant acc == Decode(mem[k..end])
      {
        k := k - 1;
        assert mem[k..end][1..] == mem[k + 1..end];
        acc := mem[k] as nat + 256 * acc;
      }
      assert mem[..][addr..end] == mem[addr..end];
      v := Cast(t, acc);
    }

    /** raw_mem_at<T>(i): element i of the memory seen as an array of T, so
        the value at byte offset i * sizeof(T). */
    method RawMemAt(t: CType, i: int) returns (v: int)
      requires Valid() && 0 <= i && (i + 1) * Width(t) <= RawMemEnd(t)
      ensures v == ReadValue(mem[..], t, i * Width(t))
    {
      v := ReadMemory(t, i * Width(t));
    }

    /** raw_val_at<T>(i): the value of type T at byte offset i. */
    method RawValAt(t: CType, i: int) returns (v: int)
      requires Valid() && 0 <= i && i + Width(t) <= MemSize()
      ensures v == ReadValue(mem[..], t, i)
    {
      v := ReadMemory(t, i);
    }
  }
}
