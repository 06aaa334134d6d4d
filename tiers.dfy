/** The tiers a test can run on, and the engine tiers they stand for. */
module Tiers {

  /** TestExecutionTier: the configuration a test runs in. The first two share
      their numeric value with the engine's ExecutionTier of the same name;
      the other two exist only in tests. */
  datatype TestExecutionTier = Liftoff | Turbofan | Interpreter | LiftoffForFuzzing

  /** The engine's compiled tiers: the baseline compiler and the optimizing one. */
  datatype ExecutionTier = LiftoffTier | TurbofanTier

  /** The tiering state a native module is put into. */
  datatype TieringState = TieredUp | TieredDown

  /** The test tiers that execution_tier() can translate. */
  predicate IsCompiledTier(t: TestExecutionTier)
  {
    t.Liftoff? || t.Turbofan?
  }

  /** execution_tier(): the engine tier of a compiled test tier; wasm-run-utils.h
      reaches UNREACHABLE() for any other tier. */
  function ToExecutionTier(t: TestExecutionTier): (e: ExecutionTier)
    requires IsCompiledTier(t)
    ensures t.Liftoff? <==> e.LiftoffTier?
    ensures t.Turbofan? <==> e.TurbofanTier?
  {
    match t
    case Turbofan => TurbofanTier
    case Liftoff => LiftoffTier
  }

  /** The test tier defined with the numeric value of an engine tier. */
  function FromExecutionTier(e: ExecutionTier): (t: TestExecutionTier)
    ensures IsCompiledTier(t)
    ensures e.LiftoffTier? <==> t.Liftoff?
  {
    match e
    case LiftoffTier => Liftoff
    case TurbofanTier => Turbofan
  }

  /** The two are inverse on the compiled tiers: every engine tier has exactly
      one test tier, and execution_tier() recovers it. */
  lemma TierRoundTrip(t: TestExecutionTier, e: ExecutionTier)
    ensures IsCompiledTier(t) ==> FromExecutionTier(ToExecutionTier(t)) == t
    ensures ToExecutionTier(FromExecutionTier(e)) == e
  {
  }
}
