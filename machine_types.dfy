/** The C integer types that test functions take and return, their
    two's-complement bit patterns, the integer conversions the test harness
    applies to them, the trap sentinel and the CHECK_TRAP masks. */
module MachineTypes {

  newtype byte = x: int | 0 <= x < 0x100

  /** The C integer types a test function can be written over. */
  datatype CType = Int8 | Uint8 | Int16 | Uint16 | Int32 | Uint32 | Int64 | Uint64

  /** sizeof(T), in bytes. */
  function Width(t: CType): nat
  {
    match t
    case Int8 | Uint8 => 1
    case Int16 | Uint16 => 2
    case Int32 | Uint32 => 4
    case Int64 | Uint64 => 8
  }

  predicate Signed(t: CType)
  {
    t.Int8? || t.Int16? || t.Int32? || t.Int64?
  }

  /** 256^w: the number of distinct values of a w-byte integer. */
  function Pow256(w: nat): (p: nat)
    ensures p > 0
  {
    if w == 0 then 1 else 256 * Pow256(w - 1)
  }

  /** The number of distinct values of t, 2^(8 * sizeof(t)). */
  function Modulus(t: CType): (m: nat)
  {
    match t
    case Int8 | Uint8 => 0x100
    case Int16 | Uint16 => 0x1_0000
    case Int32 | Uint32 => 0x1_0000_0000
    case Int64 | Uint64 => 0x1_0000_0000_0000_0000
  }

  /** A type of width w has 256^w values. */
  lemma ModulusIsPow256(t: CType)
    ensures Modulus(t) == Pow256(Width(t))
  {
    assert Pow256(2) == 0x1_0000;
    assert Pow256(4) == 0x1_0000_0000 by { assert Pow256(3) == 0x100_0000; }
    assert Pow256(8) == 0x1_0000_0000_0000_0000 by {
      assert Pow256(5) == 0x100_0000_0000;
      assert Pow256(6) == 0x1_0000_0000_0000;
      assert Pow256(7) == 0x100_0000_0000_0000;
    }
  }

  /** v is a value of type t. */
  predicate InRange(t: CType, v: int)
  {
    if Signed(t) then -(Modulus(t) / 2) <= v < Modulus(t) / 2 else 0 <= v < Modulus(t)
  }

  /** static_cast<t>(n) of an integer n: the one value of t that agrees with
      n modulo 2^(8 * sizeof(t)) (wrap-around, two's complement). */
  function Cast(t: CType, n: int): (r: int)
    ensures InRange(t, r)
    ensures r % Modulus(t) == n % Modulus(t)
  {
    CastAgrees(t, n);
    CastOf(t, n)
  }

  function CastOf(t: CType, n: int): int
  {
    var m := n % Modulus(t);
    if Signed(t) && m >= Modulus(t) / 2 then m - Modulus(t) else m
  }

  lemma CastAgrees(t: CType, n: int)
    ensures InRange(t, CastOf(t, n))
    ensures CastOf(t, n) % Modulus(t) == n % Modulus(t)
  {
    var m := n % Modulus(t);
    assert n == Modulus(t) * (n / Modulus(t)) + m;
    MultipleAdded(t, n / Modulus(t), m);
    MultipleAdded(t, -1, m);
    assert Modulus(t) * -1 + m == m - Modulus(t);
  }

  /** bit_cast to the unsigned type of the same width: the bit pattern of v
      read as an unsigned number. */
  function Bits(t: CType, v: int): (b: nat)
    ensures b < Modulus(t)
  {
    v % Modulus(t)
  }

  /** Two values of t that agree modulo 2^(8 * sizeof(t)) are equal. */
  lemma CongruentValuesEqual(t: CType, a: int, b: int)
    requires InRange(t, a) && InRange(t, b)
    requires a % Modulus(t) == b % Modulus(t)
    ensures a == b
  {
    match t
    case Int8 =>
    case Uint8 =>
    case Int16 =>
    case Uint16 =>
    case Int32 =>
    case Uint32 =>
    case Int64 =>
    case Uint64 =>
  }

  /** Reading back the bit pattern of a value gives the value. */
  lemma CastOfBits(t: CType, v: int)
    requires InRange(t, v)
    ensures Cast(t, Bits(t, v)) == v
  {
    CongruentValuesEqual(t, Cast(t, Bits(t, v)), v);
  }

  /** Integers that agree modulo 2^64 agree modulo the modulus of every type. */
  lemma AgreeModulo64Bits(t: CType, x: int, y: int)
    requires x % Modulus(Int64) == y % Modulus(Int64)
    ensures x % Modulus(t) == y % Modulus(t)
  {
    var k, r := Modulus(Int64) / Modulus(t), x % Modulus(Int64);
    assert Modulus(Int64) == Modulus(t) * k;
    var qx, qy := x / Modulus(Int64), y / Modulus(Int64);
    assert x == Modulus(t) * (k * qx) + r;
    assert y == Modulus(t) * (k * qy) + r;
    MultipleAdded(t, k * qx, r);
    MultipleAdded(t, k * qy, r);
  }

  /** Adding a multiple of the modulus does not change the remainder. */
  lemma MultipleAdded(t: CType, q: int, r: int)
    ensures (Modulus(t) * q + r) % Modulus(t) == r % Modulus(t)
  {
    match t
    case Int8 =>
    case Uint8 =>
    case Int16 =>
    case Uint16 =>
    case Int32 =>
    case Uint32 =>
    case Int64 =>
    case Uint64 =>
  }

  /** Narrowing an integer first to int64_t and then to t gives the same value
      as narrowing it to t directly. */
  lemma CastThroughInt64(t: CType, n: int)
    ensures Cast(t, Cast(Int64, n)) == Cast(t, n)
  {
    AgreeModulo64Bits(t, Cast(Int64, n), n);
    CongruentValuesEqual(t, Cast(t, Cast(Int64, n)), Cast(t, n));
  }

  /** The 64-bit trap marker that trapped calls return. */
  const TrapSentinel: nat := 0xDEAD_BEEF_DEAD_BEEF

  /** The 32-bit trap marker that CHECK_TRAP32 and the JavaScript path look for. */
  const TrapSentinel32: nat := 0xDEAD_BEEF

  /** What a trapped compiled call returns: static_cast<ReturnType> of the
      unsigned 64-bit marker. */
  function CompiledTrapValue(t: CType): (r: int)
    ensures InRange(t, r)
    ensures Bits(t, r) == TrapSentinel % Modulus(t)
  {
    Cast(t, TrapSentinel)
  }

  /** What a trapped interpreted call returns: the marker is first stored in an
      int64_t and then converted with static_cast<ReturnType>. */
  function InterpreterTrapValue(t: CType): (r: int)
    ensures InRange(t, r)
  {
    Cast(t, Cast(Int64, TrapSentinel))
  }

  /** Both tiers report a trap with the same value of the return type. */
  lemma TrapValuesAgree(t: CType)
    ensures InterpreterTrapValue(t) == CompiledTrapValue(t)
  {
    CastThroughInt64(t, TrapSentinel);
  }

  /** CHECK_TRAP32(x): the bit pattern of the 32-bit value x, masked with
      0xFFFFFFFF (which keeps its low 32 bits), is 0xDEADBEEF. */
  predicate CheckTrap32(t: CType, x: int)
    requires Width(t) == 4
    ensures CheckTrap32(t, x) <==> Bits(t, x) == TrapSentinel32
  {
    Bits(t, x) % 0x1_0000_0000 == TrapSentinel32
  }

  /** CHECK_TRAP64(x): the bit pattern of the 64-bit value x, masked with
      0xFFFFFFFFFFFFFFFF, is 0xDEADBEEFDEADBEEF. */
  predicate CheckTrap64(t: CType, x: int)
    requires Width(t) == 8
    ensures CheckTrap64(t, x) <==> Bits(t, x) == TrapSentinel
  {
    Bits(t, x) % 0x1_0000_0000_0000_0000 == TrapSentinel
  }

  /** CHECK_TRAP32 accepts a value of a 32-bit return type exactly when it is
      the value a trapped call returns. */
  lemma CheckTrap32Accepts(t: CType, x: int)
    requires Width(t) == 4 && InRange(t, x)
    ensures CheckTrap32(t, x) <==> x == CompiledTrapValue(t)
  {
    if t.Int32? {
      assert CompiledTrapValue(t) == -0x2152_4111;
    } else {
      assert CompiledTrapValue(t) == 0xDEAD_BEEF;
    }
  }

  /** CHECK_TRAP64 accepts a value of a 64-bit return type exactly when it is
      the value a trapped call returns. */
  lemma CheckTrap64Accepts(t: CType, x: int)
    requires Width(t) == 8 && InRange(t, x)
    ensures CheckTrap64(t, x) <==> x == CompiledTrapValue(t)
  {
    if t.Int64? {
      assert CompiledTrapValue(t) == -0x2152_4110_2152_4111;
    } else {
      assert CompiledTrapValue(t) == 0xDEAD_BEEF_DEAD_BEEF;
    }
  }

  datatype ValueType = I32 | I64 | F32 | F64

  /** A wasm value as the interpreter takes it: its type and its bit pattern. */
  datatype WasmValue = WasmValue(vtype: ValueType, bits: nat)

  /** WasmValueInitializer(value): an int8_t or int16_t argument is widened
      to int32_t by its specialisation; a uint8_t or uint16_t argument reaches
      the WasmValue(int32_t) constructor through integral promotion, so it is
      zero-extended to an i32; every other argument keeps its type. */
  function WasmValueInitializer(t: CType, v: int): (w: WasmValue)
    requires InRange(t, v)
    ensures w.vtype == (if Width(t) <= 4 then I32 else I64)
    ensures w.bits < Modulus(if Width(t) <= 4 then Int32 else Int64)
    ensures Signed(t) ==> Cast(if Width(t) <= 4 then Int32 else Int64, w.bits) == v
    ensures !Signed(t) ==> w.bits == v
  {
    match t
    case Int8 | Int16 | Int32 =>
      CastOfBits(Int32, v);
      WasmValue(I32, Bits(Int32, v))
    case Uint8 | Uint16 | Uint32 => WasmValue(I32, v)
    case Int64 =>
      CastOfBits(Int64, v);
      WasmValue(I64, Bits(Int64, v))
    case Uint64 => WasmValue(I64, v)
  }

  /** Widening an int8_t or int16_t to int32_t is sign extension: the low bits
      are the argument's own bit pattern and every higher bit is its sign bit. */
  lemma SignExtension(t: CType, v: int)
    requires (t.Int8? || t.Int16?) && InRange(t, v)
    ensures WasmValueInitializer(t, v).bits % Modulus(t) == Bits(t, v)
    ensures WasmValueInitializer(t, v).bits / Modulus(t)
         == if v < 0 then Modulus(Int32) / Modulus(t) - 1 else 0
  {
    var b := WasmValueInitializer(t, v).bits;
    if v < 0 {
      assert b == Modulus(Int32) + v;
    } else {
      assert b == v;
    }
  }
}
