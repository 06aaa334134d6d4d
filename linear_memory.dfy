/** Wasm linear memory as the test harness sees it: a buffer of mem_size_
    bytes that values are read from and written to in little-endian byte
    order (ReadLittleEndianValue / WriteLittleEndianValue). */
module LinearMemory {
  import opened MachineTypes

  /** The w bytes of v, least significant first. */
  function Encode(v: nat, w: nat): (bs: seq<byte>)
    requires v < Pow256(w)
    ensures |bs| == w
    decreases w
  {
    if w == 0 then []
    else
      assert v / 256 < Pow256(w - 1);
      [(v % 256) as byte] + Encode(v / 256, w - 1)
  }

  /** The number whose bytes, least significant first, are bs. */
  function Decode(bs: seq<byte>): (v: nat)
    ensures v < Pow256(|bs|)
  {
    if bs == [] then 0 else bs[0] as nat + 256 * Decode(bs[1..])
  }

  /** Decoding the encoding of a value gives the value back. */
  lemma {:induction false} DecodeEncode(v: nat, w: nat)
    requires v < Pow256(w)
    ensures Decode(Encode(v, w)) == v
  {
    if w > 0 {
      var bs := Encode(v, w);
      assert bs[1..] == Encode(v / 256, w - 1);
      DecodeEncode(v / 256, w - 1);
    }
  }

  /** Encoding the value of some bytes gives the same bytes back. */
  lemma {:induction false} EncodeDecode(bs: seq<byte>)
    ensures Encode(Decode(bs), |bs|) == bs
  {
    if bs != [] {
      var v := Decode(bs);
      assert v % 256 == bs[0] as nat;
      assert v / 256 == Decode(bs[1..]);
      EncodeDecode(bs[1..]);
    }
  }

  /** Byte order: bytes at higher addresses are the more significant ones,
      so a value splits at any byte k into its low k bytes and the rest. */
  lemma {:induction false} DecodeSplit(bs: seq<byte>, k: nat)
    requires k <= |bs|
    ensures Decode(bs) == Decode(bs[..k]) + Pow256(k) * Decode(bs[k..])
  {
    if k > 0 {
      var rest := bs[1..];
      DecodeSplit(rest, k - 1);
      assert bs[..k][1..] == rest[..k - 1];
      assert bs[k..] == rest[k - 1..];
      Regroup(bs[0] as nat, Decode(rest[..k - 1]), Decode(rest[k - 1..]), Pow256(k - 1));
    } else {
      assert bs[k..] == bs;
    }
  }

  lemma Regroup(b0: nat, lo: nat, hi: nat, p: nat)
    ensures b0 + 256 * (lo + p * hi) == (b0 + 256 * lo) + (256 * p) * hi
  {
  }

  /** The memory m with the bytes bs written at address a. */
  function Store(m: seq<byte>, a: nat, bs: seq<byte>): (m': seq<byte>)
    requires a + |bs| <= |m|
    ensures |m'| == |m|
    ensures m'[a..a + |bs|] == bs
    ensures forall i :: 0 <= i < |m| && !(a <= i < a + |bs|) ==> m'[i] == m[i]
  {
    m[..a] + bs + m[a + |bs|..]
  }

  /** ReadMemory at byte address a of a value of type t. */
  function ReadValue(m: seq<byte>, t: CType, a: nat): (v: int)
    requires a + Width(t) <= |m|
    ensures InRange(t, v)
  {
    Cast(t, Decode(m[a..a + Width(t)]))
  }

  /** WriteMemory at byte address a of the value v of type t. */
  function WriteValue(m: seq<byte>, t: CType, a: nat, v: int): (m': seq<byte>)
    requires InRange(t, v) && a + Width(t) <= |m|
    ensures |m'| == |m|
    ensures forall i :: 0 <= i < |m| && !(a <= i < a + Width(t)) ==> m'[i] == m[i]
  {
    ModulusIsPow256(t);
    Store(m, a, Encode(Bits(t, v), Width(t)))
  }

  /** Reading a value back from where it was written gives the value. */
  lemma WriteThenRead(m: seq<byte>, t: CType, a: nat, v: int)
    requires InRange(t, v) && a + Width(t) <= |m|
    ensures ReadValue(WriteValue(m, t, a, v), t, a) == v
  {
    ModulusIsPow256(t);
    var bs := Encode(Bits(t, v), Width(t));
    assert WriteValue(m, t, a, v)[a..a + Width(t)] == bs;
    DecodeEncode(Bits(t, v), Width(t));
    CastOfBits(t, v);
  }

  /** A write leaves every value that does not overlap it as it was. */
  lemma WriteKeepsOthers(m: seq<byte>, t: CType, a: nat, v: int, u: CType, b: nat)
    requires InRange(t, v) && a + Width(t) <= |m| && b + Width(u) <= |m|
    requires a + Width(t) <= b || b + Width(u) <= a
    ensures ReadValue(WriteValue(m, t, a, v), u, b) == ReadValue(m, u, b)
  {
    var m' := WriteValue(m, t, a, v);
    assert m'[b..b + Width(u)] == m[b..b + Width(u)];
  }

  /** A memory of n zero bytes: what BlankMemory leaves. */
  function Blank(n: nat): (m: seq<byte>)
    ensures |m| == n
    ensures forall i :: 0 <= i < n ==> m[i] == 0
  {
    seq(n, _ => 0)
  }

  /** Zero bytes encode zero. */
  lemma {:induction false} DecodeZeros(bs: seq<byte>)
    requires forall i :: 0 <= i < |bs| ==> bs[i] == 0
    ensures Decode(bs) == 0
  {
    if bs != [] {
      DecodeZeros(bs[1..]);
    }
  }

  /** Every value read from blank memory is zero. */
  lemma BlankReadsZero(n: nat, t: CType, a: nat)
    requires a + Width(t) <= n
    ensures ReadValue(Blank(n), t, a) == 0
  {
    DecodeZeros(Blank(n)[a..a + Width(t)]);
  }
}
