/** Bytes and little-endian integers. */
module Bytes {

  type Byte = x: int | 0 <= x < 256
  type Data = seq<Byte>

  /** `Buffer.alloc(n)` */
  function Zeros(n: nat): (zeros: Data)
    ensures |zeros| == n && forall i :: 0 <= i < n ==> zeros[i] == 0
  {
    if n == 0 then [] else [0] + Zeros(n - 1)
  }

  const TWO64 := 0x1_0000_0000_0000_0000

  function Pow256(n: nat): (p: nat)
    ensures p > 0
  {
    if n == 0 then 1 else 256 * Pow256(n - 1)
  }

  lemma PowValues()
    ensures Pow256(4) == 0x1_0000_0000 && Pow256(8) == TWO64
  {
    assert Pow256(2) == 65536;
    assert Pow256(4) == 65536 * 65536;
    assert Pow256(6) == 65536 * Pow256(4);
    assert Pow256(8) == 65536 * Pow256(6);
  }

  /** `n` in `width` bytes, least significant first. */
  function LE(n: nat, width: nat): (bytes: Data)
    ensures |bytes| == width
  {
    if width == 0 then [] else [n % 256] + LE(n / 256, width - 1)
  }

  function FromLE(bytes: Data): nat {
    if bytes == [] then 0 else bytes[0] + 256 * FromLE(bytes[1..])
  }

  /** What fits in the width is read back. */
  lemma {:induction false} ReadLE(n: nat, width: nat)
    requires n < Pow256(width)
    ensures FromLE(LE(n, width)) == n
  {
    if width > 0 {
      ReadLE(n / 256, width - 1);
      assert LE(n, width)[1..] == LE(n / 256, width - 1);
    }
  }

  /** Writes an unsigned 64-bit value at an offset; false is the source's range error. */
  method WriteBigUInt64LE(buffer: array<Byte>, value: int, offset: nat) returns (ok: bool)
    requires offset + 8 <= buffer.Length
    modifies buffer
    ensures ok <==> 0 <= value < TWO64
    ensures ok ==> buffer[..] == old(buffer[..offset]) + LE(value, 8) + old(buffer[offset + 8..])
    ensures !ok ==> buffer[..] == old(buffer[..])
  {
    if value < 0 || value >= TWO64 {
      return false;
    }
    var rest: nat := value;
    ghost var before := buffer[..];
    for i := 0 to 8
      invariant buffer[..offset] == before[..offset] && buffer[offset + 8..] == before[offset + 8..]
      invariant buffer[offset..offset + i] + LE(rest, 8 - i) == LE(value, 8)
    {
      buffer[offset + i] := rest % 256;
      assert buffer[offset..offset + i + 1] == buffer[offset..offset + i] + [rest % 256];
      assert LE(rest, 8 - i) == [rest % 256] + LE(rest / 256, 8 - (i + 1));
      rest := rest / 256;
    }
    assert buffer[..] == buffer[..offset] + buffer[offset..offset + 8] + buffer[offset + 8..];
    ok := true;
  }
}
