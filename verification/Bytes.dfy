/** Bytes and big-endian numbers. */
module Bytes {
  type byte = b: int | 0 <= b < 256

  function Pow256(n: nat): nat {
    if n == 0 then 1 else 256 * Pow256(n - 1)
  }

  // binary.BigEndian.UintN
  function BigEndian(bytes: seq<byte>): nat {
    if bytes == [] then 0 else 256 * BigEndian(bytes[..|bytes| - 1]) + bytes[|bytes| - 1]
  }

  // binary.BigEndian.PutUintN
  function ToBigEndian(n: nat, width: nat): seq<byte> {
    if width == 0 then [] else ToBigEndian(n / 256, width - 1) + [n % 256]
  }

  lemma {:induction false} BigEndianOfTo(n: nat, width: nat)
    requires n < Pow256(width)
    ensures |ToBigEndian(n, width)| == width && BigEndian(ToBigEndian(n, width)) == n
  {
    if width > 0 {
      BigEndianOfTo(n / 256, width - 1);
      assert ToBigEndian(n, width)[..width - 1] == ToBigEndian(n / 256, width - 1);
    }
  }

  lemma {:induction false} ToBigEndianOf(bytes: seq<byte>)
    ensures BigEndian(bytes) < Pow256(|bytes|) && ToBigEndian(BigEndian(bytes), |bytes|) == bytes
  {
    if bytes != [] {
      ToBigEndianOf(bytes[..|bytes| - 1]);
    }
  }
}
