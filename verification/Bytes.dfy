/** Bytes, and numbers as big-endian bytes. */
module Bytes {

  type byte = x: int | 0 <= x < 256

  type Bytes = seq<byte>

  function Pow256(n: nat): (r: nat)
    ensures r > 0
  {
    if n == 0 then 1 else 256 * Pow256(n - 1)
  }

  /** The `n` low-order bytes of `v`, the most significant first. */
  function ToBytes(n: nat, v: nat): (r: Bytes)
    ensures |r| == n
  {
    if n == 0 then [] else ToBytes(n - 1, v / 256) + [v % 256]
  }

  function FromBytes(s: Bytes): (r: nat)
    ensures r < Pow256(|s|)
  {
    if s == [] then 0 else 256 * FromBytes(s[..|s| - 1]) + s[|s| - 1]
  }

  lemma {:induction false} FromToBytes(n: nat, v: nat)
    requires v < Pow256(n)
    ensures FromBytes(ToBytes(n, v)) == v
  {
    if n > 0 {
      FromToBytes(n - 1, v / 256);
      var s := ToBytes(n, v);
      assert s[..n - 1] == ToBytes(n - 1, v / 256);
    }
  }

  lemma {:induction false} ToFromBytes(s: Bytes)
    ensures ToBytes(|s|, FromBytes(s)) == s
    decreases |s|
  {
    if s != [] {
      ToFromBytes(s[..|s| - 1]);
      assert s == s[..|s| - 1] + [s[|s| - 1]];
    }
  }

  lemma Powers()
    ensures Pow256(1) == 0x100 && Pow256(2) == 0x1_0000 && Pow256(3) == 0x100_0000
    ensures Pow256(6) == 0x1_0000_0000_0000 && Pow256(8) == 0x1_0000_0000_0000_0000
  {
    assert Pow256(3) == 256 * Pow256(2) && Pow256(4) == 256 * Pow256(3) && Pow256(5) == 256 * Pow256(4);
    assert Pow256(6) == 256 * Pow256(5) && Pow256(7) == 256 * Pow256(6);
  }

  type u16 = x: int | 0 <= x < 0x1_0000

  type u24 = x: int | 0 <= x < 0x100_0000

  type u64 = x: int | 0 <= x < 0x1_0000_0000_0000_0000

  function U16(b: Bytes): u16
    requires |b| == 2
  {
    Powers();
    FromBytes(b)
  }

  function U24(b: Bytes): u24
    requires |b| == 3
  {
    Powers();
    FromBytes(b)
  }

  lemma U16OfBytes(v: u16)
    ensures U16(ToBytes(2, v)) == v
  {
    Powers();
    FromToBytes(2, v);
  }

  lemma U24OfBytes(v: u24)
    ensures U24(ToBytes(3, v)) == v
  {
    Powers();
    FromToBytes(3, v);
  }

  lemma Slices<T>(a: seq<T>, b: seq<T>, c: seq<T>)
    ensures (a + b + c)[..|a|] == a && (a + b + c)[|a|..] == b + c && (b + c)[|b|..] == c
  {
  }
}
