/** Machine-word operations on natural numbers. */
module Bits {
  type Byte = n: int | 0 <= n < 256

  function Pow2(k: nat): (r: nat)
    ensures r > 0
  {
    if k == 0 then 1 else 2 * Pow2(k - 1)
  }

  /** Bitwise or. */
  function Or(a: nat, b: nat): nat {
    if a == 0 then b
    else if b == 0 then a
    else 2 * Or(a / 2, b / 2) + (if a % 2 == 1 || b % 2 == 1 then 1 else 0)
  }

  /** Shifting left by `k`. */
  function Shl(a: nat, k: nat): nat {
    a * Pow2(k)
  }

  /** Or-ing a number below 2^k with one shifted past it adds them: the fields do not overlap. */
  lemma {:induction false} OrDisjoint(a: nat, b: nat, k: nat)
    requires a < Pow2(k)
    ensures Or(a, Shl(b, k)) == a + Shl(b, k)
    ensures Or(Shl(b, k), a) == a + Shl(b, k)
    decreases k
  {
    if k > 0 && a > 0 && Shl(b, k) > 0 {
      assert Shl(b, k) == 2 * Shl(b, k - 1);
      OrDisjoint(a / 2, b, k - 1);
    }
  }

  lemma {:induction false} Pow2Adds(j: nat, k: nat)
    ensures Pow2(j + k) == Pow2(j) * Pow2(k)
    decreases k
  {
    if k > 0 {
      Pow2Adds(j, k - 1);
      assert Pow2(j + k) == 2 * Pow2(j + (k - 1));
    }
  }

  /** The number a little-endian byte sequence stands for. */
  function LittleEndian(bytes: seq<Byte>): nat {
    if bytes == [] then 0 else bytes[0] + 256 * LittleEndian(bytes[1..])
  }

  function ToLittleEndian(n: nat, width: nat): (r: seq<Byte>)
    ensures |r| == width
  {
    if width == 0 then [] else [n % 256] + ToLittleEndian(n / 256, width - 1)
  }

  lemma {:induction false} LittleEndianBound(bytes: seq<Byte>)
    ensures LittleEndian(bytes) < Pow2(8 * |bytes|)
  {
    if bytes != [] {
      LittleEndianBound(bytes[1..]);
      Pow2Adds(8 * |bytes[1..]|, 8);
      assert Pow2(8) == 256;
    }
  }

  lemma {:induction false} LittleEndianSnoc(bytes: seq<Byte>, b: Byte)
    ensures LittleEndian(bytes + [b]) == LittleEndian(bytes) + Shl(b, 8 * |bytes|)
    decreases |bytes|
  {
    if bytes != [] {
      assert (bytes + [b])[1..] == bytes[1..] + [b];
      LittleEndianSnoc(bytes[1..], b);
      Pow2Adds(8 * |bytes[1..]|, 8);
      assert Pow2(8) == 256;
      assert Shl(b, 8 * |bytes|) == 256 * Shl(b, 8 * |bytes[1..]|);
    }
  }

  lemma {:induction false} LittleEndianRoundTrip(n: nat, width: nat)
    requires n < Pow2(8 * width)
    ensures LittleEndian(ToLittleEndian(n, width)) == n
    decreases width
  {
    if width > 0 {
      Pow2Adds(8 * (width - 1), 8);
      assert Pow2(8) == 256;
      LittleEndianRoundTrip(n / 256, width - 1);
    }
  }

  /** The or-and-shift loop both decoders use to read a little-endian number. */
  method Accumulate(bytes: seq<Byte>) returns (n: nat)
    ensures n == LittleEndian(bytes)
  {
    n := 0;
    for i := 0 to |bytes|
      invariant n == LittleEndian(bytes[..i])
    {
      LittleEndianBound(bytes[..i]);
      LittleEndianSnoc(bytes[..i], bytes[i]);
      OrDisjoint(n, bytes[i], 8 * i);
      n := Or(n, Shl(bytes[i], 8 * i));
      assert bytes[..i + 1] == bytes[..i] + [bytes[i]];
    }
    assert bytes[..|bytes|] == bytes;
  }
}
