/** The parts of the Algorand virtual machine (TEAL version 5) that the approval
    program relies on: unsigned 64-bit integers whose `+`, `-` and `*` abort the
    program on overflow or underflow, byte strings, and the `btoi` conversion. */
module Avm {

  datatype Option<+T> = None | Some(value: T)

  const UINT64_MAX: int := 0xFFFF_FFFF_FFFF_FFFF

  /** A TEAL stack integer. */
  type Uint64 = x: int | 0 <= x <= UINT64_MAX

  type Byte = x: int | 0 <= x < 256

  type Bytes = seq<Byte>

  /** `+` on uint64; None when the program would abort on overflow. */
  function Add(a: Uint64, b: Uint64): (r: Option<Uint64>)
  {
    if a + b <= UINT64_MAX then Some(a + b) else None
  }

  /** `-` on uint64; None when the program would abort on underflow. */
  function Sub(a: Uint64, b: Uint64): (r: Option<Uint64>)
  {
    if b <= a then Some(a - b) else None
  }

  /** `*` on uint64; None when the program would abort on overflow. */
  function Mul(a: Uint64, b: Uint64): (r: Option<Uint64>)
  {
    if a * b <= UINT64_MAX then Some(a * b) else None
  }

  function Pow256(n: nat): (p: nat)
    ensures p > 0
  {
    if n == 0 then 1 else 256 * Pow256(n - 1)
  }

  lemma {:induction false} Pow256Monotone(m: nat, n: nat)
    requires m <= n
    ensures Pow256(m) <= Pow256(n)
  {
    if m < n {
      Pow256Monotone(m, n - 1);
    }
  }

  /** The unsigned big-endian value of a byte string; it fits in as many bytes as the string has. */
  function BigEndian(b: Bytes): (v: nat)
    ensures v < Pow256(|b|)
  {
    if b == [] then 0
    else
      var high := BigEndian(b[..|b| - 1]);
      assert high * 256 <= (Pow256(|b| - 1) - 1) * 256;
      high * 256 + b[|b| - 1]
  }

  /** Appending a byte shifts the value up by one byte. */
  lemma BigEndianAppend(b: Bytes, x: Byte)
    ensures BigEndian(b + [x]) == BigEndian(b) * 256 + x
  {
  }

  /** `btoi`: the big-endian value of at most 8 bytes; a longer string aborts the program. */
  function Btoi(b: Bytes): (r: Option<Uint64>)
    ensures r.Some? <==> |b| <= 8
    ensures r.Some? ==> r.value < Pow256(|b|)
  {
    if |b| <= 8 then
      Pow256Monotone(|b|, 8);
      Some(BigEndian(b))
    else None
  }

  /** The big-endian encoding of `x` in exactly `n` bytes. */
  function Encode(x: nat, n: nat): (b: Bytes)
    requires x < Pow256(n)
    ensures |b| == n
  {
    if n == 0 then []
    else Encode(x / 256, n - 1) + [x % 256]
  }

  /** `itob`: the 8-byte big-endian encoding of a uint64, the inverse of `btoi`. */
  function Itob(x: Uint64): (b: Bytes)
    ensures |b| == 8
  {
    Encode(x, 8)
  }

  lemma {:induction false} BigEndianOfEncode(x: nat, n: nat)
    requires x < Pow256(n)
    ensures BigEndian(Encode(x, n)) == x
  {
    if n > 0 {
      var b := Encode(x, n);
      assert b[..n - 1] == Encode(x / 256, n - 1);
      BigEndianOfEncode(x / 256, n - 1);
    }
  }

  lemma {:induction false} EncodeOfBigEndian(b: Bytes)
    ensures Encode(BigEndian(b), |b|) == b
  {
    if b != [] {
      var n := |b|;
      var high := BigEndian(b[..n - 1]);
      var v := BigEndian(b);
      assert v / 256 == high && v % 256 == b[n - 1];
      EncodeOfBigEndian(b[..n - 1]);
      assert b == b[..n - 1] + [b[n - 1]];
    }
  }

  /** `btoi` undoes `itob`. */
  lemma BtoiOfItob(x: Uint64)
    ensures Btoi(Itob(x)) == Some(x)
  {
    BigEndianOfEncode(x, 8);
  }

  /** A leading zero byte does not change the big-endian value. */
  lemma {:induction false} BigEndianLeadingZero(c: Bytes)
    ensures BigEndian([0] + c) == BigEndian(c)
  {
    if c != [] {
      var n := |c|;
      BigEndianLeadingZero(c[..n - 1]);
      assert ([0] + c)[..n] == [0] + c[..n - 1];
    }
  }

  /** Any number of leading zero bytes does not change the big-endian value. */
  lemma {:induction false} BigEndianLeadingZeros(k: nat, b: Bytes)
    ensures BigEndian(seq(k, _ => 0) + b) == BigEndian(b)
  {
    if k > 0 {
      var rest: Bytes := seq(k - 1, _ => 0) + b;
      BigEndianLeadingZeros(k - 1, b);
      BigEndianLeadingZero(rest);
      assert seq(k, _ => 0) + b == [0] + rest;
    } else {
      assert seq(k, _ => 0) + b == b;
    }
  }

  /** `btoi` reads a string of at most 8 bytes as the uint64 whose 8-byte encoding is the
      string padded with leading zero bytes. */
  lemma BtoiPadded(b: Bytes)
    requires |b| <= 8
    ensures Btoi(b).Some? && Itob(Btoi(b).value) == seq(8 - |b|, _ => 0) + b
  {
    var padded: Bytes := seq(8 - |b|, _ => 0) + b;
    BigEndianLeadingZeros(8 - |b|, b);
    EncodeOfBigEndian(padded);
  }

  /** `itob` undoes `btoi` on 8-byte strings. */
  lemma ItobOfBtoi(b: Bytes)
    requires |b| == 8
    ensures Btoi(b).Some? && Itob(Btoi(b).value) == b
  {
    EncodeOfBigEndian(b);
  }
}
