/**
 * Byte strings, the 32-byte words the contracts and the Merkle code exchange, and
 * the three orders the repository compares them with: Solidity's `bytes32 <=`
 * (big-endian number), `Buffer.compare` (lexicographic on bytes), and the big-endian
 * packing that `abi.encodePacked` uses for integers.
 */
module ByteStrings {
  type Byte = x: int | 0 <= x < 256
  type Bytes = seq<Byte>

  const ZERO32: Bytes := [
    0, 0, 0, 0, 0, 0, 0, 0, 0, 0, 0, 0, 0, 0, 0, 0,
    0, 0, 0, 0, 0, 0, 0, 0, 0, 0, 0, 0, 0, 0, 0, 0]

  type Bytes32 = b: Bytes | |b| == 32 witness ZERO32

  /** An uninterpreted hash: every theorem quantifies over all of them. */
  type Hash = Bytes -> Bytes32

  const TWO_32: nat := 0x1_0000_0000
  const TWO_64: nat := 0x1_0000_0000_0000_0000

  type UInt32 = x: int | 0 <= x < 0x1_0000_0000
  type UInt64 = x: int | 0 <= x < 0x1_0000_0000_0000_0000
  type Int64 = x: int | -0x8000_0000_0000_0000 <= x < 0x8000_0000_0000_0000
  type Address = x: int | 0 <= x < 0x1_0000000000_0000000000_0000000000_0000000000
  /** Identifiers the contracts key their state by: bytes32 values read as numbers. */
  type Word = x: int | 0 <= x < 0x1_0000000000000000_0000000000000000_0000000000000000_0000000000000000

  const ZERO_ADDRESS: Address := 0

  // ------------------------------------------------------------ big-endian numbers

  function Pow256(n: nat): (p: nat)
    ensures p >= 1
  {
    if n == 0 then 1 else 256 * Pow256(n - 1)
  }

  /** The number a byte string denotes, most significant byte first. */
  function BigEndian(b: Bytes): (n: nat)
    ensures n < Pow256(|b|)
  {
    if |b| == 0 then 0
    else
      MulStep(b[0], Pow256(|b| - 1));
      b[0] * Pow256(|b| - 1) + BigEndian(b[1..])
  }

  lemma MulStep(d: int, p: nat)
    requires 0 <= d < 256
    ensures 0 <= d * p <= 255 * p
  {
  }

  /** `n` in exactly `k` bytes, as encodePacked writes a uint of 8k bits. */
  function ToBytes(n: nat, k: nat): (b: Bytes)
    requires n < Pow256(k)
    ensures |b| == k
  {
    if k == 0 then []
    else
      QuotientIsByte(n, Pow256(k - 1));
      [n / Pow256(k - 1)] + ToBytes(n % Pow256(k - 1), k - 1)
  }

  lemma QuotientIsByte(n: nat, p: nat)
    requires p > 0 && n < 256 * p
    ensures 0 <= n / p < 256 && n % p < p && n == (n / p) * p + n % p
  {
  }

  /** Packing an integer loses nothing. */
  lemma {:induction false} BigEndianOfToBytes(n: nat, k: nat)
    requires n < Pow256(k)
    ensures BigEndian(ToBytes(n, k)) == n
  {
    if k > 0 {
      var p := Pow256(k - 1);
      QuotientIsByte(n, p);
      BigEndianOfToBytes(n % p, k - 1);
      assert ToBytes(n, k)[1..] == ToBytes(n % p, k - 1);
    }
  }

  lemma ToBytesInjective(m: nat, n: nat, k: nat)
    requires m < Pow256(k) && n < Pow256(k)
    requires ToBytes(m, k) == ToBytes(n, k)
    ensures m == n
  {
    BigEndianOfToBytes(m, k);
    BigEndianOfToBytes(n, k);
  }

  lemma Pow256Values()
    ensures Pow256(1) == 256
    ensures Pow256(4) == 0x1_0000_0000
    ensures Pow256(8) == TWO_64
  {
    assert Pow256(2) == 0x1_0000;
    assert Pow256(3) == 0x100_0000;
    assert Pow256(5) == 0x100_0000_0000;
    assert Pow256(6) == 0x1_0000_0000_0000;
    assert Pow256(7) == 0x100_0000_0000_0000;
  }

  lemma Pow256Twenty()
    ensures Pow256(20) == 0x1_0000000000_0000000000_0000000000_0000000000
  {
    Pow256Values();
    Pow256Add(8, 8);
    Pow256Add(16, 4);
  }

  lemma Pow256Sixteen()
    ensures Pow256(16) == 0x1_0000000000000000_0000000000000000
  {
    Pow256Values();
    Pow256Add(8, 8);
  }

  lemma Pow256ThirtyTwo()
    ensures Pow256(32) == 0x1_0000000000000000_0000000000000000_0000000000000000_0000000000000000
  {
    Pow256Values();
    Pow256Add(8, 8);
    Pow256Add(16, 16);
  }

  lemma {:induction false} Pow256Add(m: nat, n: nat)
    ensures Pow256(m + n) == Pow256(m) * Pow256(n)
  {
    if m > 0 {
      Pow256Add(m - 1, n);
      MulAssoc(256, Pow256(m - 1), Pow256(n));
    }
  }

  lemma MulAssoc(a: int, b: int, c: int)
    ensures (a * b) * c == a * (b * c)
  {
  }

  // ------------------------------------------------------------ lexicographic order

  /** `Buffer.compare(a, b) <= 0` for buffers of equal length. */
  predicate LexLeq(a: Bytes, b: Bytes)
    requires |a| == |b|
  {
    |a| == 0 || a[0] < b[0] || (a[0] == b[0] && LexLeq(a[1..], b[1..]))
  }

  /** Comparing buffers byte by byte and comparing the numbers they denote agree. */
  lemma {:induction false} LexIsNumeric(a: Bytes, b: Bytes)
    requires |a| == |b|
    ensures LexLeq(a, b) <==> BigEndian(a) <= BigEndian(b)
  {
    if |a| > 0 {
      LexIsNumeric(a[1..], b[1..]);
      var p := Pow256(|a| - 1);
      if a[0] < b[0] {
        LeadingDigit(a[0], b[0], p);
      } else if b[0] < a[0] {
        LeadingDigit(b[0], a[0], p);
      }
    }
  }

  /** Byte strings of one length that denote one number are equal. */
  lemma BigEndianInjective(a: Bytes, b: Bytes)
    requires |a| == |b| && BigEndian(a) == BigEndian(b)
    ensures a == b
  {
    LexIsNumeric(a, b);
    LexIsNumeric(b, a);
    LexTotal(a, b);
  }

  lemma LeadingDigit(c: int, d: int, p: nat)
    requires c < d
    ensures c * p + p <= d * p
  {
    assert (d - c) * p >= p by {
      assert (d - c - 1) * p >= 0;
    }
  }

  lemma {:induction false} LexTotal(a: Bytes, b: Bytes)
    requires |a| == |b|
    ensures LexLeq(a, b) || LexLeq(b, a)
    ensures LexLeq(a, b) && LexLeq(b, a) ==> a == b
  {
    if |a| > 0 {
      LexTotal(a[1..], b[1..]);
      assert a == [a[0]] + a[1..] && b == [b[0]] + b[1..];
    }
  }
}
