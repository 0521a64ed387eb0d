/** The XOR metric: `distcmp` (discovery/node.go) and `logdist` with its table `lzcount`
    (discovery/table.go).  Both are byte loops; both are specified against one number, the
    big-endian value of the byte-wise XOR of two hashes. */
module Distance {
  import opened Words

  const HASH_SIZE := 32

  function Zeros(n: nat): (z: Bytes)
    ensures |z| == n && forall i :: 0 <= i < n ==> z[i] == 0
  {
    if n == 0 then [] else Zeros(n - 1) + [0]
  }

  type Hash = h: Bytes | |h| == HASH_SIZE witness Zeros(HASH_SIZE)

  const ZERO_HASH: Hash := Zeros(HASH_SIZE)

  function ByteXor(x: Byte, y: Byte): Byte {
    XorByte(x, y);
    Xor(x, y)
  }

  function XorBytes(a: Bytes, b: Bytes): (x: Bytes)
    requires |a| == |b|
  {
    seq(|a|, i requires 0 <= i < |a| => ByteXor(a[i], b[i]))
  }

  /** Kademlia distance. */
  function Dist(a: Bytes, b: Bytes): nat
    requires |a| == |b|
  {
    Value(XorBytes(a, b))
  }

  /** The number of the bucket that a hash belongs to, seen from another hash. */
  function LogDist(a: Bytes, b: Bytes): nat
    requires |a| == |b|
  {
    BitLen(Dist(a, b))
  }

  // ----- distcmp

  /** Which of a and b lies closer to target, decided at the first differing byte. */
  method DistCmp(target: Bytes, a: Bytes, b: Bytes) returns (r: int)
    requires |a| == |b| == |target|
    ensures r == if Dist(a, target) > Dist(b, target) then 1
                 else if Dist(a, target) < Dist(b, target) then -1 else 0
  {
    ghost var xa, xb := XorBytes(a, target), XorBytes(b, target);
    for i := 0 to |target|
      invariant xa[..i] == xb[..i]
    {
      var da := ByteXor(a[i], target[i]);
      var db := ByteXor(b[i], target[i]);
      if da > db {
        FirstByteDecides(xb, xa, i);
        return 1;
      } else if da < db {
        FirstByteDecides(xa, xb, i);
        return -1;
      }
    }
    assert xa == xb;
    return 0;
  }

  // ----- logdist

  /** Leading zero bits of each byte value, laid out as the source lays it out. */
  const LZ_COUNT: seq<seq<nat>> := [
    [8, 7, 6, 6, 5, 5, 5, 5],
    [4, 4, 4, 4, 4, 4, 4, 4],
    [3, 3, 3, 3, 3, 3, 3, 3],
    [3, 3, 3, 3, 3, 3, 3, 3],
    [2, 2, 2, 2, 2, 2, 2, 2],
    [2, 2, 2, 2, 2, 2, 2, 2],
    [2, 2, 2, 2, 2, 2, 2, 2],
    [2, 2, 2, 2, 2, 2, 2, 2],
    [1, 1, 1, 1, 1, 1, 1, 1],
    [1, 1, 1, 1, 1, 1, 1, 1],
    [1, 1, 1, 1, 1, 1, 1, 1],
    [1, 1, 1, 1, 1, 1, 1, 1],
    [1, 1, 1, 1, 1, 1, 1, 1],
    [1, 1, 1, 1, 1, 1, 1, 1],
    [1, 1, 1, 1, 1, 1, 1, 1],
    [1, 1, 1, 1, 1, 1, 1, 1],
    [0, 0, 0, 0, 0, 0, 0, 0],
    [0, 0, 0, 0, 0, 0, 0, 0],
    [0, 0, 0, 0, 0, 0, 0, 0],
    [0, 0, 0, 0, 0, 0, 0, 0],
    [0, 0, 0, 0, 0, 0, 0, 0],
    [0, 0, 0, 0, 0, 0, 0, 0],
    [0, 0, 0, 0, 0, 0, 0, 0],
    [0, 0, 0, 0, 0, 0, 0, 0],
    [0, 0, 0, 0, 0, 0, 0, 0],
    [0, 0, 0, 0, 0, 0, 0, 0],
    [0, 0, 0, 0, 0, 0, 0, 0],
    [0, 0, 0, 0, 0, 0, 0, 0],
    [0, 0, 0, 0, 0, 0, 0, 0],
    [0, 0, 0, 0, 0, 0, 0, 0],
    [0, 0, 0, 0, 0, 0, 0, 0],
    [0, 0, 0, 0, 0, 0, 0, 0]
  ]

  lemma LzRows()
    ensures |LZ_COUNT| == 32 && forall r :: 0 <= r < 32 ==> |LZ_COUNT[r]| == 8
  {
  }

  function LzCount(x: Byte): nat {
    LzRows();
    LZ_COUNT[x / 8][x % 8]
  }

  /** All 256 entries of the table are right: 8 - lzcount[x] is the bit length of x. */
  lemma LzCountCorrect(x: Byte)
    ensures LzCount(x) + BitLen(x) == 8
  {
    LzRows();
    if x >= 8 {
      LzCountHigh(x);
    } else {
      LzCountLow(x);
    }
  }

  lemma LzCountLow(x: Byte)
    requires x < 8
    ensures LzCount(x) + BitLen(x) == 8
  {
    assert LZ_COUNT[0] == [8, 7, 6, 6, 5, 5, 5, 5];
    assert x == 0 || x == 1 || x == 2 || x == 3 || x == 4 || x == 5 || x == 6 || x == 7;
    assert BitLen(1) == 1 && BitLen(2) == BitLen(3) == 2;
    assert BitLen(4) == BitLen(5) == BitLen(6) == BitLen(7) == 3;
  }

  lemma LzCountHigh(x: Byte)
    requires x >= 8
    ensures LzCount(x) + BitLen(x) == 8
  {
    LzRow(x / 8);
    ByteBitLen(x);
  }

  lemma LzRow(r: nat)
    requires 1 <= r < 32
    ensures |LZ_COUNT| == 32
    ensures LZ_COUNT[r] == if r < 2 then [4, 4, 4, 4, 4, 4, 4, 4] else if r < 4 then [3, 3, 3, 3, 3, 3, 3, 3]
                           else if r < 8 then [2, 2, 2, 2, 2, 2, 2, 2] else if r < 16 then [1, 1, 1, 1, 1, 1, 1, 1]
                           else [0, 0, 0, 0, 0, 0, 0, 0]
  {
  }

  lemma ByteBitLen(x: Byte)
    requires x >= 8
    ensures BitLen(x) == if x < 16 then 4 else if x < 32 then 5 else if x < 64 then 6
                         else if x < 128 then 7 else 8
  {
    assert Pow2(3) == 8 && Pow2(4) == 16 && Pow2(5) == 32 && Pow2(6) == 64 && Pow2(7) == 128 && Pow2(8) == 256;
    BitLenAtMost(x, 3);
    BitLenAtMost(x, 4);
    BitLenAtMost(x, 5);
    BitLenAtMost(x, 6);
    BitLenAtMost(x, 7);
    BitLenAtMost(x, 8);
  }

  /** Skip equal bytes eight bits at a time, then look the first differing byte up. */
  method LogDistance(a: Bytes, b: Bytes) returns (d: int)
    requires |a| == |b|
    ensures d == LogDist(a, b)
  {
    var lz := 0;
    ghost var x := XorBytes(a, b);
    var i := 0;
    while i < |a|
      invariant 0 <= i <= |a| && lz == 8 * i
      invariant Value(x) == Value(x[i..])
    {
      var xi := ByteXor(a[i], b[i]);
      assert xi == x[i] == x[i..][0] && x[i..][1..] == x[i + 1..];
      if xi == 0 {
        LeadingZero(x[i..]);
        lz := lz + 8;
      } else {
        LzCountCorrect(xi);
        LeadingByte(x[i..]);
        lz := lz + LzCount(xi);
        break;
      }
      i := i + 1;
    }
    return |a| * 8 - lz;
  }

  /** The number with the digits of x above position k, and those of x0 below it. */
  function Shifted(x: nat, x0: nat, k: nat): nat {
    x * Pow2(k) + x0
  }

  lemma Halve(x: nat, x0: nat, k: nat)
    requires k > 0
    ensures Shifted(x, x0, k) / 2 == Shifted(x, x0 / 2, k - 1)
    ensures Shifted(x, x0, k) % 2 == x0 % 2
  {
    assert x * Pow2(k) == 2 * (x * Pow2(k - 1));
  }

  lemma {:induction false} BitLenShifted(x: nat, r: nat, k: nat)
    requires x > 0 && r < Pow2(k)
    ensures BitLen(Shifted(x, r, k)) == BitLen(x) + k
    decreases k
  {
    if k > 0 {
      Halve(x, r, k);
      BitLenShifted(x, r / 2, k - 1);
      ShiftedPositive(x, r, k);
    }
  }

  lemma ShiftedPositive(x: nat, r: nat, k: nat)
    requires x > 0
    ensures Shifted(x, r, k) > 0
  {
    ScaleDigit(1, x, Pow2(k));
  }

  /** With a non-zero leading byte, the bit length is that of the byte plus eight per following byte. */
  lemma LeadingByte(s: Bytes)
    requires s != [] && s[0] > 0
    ensures BitLen(Value(s)) == BitLen(s[0]) + 8 * (|s| - 1)
  {
    var n := |s| - 1;
    Pow256IsPow2(n);
    ValueBound(s[1..]);
    BitLenShifted(s[0], Value(s[1..]), 8 * n);
  }

  // ----- the metric

  /** Distances from one target separate hashes: distcmp returns 0 only for equal hashes. */
  lemma DistIdentity(t: Bytes, a: Bytes, b: Bytes)
    requires |a| == |b| == |t|
    ensures Dist(a, t) == Dist(b, t) <==> a == b
  {
    if Dist(a, t) == Dist(b, t) {
      ValueInjective(XorBytes(a, t), XorBytes(b, t));
      forall i | 0 <= i < |a| ensures a[i] == b[i] {
        assert XorBytes(a, t)[i] == XorBytes(b, t)[i];
        XorCancels(a[i], t[i]);
        XorCancels(b[i], t[i]);
      }
    }
  }

  lemma DistSymmetric(a: Bytes, b: Bytes)
    requires |a| == |b|
    ensures Dist(a, b) == Dist(b, a)
  {
    forall i | 0 <= i < |a| ensures Xor(a[i], b[i]) == Xor(b[i], a[i]) { XorCommutes(a[i], b[i]); }
    assert XorBytes(a, b) == XorBytes(b, a);
  }

  lemma {:induction false} ZeroValue(s: Bytes)
    requires forall i :: 0 <= i < |s| ==> s[i] == 0
    ensures Value(s) == 0
  {
    if s != [] { ZeroValue(s[1..]); }
  }

  lemma SelfDist(a: Bytes)
    ensures Dist(a, a) == 0 && LogDist(a, a) == 0
  {
    forall i | 0 <= i < |a| ensures Xor(a[i], a[i]) == 0 { XorSelf(a[i]); }
    ZeroValue(XorBytes(a, a));
  }

  /** a xor c is (a xor b) xor (b xor c). */
  lemma XorThrough(a: nat, b: nat, c: nat)
    ensures Xor(a, c) == Xor(Xor(a, b), Xor(b, c))
  {
    XorAssociates(Xor(a, b), b, c);
    XorCancels(a, b);
  }

  lemma TriangleInequality(a: Bytes, b: Bytes, c: Bytes)
    requires |a| == |b| == |c|
    ensures Dist(a, c) <= Dist(a, b) + Dist(b, c)
  {
    forall i | 0 <= i < |a| ensures Xor(a[i], c[i]) <= Xor(a[i], b[i]) + Xor(b[i], c[i]) {
      XorThrough(a[i], b[i], c[i]);
    }
    DigitwiseSum(XorBytes(a, b), XorBytes(b, c), XorBytes(a, c));
  }

  /** Bucket distance is an ultrametric: sharing a bucket prefix is transitive. */
  lemma LogDistUltrametric(a: Bytes, b: Bytes, c: Bytes)
    requires |a| == |b| == |c|
    ensures LogDist(a, c) <= if LogDist(a, b) > LogDist(b, c) then LogDist(a, b) else LogDist(b, c)
  {
    ValueOfXor(a, b);
    ValueOfXor(b, c);
    ValueOfXor(a, c);
    XorThrough(Value(a), Value(b), Value(c));
    BitLenXor(Dist(a, b), Dist(b, c));
  }

  /** XOR of byte strings is XOR of the integers they write. */
  lemma {:induction false} ValueOfXor(a: Bytes, b: Bytes)
    requires |a| == |b|
    ensures Dist(a, b) == Xor(Value(a), Value(b))
  {
    if a != [] {
      var k := 8 * (|a| - 1);
      assert XorBytes(a, b)[1..] == XorBytes(a[1..], b[1..]);
      ValueOfXor(a[1..], b[1..]);
      Pow256IsPow2(|a| - 1);
      ValueBound(a[1..]);
      ValueBound(b[1..]);
      XorSplit(a[0], Value(a[1..]), b[0], Value(b[1..]), k);
    }
  }

  /** XOR works separately on the digits above and below position k. */
  lemma {:induction false} XorSplit(x1: nat, x0: nat, y1: nat, y0: nat, k: nat)
    requires x0 < Pow2(k) && y0 < Pow2(k)
    ensures Xor(Shifted(x1, x0, k), Shifted(y1, y0, k)) == Shifted(Xor(x1, y1), Xor(x0, y0), k)
    decreases k
  {
    if k > 0 {
      XorSplit(x1, x0 / 2, y1, y0 / 2, k - 1);
      Halve(x1, x0, k);
      Halve(y1, y0, k);
      Halve(Xor(x1, y1), Xor(x0, y0), k);
      XorDigit(x0, y0);
      XorByDigits(Shifted(x1, x0, k), Shifted(y1, y0, k), x0, y0, Shifted(Xor(x1, y1), Xor(x0, y0), k));
    }
  }

  lemma XorByDigits(x: nat, y: nat, x0: nat, y0: nat, z: nat)
    requires x % 2 == x0 % 2 && y % 2 == y0 % 2
    requires z / 2 == Xor(x / 2, y / 2) && z % 2 == Xor(x0, y0) % 2
    ensures Xor(x, y) == z
  {
    XorDigit(x, y);
    XorDigit(x0, y0);
    SumParity(x, x0, y);
    SumParity(y, y0, x0);
    SameDigits(Xor(x, y), z);
  }

  /** A smaller bucket distance means strictly nearer, and nearer never means a larger bucket distance. */
  lemma BucketOrderIsDistanceOrder(t: Bytes, a: Bytes, b: Bytes)
    requires |a| == |b| == |t|
    ensures LogDist(a, t) < LogDist(b, t) ==> Dist(a, t) < Dist(b, t)
    ensures Dist(a, t) <= Dist(b, t) ==> LogDist(a, t) <= LogDist(b, t)
  {
    var k := LogDist(a, t);
    BitLenAtMost(Dist(a, t), k);
    BitLenAtMost(Dist(b, t), k);
    BitLenBounds(Dist(a, t));
    var m := LogDist(b, t);
    BitLenAtMost(Dist(a, t), m);
    BitLenAtMost(Dist(b, t), m);
  }
}
