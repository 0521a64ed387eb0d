/** Machine words as integers: XOR digit by digit, bit length, and big-endian byte strings.
    Everything is stated on `nat`, so that a distance is an ordinary number. */
module Words {
  type Byte = b: nat | b < 256

  type Bytes = seq<Byte>

  /** Bitwise exclusive or, one binary digit at a time. */
  function Xor(x: nat, y: nat): (z: nat)
    ensures z <= x + y
    ensures x == 0 ==> z == y
    ensures y == 0 ==> z == x
    decreases x + y
  {
    if x + y == 0 then 0 else 2 * Xor(x / 2, y / 2) + (x + y) % 2
  }

  /** The number of binary digits of n. */
  function BitLen(n: nat): nat {
    if n == 0 then 0 else 1 + BitLen(n / 2)
  }

  function Pow2(n: nat): (p: nat)
    ensures p > 0
  {
    if n == 0 then 1 else 2 * Pow2(n - 1)
  }

  lemma {:induction false} XorCommutes(x: nat, y: nat)
    ensures Xor(x, y) == Xor(y, x)
    decreases x + y
  {
    if x + y != 0 { XorCommutes(x / 2, y / 2); }
  }

  lemma {:induction false} XorSelf(x: nat)
    ensures Xor(x, x) == 0
    decreases x
  {
    if x != 0 { XorSelf(x / 2); }
  }

  lemma XorDigit(x: nat, y: nat)
    ensures Xor(x, y) % 2 == (x + y) % 2
    ensures Xor(x, y) / 2 == Xor(x / 2, y / 2)
  {
    var half := Xor(x / 2, y / 2);
    assert x + y != 0 ==> Xor(x, y) == 2 * half + (x + y) % 2;
  }

  lemma {:induction false} XorAssociates(x: nat, y: nat, z: nat)
    ensures Xor(Xor(x, y), z) == Xor(x, Xor(y, z))
    decreases x + y + z
  {
    if x + y + z != 0 {
      XorAssociates(x / 2, y / 2, z / 2);
      var l, r := Xor(Xor(x, y), z), Xor(x, Xor(y, z));
      assert l / 2 == r / 2 by {
        XorDigit(x, y);
        XorDigit(y, z);
        XorDigit(Xor(x, y), z);
        XorDigit(x, Xor(y, z));
      }
      assert l % 2 == (x + y + z) % 2 by { XorParity(x, y, z); }
      assert r % 2 == (x + y + z) % 2 by { XorParity(y, z, x); XorCommutes(x, Xor(y, z)); }
    }
  }

  lemma XorParity(x: nat, y: nat, z: nat)
    ensures Xor(Xor(x, y), z) % 2 == (x + y + z) % 2
  {
    XorDigit(x, y);
    XorDigit(Xor(x, y), z);
    SumParity(Xor(x, y), x + y, z);
  }

  lemma SumParity(u: nat, v: nat, z: nat)
    requires u % 2 == v % 2
    ensures (u + z) % 2 == (v + z) % 2
  {
  }

  lemma {:induction false} XorBelowPow2(x: nat, y: nat, k: nat)
    requires x < Pow2(k) && y < Pow2(k)
    ensures Xor(x, y) < Pow2(k)
  {
    if k > 0 {
      XorBelowPow2(x / 2, y / 2, k - 1);
      XorDigit(x, y);
    }
  }

  lemma XorByte(x: Byte, y: Byte)
    ensures Xor(x, y) < 256
  {
    assert Pow2(8) == 256;
    XorBelowPow2(x, y, 8);
  }

  /** x and y can be recovered from each other through t. */
  lemma XorCancels(x: nat, t: nat)
    ensures Xor(Xor(x, t), t) == x
  {
    XorAssociates(x, t, t);
    XorSelf(t);
  }

  // ----- bit length

  lemma {:induction false} BitLenBounds(n: nat)
    ensures n < Pow2(BitLen(n))
    ensures n > 0 ==> Pow2(BitLen(n) - 1) <= n
  {
    if n > 1 { BitLenBounds(n / 2); } else { assert Pow2(0) == 1 && Pow2(1) == 2; }
  }

  lemma {:induction false} BitLenAtMost(n: nat, k: nat)
    ensures BitLen(n) <= k <==> n < Pow2(k)
  {
    if n > 0 && k > 0 { BitLenAtMost(n / 2, k - 1); }
  }

  lemma BitLenXor(x: nat, y: nat)
    ensures BitLen(Xor(x, y)) <= if BitLen(x) > BitLen(y) then BitLen(x) else BitLen(y)
  {
    var k := if BitLen(x) > BitLen(y) then BitLen(x) else BitLen(y);
    BitLenAtMost(x, k);
    BitLenAtMost(y, k);
    XorBelowPow2(x, y, k);
    BitLenAtMost(Xor(x, y), k);
  }

  // ----- big-endian byte strings

  function Pow256(n: nat): (p: nat)
    ensures p > 0
  {
    if n == 0 then 1 else 256 * Pow256(n - 1)
  }

  /** The unsigned big-endian integer written by the bytes. */
  function Value(s: Bytes): nat {
    if s == [] then 0 else s[0] * Pow256(|s| - 1) + Value(s[1..])
  }

  lemma ScaleDigit(x: nat, y: nat, p: nat)
    requires x <= y
    ensures x * p <= y * p
  {
  }

  lemma {:induction false} ValueBound(s: Bytes)
    ensures Value(s) < Pow256(|s|)
  {
    if s != [] {
      ValueBound(s[1..]);
      ScaleDigit(s[0], 255, Pow256(|s| - 1));
    }
  }

  /** The first differing byte decides the comparison of the values. */
  lemma {:induction false} FirstByteDecides(s: Bytes, t: Bytes, i: nat)
    requires |s| == |t| && i < |s|
    requires s[..i] == t[..i] && s[i] < t[i]
    ensures Value(s) < Value(t)
    decreases i
  {
    if i == 0 {
      ValueBound(s[1..]);
      var x, y: nat, p := s[0], t[0], Pow256(|s| - 1);
      ScaleDigit(x + 1, y, p);
      assert (x + 1) * p == x * p + p;
    } else {
      TailPrefix(s, t, i);
      FirstByteDecides(s[1..], t[1..], i - 1);
    }
  }

  lemma TailPrefix(s: Bytes, t: Bytes, i: nat)
    requires |s| == |t| && 0 < i <= |s| && s[..i] == t[..i]
    ensures s[0] == t[0] && s[1..][..i - 1] == t[1..][..i - 1]
  {
    assert s[0] == s[..i][0];
    assert t[0] == t[..i][0];
    assert s[1..][..i - 1] == s[..i][1..];
    assert t[1..][..i - 1] == t[..i][1..];
  }

  lemma ValueInjective(s: Bytes, t: Bytes)
    requires |s| == |t| && Value(s) == Value(t)
    ensures s == t
  {
    if s != t {
      var i := FirstDifference(s, t);
      if s[i] < t[i] { FirstByteDecides(s, t, i); } else { FirstByteDecides(t, s, i); }
    }
  }

  lemma FirstDifference(s: Bytes, t: Bytes) returns (i: nat)
    requires |s| == |t| && s != t
    ensures i < |s| && s[i] != t[i] && s[..i] == t[..i]
  {
    i := 0;
    while i < |s| && s[i] == t[i]
      invariant i <= |s| && s[..i] == t[..i]
    {
      i := i + 1;
    }
    assert s[..|s|] == s && t[..|t|] == t;
  }

  lemma {:induction false} DigitwiseSum(x: Bytes, y: Bytes, z: Bytes)
    requires |x| == |y| == |z|
    requires forall i :: 0 <= i < |x| ==> z[i] as int <= x[i] as int + y[i] as int
    ensures Value(z) <= Value(x) + Value(y)
  {
    if x != [] {
      DigitwiseSum(x[1..], y[1..], z[1..]);
      var p, u: nat, v: nat := Pow256(|x| - 1), x[0], y[0];
      ScaleDigit(z[0], u + v, p);
      assert (u + v) * p == u * p + v * p;
    }
  }

  lemma {:induction false} LeadingZero(s: Bytes)
    requires s != [] && s[0] == 0
    ensures Value(s) == Value(s[1..])
  {
  }

  /** Two numbers with the same last digit and the same other digits are equal. */
  lemma SameDigits(x: nat, y: nat)
    requires x / 2 == y / 2 && x % 2 == y % 2
    ensures x == y
  {
  }

  /** 256^n is 2^(8n). */
  lemma {:induction false} Pow256IsPow2(n: nat)
    ensures Pow256(n) == Pow2(8 * n)
  {
    if n > 0 {
      Pow256IsPow2(n - 1);
      var k := 8 * (n - 1);
      assert Pow2(k + 2) == 2 * Pow2(k + 1) == 4 * Pow2(k);
      assert Pow2(k + 4) == 2 * Pow2(k + 3) == 4 * Pow2(k + 2);
      assert Pow2(k + 6) == 2 * Pow2(k + 5) == 4 * Pow2(k + 4);
      assert Pow2(k + 8) == 2 * Pow2(k + 7) == 4 * Pow2(k + 6);
    }
  }

  // ----- writing numbers

  /** Big-endian encoding in n bytes. */
  function PutBytes(v: nat, n: nat): (s: Bytes)
    ensures |s| == n
  {
    if n == 0 then [] else PutBytes(v / 256, n - 1) + [v % 256]
  }

  lemma {:induction false} ValueSnoc(s: Bytes, x: Byte)
    ensures Value(s + [x]) == 256 * Value(s) + x
  {
    if s == [] {
      assert s + [x] == [x];
      assert Pow256(0) == 1 && [x][1..] == [];
    } else {
      assert (s + [x])[1..] == s[1..] + [x];
      ValueSnoc(s[1..], x);
      assert Pow256(|s|) == 256 * Pow256(|s| - 1);
      var d: nat := s[0];
      assert d * (256 * Pow256(|s| - 1)) == 256 * (d * Pow256(|s| - 1));
    }
  }

  /** Writing a number and reading it back. */
  lemma {:induction false} PutBytesValue(v: nat, n: nat)
    requires v < Pow256(n)
    ensures Value(PutBytes(v, n)) == v
  {
    if n > 0 {
      PutBytesValue(v / 256, n - 1);
      ValueSnoc(PutBytes(v / 256, n - 1), v % 256);
    }
  }
}
