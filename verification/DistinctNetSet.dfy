/** Address prefixes (netutil/net.go): `SameNet`, the map key of `DistinctNetSet`, and the set itself as
    a multiset of subnets that holds each at most Limit times. */
module DistinctNetSet {
  import opened Words
  import opened Addresses

  /** Go's net.IP: empty, 4 or 16 bytes in practice. */
  type IP = b: Bytes | |b| <= 16

  // ----- bits and masks

  /** Bitwise and. */
  function And(x: nat, y: nat): nat
    decreases x
  {
    if x == 0 || y == 0 then 0 else 2 * And(x / 2, y / 2) + if x % 2 == 1 && y % 2 == 1 then 1 else 0
  }

  function Shr(x: nat, n: nat): nat
    decreases n
  {
    if n == 0 then x else Shr(x / 2, n - 1)
  }

  function Shl(x: nat, n: nat): nat {
    if n == 0 then x else 2 * Shl(x, n - 1)
  }

  lemma {:induction false} ShrBound(x: nat, n: nat, k: nat)
    requires x < Pow2(n + k)
    ensures Shr(x, n) < Pow2(k)
    decreases n
  {
    if n > 0 { ShrBound(x / 2, n - 1, k); }
  }

  lemma {:induction false} ShrAtMost(x: nat, n: nat)
    ensures Shr(x, n) <= x
    decreases n
  {
    if n > 0 { ShrAtMost(x / 2, n - 1); }
  }

  lemma {:induction false} ShrHalf(x: nat, n: nat)
    ensures Shr(x, n) / 2 == Shr(x, n + 1)
    decreases n
  {
    if n > 0 { ShrHalf(x / 2, n - 1); }
  }

  lemma {:induction false} ShlInjective(x: nat, y: nat, n: nat)
    ensures Shl(x, n) == Shl(y, n) <==> x == y
  {
    if n > 0 { ShlInjective(x, y, n - 1); }
  }

  /** Anding with a mask that ends in n zeros. */
  lemma {:induction false} AndShl(x: nat, m: nat, n: nat)
    ensures And(x, Shl(m, n)) == Shl(And(Shr(x, n), m), n)
    decreases n
  {
    if n > 0 {
      AndShl(x / 2, m, n - 1);
      AndEven(x, Shl(m, n - 1));
    }
  }

  lemma AndEven(x: nat, y: nat)
    ensures And(x, 2 * y) == 2 * And(x / 2, y)
  {
    assert 2 * y / 2 == y && 2 * y % 2 == 0;
  }

  /** Anding with k ones keeps a k-digit number. */
  lemma {:induction false} AndOnes(x: nat, k: nat)
    requires x < Pow2(k)
    ensures And(x, Pow2(k) - 1) == x
  {
    if k > 0 && x > 0 {
      AndOnes(x / 2, k - 1);
      assert (Pow2(k) - 1) / 2 == Pow2(k - 1) - 1 && (Pow2(k) - 1) % 2 == 1;
    }
  }

  /** ^byte(0xFF >> k) */
  function Mask(k: nat): Byte {
    ShrAtMost(255, k);
    255 - Shr(255, k)
  }

  /** Bit i of a byte, most significant first. */
  function ByteBit(x: Byte, i: nat): nat
    requires i < 8
  {
    Shr(x, 7 - i) % 2
  }

  function Bit(s: Bytes, i: nat): nat
    requires i < 8 * |s|
  {
    ByteBit(s[i / 8], i % 8)
  }

  /** The mask for k bits is k ones and then zeros. */
  lemma MaskIsOnes(k: nat)
    requires k < 8
    ensures Mask(k) as nat == Shl(Pow2(k) - 1, 8 - k)
    ensures Mask(k) != 0 <==> k > 0
  {
    ShiftedOnes();
    ShiftedBlocks();
    assert k == 0 || k == 1 || k == 2 || k == 3 || k == 4 || k == 5 || k == 6 || k == 7;
  }

  lemma ShiftedOnes()
    ensures Shr(255, 0) == 255 && Shr(255, 1) == 127 && Shr(255, 2) == 63 && Shr(255, 3) == 31
    ensures Shr(255, 4) == 15 && Shr(255, 5) == 7 && Shr(255, 6) == 3 && Shr(255, 7) == 1
  {
  }

  lemma ShiftedBlocks()
    ensures Shl(Pow2(0) - 1, 8) == 0 && Shl(Pow2(1) - 1, 7) == 128 && Shl(Pow2(2) - 1, 6) == 192
    ensures Shl(Pow2(3) - 1, 5) == 224 && Shl(Pow2(4) - 1, 4) == 240 && Shl(Pow2(5) - 1, 3) == 248
    ensures Shl(Pow2(6) - 1, 2) == 252 && Shl(Pow2(7) - 1, 1) == 254
  {
  }

  /** Masking compares exactly the top k bits of a byte. */
  lemma MaskedEqual(x: Byte, y: Byte, k: nat)
    requires k < 8
    ensures And(x, Mask(k)) == And(y, Mask(k)) <==> Shr(x, 8 - k) == Shr(y, 8 - k)
  {
    MaskIsOnes(k);
    MaskKeepsTop(x, k);
    MaskKeepsTop(y, k);
    ShlInjective(Shr(x, 8 - k), Shr(y, 8 - k), 8 - k);
  }

  lemma MaskKeepsTop(x: Byte, k: nat)
    requires k < 8
    ensures And(x, Mask(k)) == Shl(Shr(x, 8 - k), 8 - k)
  {
    MaskIsOnes(k);
    AndShl(x, Pow2(k) - 1, 8 - k);
    assert Pow2(8) == 256;
    ShrBound(x, 8 - k, k);
    AndOnes(Shr(x, 8 - k), k);
  }

  /** Two bytes have the same top k bits, bit by bit. */
  ghost predicate SameTop(x: Byte, y: Byte, k: nat)
    requires k <= 8
  {
    forall i: nat :: i < k ==> ByteBit(x, i) == ByteBit(y, i)
  }

  lemma OneMoreBit(x: Byte, y: Byte, k: nat)
    requires 0 < k <= 8
    ensures SameTop(x, y, k) <==> SameTop(x, y, k - 1) && Shr(x, 8 - k) % 2 == Shr(y, 8 - k) % 2
  {
    assert ByteBit(x, k - 1) == Shr(x, 8 - k) % 2 && ByteBit(y, k - 1) == Shr(y, 8 - k) % 2;
  }

  lemma {:induction false} TopBits(x: Byte, y: Byte, k: nat)
    requires k <= 8
    ensures Shr(x, 8 - k) == Shr(y, 8 - k) <==> SameTop(x, y, k)
  {
    if k == 0 {
      assert Pow2(8) == 256;
      ShrBound(x, 8, 0);
      ShrBound(y, 8, 0);
    } else {
      TopBits(x, y, k - 1);
      ShrHalf(x, 8 - k);
      ShrHalf(y, 8 - k);
      SameDigitsIff(Shr(x, 8 - k), Shr(y, 8 - k));
      OneMoreBit(x, y, k);
    }
  }

  lemma SameDigitsIff(x: nat, y: nat)
    ensures x == y <==> x / 2 == y / 2 && x % 2 == y % 2
  {
  }

  // ----- SameNet

  /** sameNet, on two addresses of one length. */
  predicate SameNetBytes(bits: nat, ip: Bytes, other: Bytes)
    requires |ip| == |other|
  {
    var nb, mask := bits / 8, Mask(bits % 8);
    if mask != 0 && nb < |ip| && And(ip[nb], mask) != And(other[nb], mask) then false
    else nb <= |ip| && ip[..nb] == other[..nb]
  }

  predicate SameNet(bits: nat, ip: IP, other: IP)
    requires ValidIP(ip) && ValidIP(other)
  {
    match (To4(ip), To4(other))
    case (Some(a), Some(b)) => SameNetBytes(bits, a, b)
    case (None, None) => SameNetBytes(bits, ip, other)
    case _ => false
  }

  ghost predicate SameBits(bits: nat, a: Bytes, b: Bytes) {
    |a| == |b| && bits <= 8 * |a| && forall i: nat :: i < bits ==> Bit(a, i) == Bit(b, i)
  }

  /** The bits of whole bytes. */
  lemma WholeBytes(a: Bytes, b: Bytes, n: nat)
    requires |a| == |b| && n <= |a|
    ensures a[..n] == b[..n] <==> SameBits(8 * n, a, b)
  {
    if a[..n] == b[..n] {
      forall i: nat | i < 8 * n ensures Bit(a, i) == Bit(b, i) {
        assert a[i / 8] == a[..n][i / 8] && b[i / 8] == b[..n][i / 8];
      }
    }
    if SameBits(8 * n, a, b) {
      forall j | 0 <= j < n ensures a[j] == b[j] {
        ByteBits(a, b, j, 8);
      }
    }
  }

  ghost predicate SameRange(a: Bytes, b: Bytes, from: nat, to: nat)
    requires |a| == |b| && to <= 8 * |a|
  {
    forall i: nat :: from <= i < to ==> Bit(a, i) == Bit(b, i)
  }

  /** The top k bits of byte j. */
  lemma ByteBits(a: Bytes, b: Bytes, j: nat, k: nat)
    requires |a| == |b| && j < |a| && k <= 8
    ensures SameRange(a, b, 8 * j, 8 * j + k) <==> Shr(a[j], 8 - k) == Shr(b[j], 8 - k)
  {
    TopBits(a[j], b[j], k);
    if SameRange(a, b, 8 * j, 8 * j + k) {
      forall i: nat | i < k ensures ByteBit(a[j], i) == ByteBit(b[j], i) {
        assert Bit(a, 8 * j + i) == Bit(b, 8 * j + i);
      }
    }
    if SameTop(a[j], b[j], k) {
      forall i: nat | 8 * j <= i < 8 * j + k ensures Bit(a, i) == Bit(b, i) {
        assert i / 8 == j && i % 8 == i - 8 * j;
      }
    }
  }

  /** The whole-byte comparison and the masked byte together compare exactly the first bits. */
  lemma SameNetBytesIsSameBits(bits: nat, a: Bytes, b: Bytes)
    requires |a| == |b| && bits <= 8 * |a|
    ensures SameNetBytes(bits, a, b) <==> SameBits(bits, a, b)
  {
    var nb, k := bits / 8, bits % 8;
    WholeBytes(a, b, nb);
    MaskIsOnes(k);
    if k > 0 {
      MaskedEqual(a[nb], b[nb], k);
      ByteBits(a, b, nb, k);
    }
    SplitBits(a, b, nb, k);
  }

  lemma SplitBits(a: Bytes, b: Bytes, nb: nat, k: nat)
    requires |a| == |b| && 8 * nb + k <= 8 * |a|
    ensures SameBits(8 * nb + k, a, b)
            <==> SameBits(8 * nb, a, b) && SameRange(a, b, 8 * nb, 8 * nb + k)
  {
  }

  // ----- the key

  function Clamp(bits: nat, ip: Bytes): nat {
    if bits > 8 * |ip| then 8 * |ip| else bits
  }

  /** Family, whole prefix bytes, and the masked partial byte. */
  function KeyOf(subnet: nat, ip: IP): Bytes {
    var c := Canon(ip);
    var bits := Clamp(subnet, c);
    var nb, mask := bits / 8, Mask(bits % 8);
    [if To4(ip).Some? then '4' as int else '6' as int] + c[..nb]
    + if nb < |c| && mask != 0 then [AndMask(c[nb], mask)] else []
  }

  function AndMask(x: Byte, mask: Byte): Byte {
    AndBound(x, mask);
    And(x, mask)
  }

  lemma {:induction false} AndBound(x: nat, y: nat)
    ensures And(x, y) <= x
    decreases x
  {
    if x != 0 && y != 0 { AndBound(x / 2, y / 2); }
  }

  predicate SameFamily(a: IP, b: IP) {
    To4(a).Some? <==> To4(b).Some?
  }

  lemma KeyParts(subnet: nat, a: IP, b: IP)
    requires ValidIP(a) && ValidIP(b)
    ensures var bits := Clamp(subnet, Canon(a));
            KeyOf(subnet, a) == KeyOf(subnet, b) <==> SameFamily(a, b) && SameNetBytes(bits, Canon(a), Canon(b))
  {
    var ca, cb, ka, kb := Canon(a), Canon(b), KeyOf(subnet, a), KeyOf(subnet, b);
    if SameFamily(a, b) {
      var bits := Clamp(subnet, ca);
      var nb, mask := bits / 8, Mask(bits % 8);
      if ka == kb {
        assert ca[..nb] == ka[1..nb + 1] && cb[..nb] == kb[1..nb + 1];
        if nb < |ca| && mask != 0 { assert ka[nb + 1] == And(ca[nb], mask) && kb[nb + 1] == And(cb[nb], mask); }
      }
    } else {
      assert ka[0] != kb[0];
    }
  }

  /** For a prefix no longer than the address, equal keys, SameNet, and equal family and leading bits
      are the same thing. */
  lemma KeyIsExact(subnet: nat, a: IP, b: IP)
    requires ValidIP(a) && ValidIP(b) && subnet <= 8 * |Canon(a)|
    ensures KeyOf(subnet, a) == KeyOf(subnet, b) <==> SameNet(subnet, a, b)
    ensures SameNet(subnet, a, b) <==> SameFamily(a, b) && SameBits(subnet, Canon(a), Canon(b))
  {
    KeyParts(subnet, a, b);
    if SameFamily(a, b) { SameNetBytesIsSameBits(subnet, Canon(a), Canon(b)); }
  }

  /** For longer prefixes the two part ways: the key is cut off at the full address, while SameNet says
      no to everything once the prefix has a whole byte too many. */
  lemma KeyMeetsSameNet(subnet: nat, a: IP, b: IP)
    requires ValidIP(a) && ValidIP(b)
    ensures (KeyOf(subnet, a) == KeyOf(subnet, b) <==> SameNet(subnet, a, b))
            <==> subnet / 8 <= |Canon(a)| || Canon(a) != Canon(b)
  {
    var ca, cb := Canon(a), Canon(b);
    KeyParts(subnet, a, b);
    if subnet > 8 * |ca| && |ca| == |cb| {
      assert SameNetBytes(8 * |ca|, ca, cb) <==> ca == cb by {
        MaskIsOnes(0);
        assert ca[..|ca|] == ca && cb[..|ca|] == cb;
      }
      assert subnet / 8 == |ca| ==> (SameNetBytes(subnet, ca, cb) <==> ca == cb) by {
        assert ca[..|ca|] == ca && cb[..|ca|] == cb;
      }
    }
    if SameFamily(a, b) && To4(a).None? { NotMapped(a, b); }
  }

  /** The family can be read off the shortest form. */
  lemma NotMapped(a: IP, b: IP)
    requires ValidIP(a) && ValidIP(b) && SameFamily(a, b) && To4(a).None?
    ensures |Canon(a)| == |Canon(b)| == 16
  {
  }

  // ----- the set

  /** One more of this key, unless it is there limit times already. */
  ghost function AddOne(bag: multiset<Bytes>, limit: nat, key: Bytes): multiset<Bytes> {
    if bag[key] < limit then bag + multiset{key} else bag
  }

  class NetSet {
    const subnet: nat
    const limit: nat
    var members: map<Bytes, nat>
    const buf: array<Byte>
    ghost var bag: multiset<Bytes>

    /** members counts each tracked subnet; bag is the same as a multiset. */
    ghost predicate Valid()
      reads this
    {
      && buf.Length == 17
      && (forall k :: k in members <==> k in bag)
      && (forall k :: k in members ==> members[k] == bag[k])
      && (forall k :: bag[k] <= limit)
    }

    constructor (subnet: nat, limit: nat)
      ensures Valid() && bag == multiset{} && this.subnet == subnet && this.limit == limit && fresh(buf)
    {
      this.subnet, this.limit := subnet, limit;
      members, bag := map[], multiset{};
      buf := new Byte[17];
    }

    /** Encode the prefix into buf. */
    method Key(ip: IP) returns (key: Bytes)
      requires Valid()
      modifies buf
      ensures key == KeyOf(subnet, ip)
    {
      var typ: Byte, c: Bytes := '6' as int, ip;
      var ip4 := To4(ip);
      if ip4.Some? {
        typ, c := '4' as int, ip4.value;
      }
      var bits := subnet;
      if bits > |c| * 8 {
        bits := |c| * 8;
      }
      var nb, mask := bits / 8, Mask(bits % 8);
      Fill(typ, c[..nb]);
      if nb < |c| && mask != 0 {
        buf[nb + 1] := AndMask(c[nb], mask);
        return buf[..nb + 2];
      }
      return buf[..nb + 1];
    }

    /** append(s.buf[:1], prefix...) */
    method Fill(typ: Byte, prefix: Bytes)
      requires |prefix| < buf.Length
      modifies buf
      ensures buf[..|prefix| + 1] == [typ] + prefix
    {
      buf[0] := typ;
      for i := 0 to |prefix|
        invariant buf[..i + 1] == [typ] + prefix[..i]
      {
        buf[i + 1] := prefix[i];
      }
    }

    /** false, and nothing added, if the subnet already holds its limit. */
    method Add(ip: IP) returns (ok: bool)
      requires Valid()
      modifies this, buf
      ensures Valid()
      ensures ok <==> old(bag)[KeyOf(subnet, ip)] < limit
      ensures bag == AddOne(old(bag), limit, KeyOf(subnet, ip))
    {
      var key := Key(ip);
      var n := if key in members then members[key] else 0;
      if n < limit {
        members := members[key := n + 1];
        bag := bag + multiset{key};
        return true;
      }
      return false;
    }

    method Remove(ip: IP)
      requires Valid()
      modifies this, buf
      ensures Valid()
      ensures bag == old(bag) - multiset{KeyOf(subnet, ip)}
    {
      var key := Key(ip);
      if key in members {
        var n := members[key];
        if n == 1 {
          members := members - {key};
        } else {
          members := members[key := n - 1];
        }
      }
      bag := bag - multiset{key};
    }

    method Contains(ip: IP) returns (ok: bool)
      requires Valid()
      modifies buf
      ensures Valid() && ok <==> KeyOf(subnet, ip) in bag
    {
      var key := Key(ip);
      return key in members;
    }

    /** The sum of the counts, taken in any order. */
    method Len() returns (n: nat)
      requires Valid()
      ensures n == |bag|
    {
      n := 0;
      var todo := members.Keys;
      ghost var summed: multiset<Bytes> := multiset{};
      while todo != {}
        invariant todo <= members.Keys && n == |summed|
        invariant forall k :: summed[k] == if k in todo then 0 else bag[k]
        decreases todo
      {
        var k :| k in todo;
        n := n + members[k];
        summed := WithCount(summed, k, members[k]);
        todo := todo - {k};
      }
      assert summed == bag;
    }
  }

  /** A multiset with c more copies of x, which it did not contain. */
  ghost function WithCount(m: multiset<Bytes>, x: Bytes, c: nat): (r: multiset<Bytes>)
    requires x !in m
    ensures |r| == |m| + c
    ensures forall y :: r[y] == if y == x then c else m[y]
  {
    if c == 0 then m else WithCount(m, x, c - 1) + multiset{x}
  }

  // ----- many operations

  ghost function AddAll(bag: multiset<Bytes>, limit: nat, keys: seq<Bytes>): multiset<Bytes> {
    if keys == [] then bag else AddOne(AddAll(bag, limit, keys[..|keys| - 1]), limit, keys[|keys| - 1])
  }

  ghost function RemoveAll(bag: multiset<Bytes>, keys: seq<Bytes>): multiset<Bytes> {
    if keys == [] then bag else RemoveAll(bag, keys[..|keys| - 1]) - multiset{keys[|keys| - 1]}
  }

  function Min(a: nat, b: nat): nat {
    if a < b then a else b
  }

  /** Each subnet is counted up to the limit. */
  lemma {:induction false} AddAllCounts(limit: nat, keys: seq<Bytes>, k: Bytes)
    ensures AddAll(multiset{}, limit, keys)[k] == Min(limit, multiset(keys)[k])
  {
    if keys != [] {
      var init, last := keys[..|keys| - 1], keys[|keys| - 1];
      AddAllCounts(limit, init, k);
      CountSnoc(init, last, k);
      assert keys == init + [last];
    }
  }

  lemma {:induction false} RemoveAllCounts(bag: multiset<Bytes>, keys: seq<Bytes>, k: Bytes)
    ensures RemoveAll(bag, keys)[k] == if bag[k] < multiset(keys)[k] then 0 else bag[k] - multiset(keys)[k]
  {
    if keys != [] {
      var init, last := keys[..|keys| - 1], keys[|keys| - 1];
      RemoveAllCounts(bag, init, k);
      CountSnoc(init, last, k);
      OneLess(RemoveAll(bag, init), last, k);
      assert keys == init + [last];
    }
  }

  lemma OneLess(m: multiset<Bytes>, x: Bytes, k: Bytes)
    ensures (m - multiset{x})[k] == if k == x && m[k] > 0 then m[k] - 1 else m[k]
  {
  }

  /** Adding a list and removing it again, in any order, leaves the set empty, even if some of the
      additions were refused. */
  lemma AddThenRemoveAll(limit: nat, keys: seq<Bytes>, permuted: seq<Bytes>)
    requires multiset(permuted) == multiset(keys)
    ensures RemoveAll(AddAll(multiset{}, limit, keys), permuted) == multiset{}
  {
    var m := AddAll(multiset{}, limit, keys);
    forall k ensures RemoveAll(m, permuted)[k] == 0 {
      AddAllCounts(limit, keys, k);
      RemoveAllCounts(m, permuted, k);
    }
  }

  function Keys(subnet: nat, ips: seq<IP>): seq<Bytes> {
    if ips == [] then [] else Keys(subnet, ips[..|ips| - 1]) + [KeyOf(subnet, ips[|ips| - 1])]
  }

  /** How many addresses share the first bits with ip. */
  function SameNetCount(subnet: nat, ips: seq<IP>, ip: IP): nat
    requires ValidIP(ip) && forall i :: 0 <= i < |ips| ==> ValidIP(ips[i])
  {
    if ips == [] then 0
    else SameNetCount(subnet, ips[..|ips| - 1], ip) + if SameNet(subnet, ip, ips[|ips| - 1]) then 1 else 0
  }

  /** The subnet of an address is counted as often as addresses of the same network were added, up to
      the limit. */
  lemma CountsSameNet(subnet: nat, limit: nat, ips: seq<IP>, ip: IP)
    requires ValidIP(ip) && (forall i :: 0 <= i < |ips| ==> ValidIP(ips[i])) && subnet <= 8 * |Canon(ip)|
    ensures AddAll(multiset{}, limit, Keys(subnet, ips))[KeyOf(subnet, ip)] == Min(limit, SameNetCount(subnet, ips, ip))
  {
    AddAllCounts(limit, Keys(subnet, ips), KeyOf(subnet, ip));
    SameNetIsSameKey(subnet, ips, ip);
  }

  lemma {:induction false} SameNetIsSameKey(subnet: nat, ips: seq<IP>, ip: IP)
    requires ValidIP(ip) && (forall i :: 0 <= i < |ips| ==> ValidIP(ips[i])) && subnet <= 8 * |Canon(ip)|
    ensures multiset(Keys(subnet, ips))[KeyOf(subnet, ip)] == SameNetCount(subnet, ips, ip)
  {
    if ips != [] {
      var n := |ips| - 1;
      SameNetIsSameKey(subnet, ips[..n], ip);
      KeyIsExact(subnet, ip, ips[n]);
      CountSnoc(Keys(subnet, ips[..n]), KeyOf(subnet, ips[n]), KeyOf(subnet, ip));
    }
  }

  lemma CountSnoc(keys: seq<Bytes>, key: Bytes, k: Bytes)
    ensures multiset(keys + [key])[k] == multiset(keys)[k] + if key == k then 1 else 0
  {
  }
}
