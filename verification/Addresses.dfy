/** IP addresses as Go's net package sees them: 4 or 16 bytes, with IPv4 also written inside IPv6. */
module Addresses {
  import opened Slices
  import opened Words

  predicate ValidIP(ip: Bytes) {
    |ip| == 4 || |ip| == 16
  }

  predicate Mapped(ip: Bytes) {
    && |ip| == 16
    && (forall i :: 0 <= i < 10 ==> ip[i] == 0)
    && ip[10] == ip[11] == 255
  }

  /** To4: an IPv4 address, also when it is written as a mapped IPv6 address. */
  function To4(ip: Bytes): (r: Option<Bytes>)
    ensures r.Some? ==> |r.value| == 4
  {
    if |ip| == 4 then Some(ip) else if Mapped(ip) then Some(ip[12..16]) else None
  }

  /** The address in its shortest form. */
  function Canon(ip: Bytes): (r: Bytes)
    ensures |r| <= |ip|
  {
    match To4(ip) case Some(ip4) => ip4 case None => ip
  }

  /** IP.Equal: an IPv4 address equals its mapped form. */
  predicate SameIP(a: Bytes, b: Bytes) {
    || a == b
    || (|a| == 4 && Mapped(b) && a == b[12..16])
    || (|b| == 4 && Mapped(a) && b == a[12..16])
  }

  /** Two addresses are equal exactly when their shortest forms are. */
  lemma SameIPIsCanon(a: Bytes, b: Bytes)
    ensures SameIP(a, b) <==> Canon(a) == Canon(b)
  {
    if Mapped(a) && Mapped(b) && a[12..16] == b[12..16] {
      assert a == a[..10] + [a[10], a[11]] + a[12..16] && b == b[..10] + [b[10], b[11]] + b[12..16];
      assert a[..10] == b[..10];
    }
  }
}
