/** Recursive Length Prefix encoding (Ethereum Yellow Paper, Appendix B) of a neighbours packet, and how
    long it can get. */
module Rlp {
  import opened Slices
  import opened Words
  import opened Protocol

  /** The shortest big-endian form of a number; zero is the empty string. */
  function BigEndian(n: nat): (s: Bytes)
    ensures Value(s) == n
  {
    if n == 0 then []
    else
      ValueSnoc(BigEndian(n / 256), n % 256);
      BigEndian(n / 256) + [n % 256]
  }

  lemma {:induction false} BigEndianSize(n: nat, k: nat)
    ensures |BigEndian(n)| <= k <==> n < Pow256(k)
  {
    if n > 0 && k > 0 { BigEndianSize(n / 256, k - 1); }
  }

  lemma Powers()
    ensures Pow256(1) == 256 && Pow256(2) == 0x1_0000 && Pow256(8) == 0x1_0000_0000_0000_0000
  {
    assert Pow256(4) == 0x1_0000_0000;
    assert Pow256(8) == 0x1_0000_0000 * Pow256(4);
  }

  /** The size of the length prefix for a payload of this length. */
  function HeaderSize(len: nat): (n: nat)
    ensures len < 56 ==> n == 1
    ensures 56 <= len < 256 ==> n == 2
    ensures 256 <= len < 0x1_0000 ==> n == 3
  {
    Powers();
    BigEndianSize(len, 2);
    BigEndianSize(len, 1);
    BigEndianSize(len, 0);
    if len < 56 then 1 else 1 + |BigEndian(len)|
  }

  lemma {:induction false} BigEndianMonotone(m: nat, n: nat)
    requires m <= n
    ensures |BigEndian(m)| <= |BigEndian(n)|
  {
    if m > 0 { BigEndianMonotone(m / 256, n / 256); }
  }

  /** The length prefix of a string (base 128) or a list (base 192); the format ends at 2^64 bytes. */
  function Header(base: nat, len: nat): (h: Bytes)
    requires (base == 128 || base == 192) && len < Pow256(8)
    ensures |h| == HeaderSize(len)
  {
    Powers();
    BigEndianSize(len, 8);
    if len < 56 then [base + len] else [base + 55 + |BigEndian(len)|] + BigEndian(len)
  }

  function String(s: Bytes): Bytes
    requires |s| < Pow256(8)
  {
    if |s| == 1 && s[0] < 128 then s else Header(128, |s|) + s
  }

  function List(payload: Bytes): Bytes
    requires |payload| < Pow256(8)
  {
    Header(192, |payload|) + payload
  }

  /** A number of at most eight bytes. */
  function Number(n: nat): (r: Bytes)
    requires n < Pow256(8)
    ensures |r| <= 9
  {
    BigEndianSize(n, 8);
    Powers();
    String(BigEndian(n))
  }

  // ----- neighbours

  const ID_SIZE := 64

  /** What the field types of rpcNode allow, for an IPv4 or IPv6 address. */
  predicate WellSized(rn: RpcNode) {
    |rn.ep.ip| <= 16 && rn.ep.udp < 0x1_0000 && rn.ep.tcp < 0x1_0000
  }

  function NodePayload(rn: RpcNode): (r: Bytes)
    requires WellSized(rn)
    ensures |r| <= 89
  {
    Powers();
    PortSize(rn.ep.udp);
    PortSize(rn.ep.tcp);
    String(rn.ep.ip) + Number(rn.ep.udp) + Number(rn.ep.tcp) + String(PutBytes(rn.id, ID_SIZE))
  }

  lemma PortSize(port: nat)
    requires port < 0x1_0000
    ensures port < Pow256(8) && |Number(port)| <= 3
    ensures port >= 256 ==> |Number(port)| == 3
  {
    Powers();
    BigEndianSize(port, 2);
    BigEndianSize(port, 1);
  }

  function EncodeNode(rn: RpcNode): (r: Bytes)
    requires WellSized(rn)
    ensures |r| <= 91
  {
    Powers();
    List(NodePayload(rn))
  }

  function EncodeNodes(nodes: seq<RpcNode>): (r: Bytes)
    requires forall i :: 0 <= i < |nodes| ==> WellSized(nodes[i])
    ensures |r| <= 91 * |nodes|
  {
    if nodes == [] then [] else EncodeNodes(nodes[..|nodes| - 1]) + EncodeNode(nodes[|nodes| - 1])
  }

  predicate AllWellSized(nodes: seq<RpcNode>) {
    forall i :: 0 <= i < |nodes| ==> WellSized(nodes[i])
  }

  /** A list of a list and one more item; nothing if that is too long for the format. */
  function Nested(inner: Bytes, item: Bytes): Option<Bytes> {
    if |inner| >= Pow256(8) then None
    else
      var payload := List(inner) + item;
      if |payload| >= Pow256(8) then None else Some(List(payload))
  }

  /** The slice of nodes and the expiration time. */
  function EncodeNeighbors(nodes: seq<RpcNode>, expiration: nat): Option<Bytes>
    requires AllWellSized(nodes) && expiration < Pow256(8)
  {
    Nested(EncodeNodes(nodes), Number(expiration))
  }

  // ----- the largest node

  const MAX_TIME := 0xFFFF_FFFF_FFFF_FFFF

  /** Sixteen address bytes, the largest ports. */
  predicate MaxSize(rn: RpcNode) {
    |rn.ep.ip| == 16 && rn.ep.udp == rn.ep.tcp == 0xFFFF
  }

  lemma MaxNodeSize(rn: RpcNode)
    requires MaxSize(rn)
    ensures |EncodeNode(rn)| == 91
  {
    Powers();
    PortSize(0xFFFF);
    assert |String(rn.ep.ip)| == 17;
    assert |String(PutBytes(rn.id, ID_SIZE))| == 66;
  }

  lemma {:induction false} MaxNodesSize(nodes: seq<RpcNode>)
    requires forall i :: 0 <= i < |nodes| ==> MaxSize(nodes[i])
    ensures AllWellSized(nodes)
    ensures |EncodeNodes(nodes)| == 91 * |nodes|
  {
    assert forall i :: 0 <= i < |nodes| ==> MaxSize(nodes[i]) ==> WellSized(nodes[i]);
    if nodes != [] {
      MaxNodesSize(nodes[..|nodes| - 1]);
      MaxNodeSize(nodes[|nodes| - 1]);
    }
  }

  /** List header included. */
  function ListSize(payload: nat): nat {
    payload + HeaderSize(payload)
  }

  lemma ListSizeMonotone(m: nat, n: nat)
    requires m <= n
    ensures ListSize(m) <= ListSize(n)
  {
    BigEndianMonotone(m, n);
    BigEndianSize(n, 0);
  }

  /** The size of a packet body with n nodes of the largest size and the latest time. */
  function MaxBodySize(n: nat): nat {
    ListSize(ListSize(91 * n) + 9)
  }

  lemma MaxBodySizeMonotone(m: nat, n: nat)
    requires m <= n
    ensures MaxBodySize(m) <= MaxBodySize(n)
  {
    ListSizeMonotone(91 * m, 91 * n);
    ListSizeMonotone(ListSize(91 * m) + 9, ListSize(91 * n) + 9);
  }

  lemma LatestTime()
    ensures MAX_TIME < Pow256(8) && |Number(MAX_TIME)| == 9
  {
    Powers();
    assert Pow256(7) == 0x100_0000_0000_0000 by { assert Pow256(3) == 0x100_0000; assert Pow256(7) == 0x1_0000_0000 * Pow256(3); }
    BigEndianSize(MAX_TIME, 8);
    BigEndianSize(MAX_TIME, 7);
  }

  /** The size of a nested list, or why there is none. */
  lemma NestedSize(inner: Bytes, item: Bytes)
    ensures var r, size := Nested(inner, item), ListSize(ListSize(|inner|) + |item|);
            if r.Some? then |r.value| == size else size >= Pow256(8)
  {
  }

  lemma SizesMonotone(inner: nat, number: nat, n: nat)
    requires inner <= 91 * n && number <= 9
    ensures ListSize(ListSize(inner) + number) <= MaxBodySize(n)
  {
    ListSizeMonotone(inner, 91 * n);
    ListSizeMonotone(ListSize(inner) + number, ListSize(91 * n) + 9);
  }

  lemma NestedAtMost(inner: Bytes, item: Bytes, n: nat)
    requires |inner| <= 91 * n && |item| <= 9
    ensures var r, max := Nested(inner, item), MaxBodySize(n);
            && (if r.Some? then |r.value| <= max else max >= Pow256(8))
            && (|inner| == 91 * n && |item| == 9 && r.Some? ==> |r.value| == max)
  {
    NestedSize(inner, item);
    SizesMonotone(|inner|, |item|, n);
  }

  predicate AllMaxSize(nodes: seq<RpcNode>) {
    forall i :: 0 <= i < |nodes| ==> MaxSize(nodes[i])
  }

  /** No body with n nodes is longer than MaxBodySize(n), and one with n largest nodes is as long. */
  lemma NeighborsSize(nodes: seq<RpcNode>, expiration: nat)
    requires AllWellSized(nodes) && expiration < Pow256(8)
    ensures var r, max := EncodeNeighbors(nodes, expiration), MaxBodySize(|nodes|);
            && (if r.Some? then |r.value| <= max else max >= Pow256(8))
            && (AllMaxSize(nodes) && expiration == MAX_TIME && r.Some? ==> |r.value| == max)
  {
    if AllMaxSize(nodes) && expiration == MAX_TIME {
      MaxNodesSize(nodes);
      LatestTime();
    }
    NestedAtMost(EncodeNodes(nodes), Number(expiration), |nodes|);
  }
}
