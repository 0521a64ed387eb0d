/** Packet framing and neighbour chunking of discovery/udp.go.  A packet is a version prefix, a
    signature, a type byte and an RLP body; its hash covers everything after the prefix.

    Hashing, signing, key recovery and the RLP of other packet bodies are the functions of a `Codec`. */
module Packets {
  import opened Slices
  import opened Words
  import opened NodesByDistance
  import opened Protocol
  import opened Rlp

  const SIG_SIZE := 65
  const HEAD_SIZE := 85
  const MAX_PACKET := 1280

  /** "nokodemion discovery" */
  const VERSION_PREFIX: Bytes := [110, 111, 107, 111, 100, 101, 109, 105, 111, 110, 32,
                                  100, 105, 115, 99, 111, 118, 101, 114, 121]

  datatype PacketError = TooSmall | BadPrefix | BadSignature | UnknownType | BadBody | EncodeFailed | SignFailed

  datatype Result<T> = Ok(value: T) | Err(error: PacketError)

  /** recover yields the public key behind a signature, one byte of format and the node ID. */
  datatype Codec<!Key> = Codec(
    keccak: Bytes -> Bytes,
    sign: (Key, Bytes) -> Option<Bytes>,
    recover: (Bytes, Bytes) -> Option<Bytes>,
    encode: Body -> Option<Bytes>,
    decode: (Byte, Bytes) -> Option<Body>)

  function TypeOf(b: Body): Byte {
    match b
    case Ping(_, _, _) => 1
    case Pong(_, _, _) => 2
    case Findnode(_, _) => 3
    case Neighbors(_, _) => 4
    case FindnodeHash(_, _) => 5
  }

  ghost predicate FixedSize<Key>(c: Codec<Key>, key: Key) {
    forall h, sig :: c.sign(key, h) == Some(sig) ==> |sig| == SIG_SIZE
  }

  /** Signatures are 65 bytes and recover to the signer's key; bodies decode to what was encoded. */
  ghost predicate Sound<Key>(c: Codec<Key>, key: Key, id: NodeID) {
    && FixedSize(c, key)
    && (forall h, sig :: c.sign(key, h) == Some(sig) ==>
          exists x: Byte :: c.recover(h, sig) == Some([x] + PutBytes(id, ID_SIZE)))
    && (forall b, data :: c.encode(b) == Some(data) ==> c.decode(TypeOf(b), data) == Some(b))
  }

  ghost predicate CollisionFree<Key>(c: Codec<Key>) {
    forall x, y :: c.keccak(x) == c.keccak(y) ==> x == y
  }

  /** The ID behind a signature; keys of the wrong size are refused. */
  function RecoverNodeID<Key>(c: Codec<Key>, hash: Bytes, sig: Bytes): Option<NodeID> {
    match c.recover(hash, sig)
    case None => None
    case Some(pubkey) =>
      if |pubkey| - 1 != ID_SIZE then None
      else
        IdRange(pubkey[1..]);
        Some(Value(pubkey[1..]))
  }

  lemma IdRange(s: Bytes)
    requires |s| == ID_SIZE
    ensures Value(s) < ID_SPACE && Pow256(ID_SIZE) == ID_SPACE
  {
    ValueBound(s);
    IdSpace();
  }

  lemma IdSpace()
    ensures Pow256(ID_SIZE) == ID_SPACE
  {
    Pow32();
    PowDouble(32);
  }

  lemma Pow16()
    ensures Pow256(16) == 0x1_00000000_00000000_00000000_00000000
  {
    Powers();
    PowDouble(8);
  }

  lemma Pow32()
    ensures Pow256(32) == 0x1_00000000_00000000_00000000_00000000_00000000_00000000_00000000_00000000
  {
    Pow16();
    PowDouble(16);
  }

  lemma PowDouble(n: nat)
    ensures Pow256(2 * n) == Pow256(n) * Pow256(n)
  {
    PowAdds(n, n);
  }

  lemma {:induction false} PowAdds(a: nat, b: nat)
    ensures Pow256(a + b) == Pow256(a) * Pow256(b)
  {
    if a > 0 {
      PowAdds(a - 1, b);
      assert Pow256(a) * Pow256(b) == 256 * (Pow256(a - 1) * Pow256(b));
    }
  }

  // ----- the frame

  /** Everything after the prefix. */
  function Signed(sig: Bytes, sigdata: Bytes): Bytes {
    sig + sigdata
  }

  /** encodePacket reserves head space, appends type and body, signs them, and then fills the head in. */
  method EncodePacket<Key>(c: Codec<Key>, key: Key, body: Body) returns (r: Result<(Bytes, Bytes)>)
    requires FixedSize(c, key)
    ensures r == Encoded(c, key, body)
  {
    var rlp := c.encode(body);
    if rlp.None? {
      return Err(EncodeFailed);
    }
    var sigdata: Bytes := [TypeOf(body)] + rlp.value;
    var packet := new Byte[HEAD_SIZE + |sigdata|];
    ghost var blank := packet[..];
    CopyTo(packet, HEAD_SIZE, sigdata);
    AssembledFrame(blank, sigdata);
    var sig := c.sign(key, c.keccak(packet[HEAD_SIZE..]));
    if sig.None? {
      return Err(SignFailed);
    }
    CopyTo(packet, 0, VERSION_PREFIX);
    CopyTo(packet, |VERSION_PREFIX|, sig.value);
    FilledHead(blank, sig.value, sigdata);
    return Ok((packet[..], c.keccak(packet[|VERSION_PREFIX|..])));
  }

  /** copy(a[at:], src) */
  method CopyTo(a: array<Byte>, at: nat, src: Bytes)
    requires at <= a.Length
    modifies a
    ensures a[..] == CopyInto(old(a[..]), at, src)
  {
    var n := if |src| < a.Length - at then |src| else a.Length - at;
    for i := 0 to n
      invariant a[..at + i] == old(a[..at]) + src[..i] && a[at + i..] == old(a[at + i..])
    {
      a[at + i] := src[i];
      assert a[..at + i + 1] == a[..at + i] + [src[i]];
    }
    assert a[..] == a[..at + n] + a[at + n..];
  }

  lemma AssembledFrame(blank: Bytes, sigdata: Bytes)
    requires |blank| == HEAD_SIZE + |sigdata|
    ensures CopyInto(blank, HEAD_SIZE, sigdata)[HEAD_SIZE..] == sigdata
  {
  }

  /** Prefix and signature fill the head space exactly. */
  lemma FilledHead(blank: Bytes, sig: Bytes, sigdata: Bytes)
    requires |blank| == HEAD_SIZE + |sigdata| && |sig| == SIG_SIZE
    ensures var packet := CopyInto(CopyInto(CopyInto(blank, HEAD_SIZE, sigdata), 0, VERSION_PREFIX), |VERSION_PREFIX|, sig);
            packet == VERSION_PREFIX + Signed(sig, sigdata) && packet[|VERSION_PREFIX|..] == Signed(sig, sigdata)
  {
    var one := CopyInto(blank, HEAD_SIZE, sigdata);
    assert one == blank[..HEAD_SIZE] + sigdata;
    var two := CopyInto(one, 0, VERSION_PREFIX);
    assert two == VERSION_PREFIX + one[|VERSION_PREFIX|..];
    assert CopyInto(two, |VERSION_PREFIX|, sig) == VERSION_PREFIX + Signed(sig, sigdata);
    FrameParts(sig, sigdata);
  }

  /** The frame and its hash. */
  function Encoded<Key>(c: Codec<Key>, key: Key, body: Body): Result<(Bytes, Bytes)> {
    match c.encode(body)
    case None => Err(EncodeFailed)
    case Some(rlp) =>
      var sigdata: Bytes := [TypeOf(body)] + rlp;
      match c.sign(key, c.keccak(sigdata))
      case None => Err(SignFailed)
      case Some(sig) => Ok((VERSION_PREFIX + Signed(sig, sigdata), c.keccak(Signed(sig, sigdata))))
  }

  /** What decodePacket learns: sender, hash and body. */
  datatype Frame = Frame(remoteID: NodeID, hash: Bytes, body: Body)

  /** What a buffer is: a frame, or the first thing that is wrong with it. */
  function Decoded<Key>(c: Codec<Key>, buffer: Bytes): Result<Frame> {
    if |buffer| < HEAD_SIZE + 1 then Err(TooSmall)
    else
      var n := |VERSION_PREFIX|;
      var prefix, sig, sigdata := buffer[..n], buffer[n..HEAD_SIZE], buffer[HEAD_SIZE..];
      if prefix != VERSION_PREFIX then Err(BadPrefix)
      else
        match RecoverNodeID(c, c.keccak(sigdata), sig)
        case None => Err(BadSignature)
        case Some(id) =>
          if !(1 <= sigdata[0] <= 5) then Err(UnknownType)
          else
            match c.decode(sigdata[0], sigdata[1..])
            case None => Err(BadBody)
            case Some(body) => Ok(Frame(id, c.keccak(buffer[n..]), body))
  }

  /** decodePacket copies the buffer, since the read loop reuses it, and works on slices of the copy. */
  method DecodePacket<Key>(c: Codec<Key>, buffer: Bytes) returns (r: Result<Frame>)
    ensures r == Decoded(c, buffer)
  {
    if |buffer| < HEAD_SIZE + 1 {
      return Err(TooSmall);
    }
    var buf := new Byte[|buffer|];
    CopyTo(buf, 0, buffer);
    assert buf[..] == buffer;
    var n := |VERSION_PREFIX|;
    var prefix, sig, sigdata := buf[..n], buf[n..HEAD_SIZE], buf[HEAD_SIZE..];
    if prefix != VERSION_PREFIX {
      return Err(BadPrefix);
    }
    var fromID := RecoverNodeID(c, c.keccak(sigdata), sig);
    if fromID.None? {
      return Err(BadSignature);
    }
    var hash := c.keccak(buf[n..]);
    if !(1 <= sigdata[0] <= 5) {
      return Err(UnknownType);
    }
    var body := c.decode(sigdata[0], sigdata[1..]);
    if body.None? {
      return Err(BadBody);
    }
    return Ok(Frame(fromID.value, hash, body.value));
  }

  /** What one end encodes the other end decodes, with the same sender, the same body, and the very
      hash that the sender remembers as the token of its ping. */
  lemma RoundTrip<Key>(c: Codec<Key>, key: Key, id: NodeID, body: Body)
    requires Sound(c, key, id) && Encoded(c, key, body).Ok?
    ensures var (packet, hash) := Encoded(c, key, body).value;
            Decoded(c, packet) == Ok(Frame(id, hash, body))
  {
    var (packet, hash) := Encoded(c, key, body).value;
    var rlp := c.encode(body).value;
    var sigdata: Bytes := [TypeOf(body)] + rlp;
    var sig := c.sign(key, c.keccak(sigdata)).value;
    FrameParts(sig, sigdata);
    assert sigdata[1..] == rlp;
    SignerRecovered(c, key, id, c.keccak(sigdata), sig);
  }

  lemma FrameParts(sig: Bytes, sigdata: Bytes)
    requires |sig| == SIG_SIZE
    ensures var packet, n := VERSION_PREFIX + Signed(sig, sigdata), |VERSION_PREFIX|;
            && n == 20 && |packet| == HEAD_SIZE + |sigdata|
            && packet[..n] == VERSION_PREFIX && packet[n..] == Signed(sig, sigdata)
            && packet[n..HEAD_SIZE] == sig && packet[HEAD_SIZE..] == sigdata
  {
    var packet := VERSION_PREFIX + Signed(sig, sigdata);
    assert packet == VERSION_PREFIX + sig + sigdata;
  }

  lemma SignerRecovered<Key>(c: Codec<Key>, key: Key, id: NodeID, h: Bytes, sig: Bytes)
    requires Sound(c, key, id) && c.sign(key, h) == Some(sig)
    ensures RecoverNodeID(c, h, sig) == Some(id)
  {
    var x: Byte :| c.recover(h, sig) == Some([x] + PutBytes(id, ID_SIZE));
    var pubkey: Bytes := [x] + PutBytes(id, ID_SIZE);
    assert pubkey[1..] == PutBytes(id, ID_SIZE);
    IdSpace();
    PutBytesValue(id, ID_SIZE);
  }

  /** Exactly which buffers are accepted, and as what. */
  lemma AcceptedFrames<Key>(c: Codec<Key>, buffer: Bytes, f: Frame)
    ensures Decoded(c, buffer) == Ok(f)
            <==> exists sig: Bytes, t: Byte, data: Bytes ::
                   && |sig| == SIG_SIZE && 1 <= t <= 5
                   && buffer == VERSION_PREFIX + Signed(sig, [t] + data)
                   && RecoverNodeID(c, c.keccak([t] + data), sig) == Some(f.remoteID)
                   && c.decode(t, data) == Some(f.body)
                   && f.hash == c.keccak(Signed(sig, [t] + data))
  {
    if Decoded(c, buffer) == Ok(f) {
      var n := |VERSION_PREFIX|;
      var sig, sigdata := buffer[n..HEAD_SIZE], buffer[HEAD_SIZE..];
      assert [sigdata[0]] + sigdata[1..] == sigdata;
      assert buffer[n..] == Signed(sig, sigdata);
      assert buffer == VERSION_PREFIX + Signed(sig, [sigdata[0]] + sigdata[1..]);
    }
    forall sig: Bytes, t: Byte, data: Bytes |
      && |sig| == SIG_SIZE && 1 <= t <= 5
      && buffer == VERSION_PREFIX + Signed(sig, [t] + data)
      && RecoverNodeID(c, c.keccak([t] + data), sig) == Some(f.remoteID)
      && c.decode(t, data) == Some(f.body)
      && f.hash == c.keccak(Signed(sig, [t] + data))
      ensures Decoded(c, buffer) == Ok(f)
    {
      FrameParts(sig, [t] + data);
      assert ([t] + data)[1..] == data;
    }
  }

  /** Without hash collisions the hash of an accepted packet determines the packet, and so its sender
      and its body. */
  lemma HashDeterminesPacket<Key>(c: Codec<Key>, p: Bytes, q: Bytes)
    requires CollisionFree(c) && Decoded(c, p).Ok? && Decoded(c, q).Ok?
    requires Decoded(c, p).value.hash == Decoded(c, q).value.hash
    ensures p == q
  {
    var n := |VERSION_PREFIX|;
    assert p[n..] == q[n..];
    assert p == p[..n] + p[n..] && q == q[..n] + q[n..];
  }

  // ----- sending

  /** sendPacket hands the hash on even though it drops the error: an encoding failure becomes a nil
      hash.  So a ping hash is non-empty exactly when the ping could be encoded and signed. */
  method SendPacket<Key>(c: Codec<Key>, key: Key, body: Body) returns (hash: Option<Bytes>, sent: seq<Bytes>)
    requires FixedSize(c, key)
    ensures hash.Some? <==> Encoded(c, key, body).Ok?
    ensures hash.Some? ==> sent == [Encoded(c, key, body).value.0] && hash.value == Encoded(c, key, body).value.1
    ensures hash.None? ==> sent == []
  {
    var r := EncodePacket(c, key, body);
    match r
    case Ok((packet, h)) => return Some(h), [packet];
    case Err(_) => return None, [];
  }

  // ----- neighbours

  function Flatten<T>(ps: seq<seq<T>>): seq<T> {
    if ps == [] then [] else Flatten(ps[..|ps| - 1]) + ps[|ps| - 1]
  }

  lemma FlattenSnoc<T>(ps: seq<seq<T>>, p: seq<T>)
    ensures Flatten(ps + [p]) == Flatten(ps) + p
  {
    assert (ps + [p])[..|ps|] == ps;
  }

  /** Nothing is lost or reordered, no packet is empty or too large, and only the last may be short. */
  ghost predicate IsChunking<T>(results: seq<T>, max: nat, ps: seq<seq<T>>) {
    && Flatten(ps) == results
    && (forall i :: 0 <= i < |ps| ==> 1 <= |ps[i]| <= max)
    && (forall i :: 0 <= i < |ps| - 1 ==> |ps[i]| == max)
  }

  /** After some of the results: full packets, and the nodes of the next one. */
  ghost predicate Sending(taken: seq<RpcNode>, max: nat, ps: seq<seq<RpcNode>>, nodes: seq<RpcNode>) {
    && Flatten(ps) + nodes == taken && |nodes| < max
    && forall j :: 0 <= j < |ps| ==> |ps[j]| == max
  }

  lemma OneMoreNode(taken: seq<RpcNode>, max: nat, ps: seq<seq<RpcNode>>, nodes: seq<RpcNode>, n: RpcNode)
    requires Sending(taken, max, ps, nodes)
    ensures |nodes| + 1 < max ==> Sending(taken + [n], max, ps, nodes + [n])
    ensures |nodes| + 1 == max ==> Sending(taken + [n], max, ps + [nodes + [n]], [])
    ensures IsChunking(taken + [n], max, ps + [nodes + [n]])
  {
    FlattenSnoc(ps, nodes + [n]);
    assert Flatten(ps) + (nodes + [n]) == taken + [n];
  }

  method SendNeighbours(results: seq<RpcNode>, max: nat) returns (ps: seq<seq<RpcNode>>)
    requires max > 0
    ensures IsChunking(results, max, ps)
  {
    ps := [];
    var nodes: seq<RpcNode> := [];
    for i := 0 to |results|
      invariant i < |results| ==> Sending(results[..i], max, ps, nodes)
      invariant i == |results| ==> IsChunking(results, max, ps)
    {
      OneMoreNode(results[..i], max, ps, nodes, results[i]);
      assert results[..i + 1] == results[..i] + [results[i]];
      nodes := nodes + [results[i]];
      if |nodes| == max || i == |results| - 1 {
        ps := ps + [nodes];
        nodes := [];
      }
    }
  }

  /** Those conditions leave no choice: there is only one chunking. */
  lemma {:induction false} ChunkingUnique<T>(results: seq<T>, max: nat, ps: seq<seq<T>>, qs: seq<seq<T>>)
    requires max > 0 && IsChunking(results, max, ps) && IsChunking(results, max, qs)
    ensures ps == qs
  {
    ChunkCount(ps, max);
    ChunkCount(qs, max);
    CountFromSize(|results|, max, |ps|, |qs|);
    if ps != [] {
      var n := |ps| - 1;
      AllFull(ps[..n], max);
      AllFull(qs[..n], max);
      assert Flatten(ps[..n]) == results[..n * max] == Flatten(qs[..n]);
      assert ps[n] == results[n * max..] == qs[n];
      assert ps == ps[..n] + [ps[n]] && qs == qs[..n] + [qs[n]];
      if n > 0 {
        ChunkingUnique(results[..n * max], max, ps[..n], qs[..n]);
      } else {
        assert ps[..n] == qs[..n];
      }
    }
  }

  lemma {:induction false} AllFull<T>(ps: seq<seq<T>>, max: nat)
    requires forall i :: 0 <= i < |ps| ==> |ps[i]| == max
    ensures |Flatten(ps)| == |ps| * max
  {
    if ps != [] {
      var n := |ps| - 1;
      AllFull(ps[..n], max);
      assert (n + 1) * max == n * max + max;
    }
  }

  /** The number of packets times their size brackets the number of nodes. */
  lemma ChunkCount<T>(ps: seq<seq<T>>, max: nat)
    requires forall i :: 0 <= i < |ps| ==> 1 <= |ps[i]| <= max
    requires forall i :: 0 <= i < |ps| - 1 ==> |ps[i]| == max
    ensures ps == [] <==> Flatten(ps) == []
    ensures ps != [] ==> (|ps| - 1) * max < |Flatten(ps)| <= |ps| * max
  {
    if ps != [] {
      var n := |ps| - 1;
      AllFull(ps[..n], max);
      assert (n + 1) * max == n * max + max;
    }
  }

  lemma CountFromSize(size: nat, max: nat, p: nat, q: nat)
    requires max > 0
    requires if size == 0 then p == 0 else p > 0 && (p - 1) * max < size <= p * max
    requires if size == 0 then q == 0 else q > 0 && (q - 1) * max < size <= q * max
    ensures p == q
  {
    if p < q { ScaleDigit(p, q - 1, max); }
    if q < p { ScaleDigit(q, p - 1, max); }
  }

  // ----- the limit

  /** The size of a framed packet with n of the largest nodes and the latest expiration. */
  function MaxFrameSize(n: nat): nat {
    HEAD_SIZE + 1 + MaxBodySize(n)
  }

  const MAX_SIZE_NODE := RpcNode(0, Endpoint(PutBytes(0, 16), 0xFFFF, 0xFFFF))

  /** n copies of the largest node. */
  function Copies(n: nat): (nodes: seq<RpcNode>)
    ensures |nodes| == n && forall i :: 0 <= i < n ==> MaxSize(nodes[i]) && WellSized(nodes[i])
  {
    if n == 0 then [] else Copies(n - 1) + [MAX_SIZE_NODE]
  }

  lemma CopiesSize(n: nat)
    ensures MAX_TIME < Pow256(8) && AllWellSized(Copies(n))
    ensures var r := EncodeNeighbors(Copies(n), MAX_TIME);
            if r.Some? then |r.value| == MaxBodySize(n) else MaxBodySize(n) >= Pow256(8)
  {
    LatestTime();
    NeighborsSize(Copies(n), MAX_TIME);
  }

  /** The initialiser of maxNeighbors: add the largest node until the packet is too large. */
  method MaxNeighbors() returns (n: nat)
    ensures MaxFrameSize(n) < MAX_PACKET <= MaxFrameSize(n + 1)
    ensures n == 12
  {
    var nodes: seq<RpcNode> := [];
    n := 0;
    while true
      invariant n <= 12 && nodes == Copies(n) && (n > 0 ==> MaxFrameSize(n) < MAX_PACKET)
      decreases 12 - n
    {
      nodes := nodes + [MAX_SIZE_NODE];
      CopiesSize(n + 1);
      Powers();
      var size := |EncodeNeighbors(nodes, MAX_TIME).value|;
      if HEAD_SIZE + size + 1 >= MAX_PACKET {
        return n;
      }
      n := n + 1;
    }
  }

  /** RLP can write the list, and the packet around it is short enough for the receiver. */
  predicate Fits(nodes: seq<RpcNode>, expiration: nat)
    requires AllWellSized(nodes) && expiration < Pow256(8)
  {
    var body := EncodeNeighbors(nodes, expiration);
    body.Some? && HEAD_SIZE + 1 + |body.value| < MAX_PACKET
  }

  /** Every packet of n IPv4 or IPv6 nodes fits. */
  ghost predicate SureToFit(n: nat) {
    forall nodes: seq<RpcNode>, expiration: nat ::
      |nodes| == n && AllWellSized(nodes) && expiration < Pow256(8) ==> Fits(nodes, expiration)
  }

  /** Twelve is right: packets of n nodes are sure to fit if and only if n is at most 12. */
  lemma TwelveIsTheLimit(n: nat)
    ensures SureToFit(n) <==> n <= 12
  {
    if n <= 12 {
      Powers();
      MaxBodySizeMonotone(n, 12);
      forall nodes: seq<RpcNode>, expiration: nat | |nodes| == n && AllWellSized(nodes) && expiration < Pow256(8)
        ensures Fits(nodes, expiration)
      {
        NeighborsSize(nodes, expiration);
      }
    } else {
      CopiesSize(n);
      MaxBodySizeMonotone(13, n);
      assert !Fits(Copies(n), MAX_TIME);
    }
  }

  /** RLP as the Yellow Paper has it, for neighbours. */
  ghost predicate YellowPaper<Key>(c: Codec<Key>) {
    forall nodes: seq<RpcNode>, expiration: nat :: AllWellSized(nodes) && expiration < Pow256(8)
      ==> c.encode(Neighbors(nodes, expiration)) == EncodeNeighbors(nodes, expiration)
  }

  /** Every packet that sendNeighbours emits fits into the buffer of the receiver. */
  lemma ChunksFit<Key>(c: Codec<Key>, key: Key, results: seq<RpcNode>, ps: seq<seq<RpcNode>>, i: nat, expiration: nat)
    requires FixedSize(c, key) && YellowPaper(c)
    requires IsChunking(results, 12, ps) && i < |ps| && AllWellSized(results) && expiration < Pow256(8)
    ensures var r := Encoded(c, key, Neighbors(ps[i], expiration));
            if r.Ok? then |r.value.0| < MAX_PACKET else r.error == SignFailed
  {
    var nodes, body := ps[i], Neighbors(ps[i], expiration);
    forall j | 0 <= j < |nodes| ensures WellSized(nodes[j]) {
      InFlatten(ps, i, nodes[j]);
      var k :| 0 <= k < |results| && results[k] == nodes[j];
    }
    TwelveIsTheLimit(|nodes|);
    assert Fits(nodes, expiration) && c.encode(body) == EncodeNeighbors(nodes, expiration);
    var sigdata: Bytes := [TypeOf(body)] + EncodeNeighbors(nodes, expiration).value;
    var sig := c.sign(key, c.keccak(sigdata));
    if sig.Some? { FrameParts(sig.value, sigdata); }
  }

  lemma {:induction false} InFlatten<T>(ps: seq<seq<T>>, i: nat, x: T)
    requires i < |ps| && x in ps[i]
    ensures x in Flatten(ps)
  {
    if i < |ps| - 1 { InFlatten(ps[..|ps| - 1], i, x); }
  }
}
