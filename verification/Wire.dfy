/** What the framing of packets means for the peers: the assumptions about packet hashes in modules Invariants
    and TwoPeers follow from a collision-free hash function and working signatures. */
module Wire {
  import opened Words
  import opened NodesByDistance
  import opened Protocol
  import opened Invariants
  import opened Packets
  import W = TwoPeers

  /** env.hash is what encodePacket returns for the key of each node, and nil where it fails. */
  ghost predicate OnTheWire<Key(!new)>(c: Codec<Key>, keys: NodeID -> Key, env: Env) {
    && (forall x :: c.keccak(x) != [])
    && (forall id: NodeID :: Sound(c, keys(id), id))
    && (forall id: NodeID, b: Body ::
          var r := Encoded(c, keys(id), b); env.hash(id, b) == if r.Ok? then r.value.1 else [])
  }

  /** No accepted packet has the hash of another packet that a node signs and sends. */
  lemma AcceptedIsCollisionless<Key(!new)>(c: Codec<Key>, keys: NodeID -> Key, env: Env, buffer: Bytes)
    requires CollisionFree(c) && OnTheWire(c, keys, env) && Decoded(c, buffer).Ok?
    ensures var f := Decoded(c, buffer).value; W.NoCollision(env, f.remoteID, f.body, f.hash)
  {
    var f := Decoded(c, buffer).value;
    forall id: NodeID, b: Body | env.hash(id, b) == f.hash ensures id == f.remoteID && b == f.body {
      var sent := Encoded(c, keys(id), b);
      HashNotEmpty(c, buffer);
      assert sent.Ok?;
      assert Sound(c, keys(id), id);
      RoundTrip(c, keys(id), id, b);
      HashDeterminesPacket(c, sent.value.0, buffer);
    }
  }

  lemma HashNotEmpty<Key>(c: Codec<Key>, buffer: Bytes)
    requires (forall x :: c.keccak(x) != []) && Decoded(c, buffer).Ok?
    ensures Decoded(c, buffer).value.hash != []
  {
  }

  /** Pings that can be encoded and signed have non-empty hashes. */
  lemma PingsHaveHashes<Key(!new)>(c: Codec<Key>, keys: NodeID -> Key, env: Env)
    requires OnTheWire(c, keys, env)
    requires forall id: NodeID, b: Body :: b.Ping? ==> Encoded(c, keys(id), b).Ok?
    ensures Hashing(env)
  {
    forall id: NodeID, b: Body | b.Ping? ensures env.hash(id, b) != [] {
      assert Encoded(c, keys(id), b).Ok?;
    }
  }
}
