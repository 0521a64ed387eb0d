/** Two honest peers, A and B, over a network that loses, duplicates and reorders packets and in which
    anybody else may send anything.  Packets signed by A or B were sent by A or B, to anyone and at any
    earlier time; both compute packet hashes alike, and no other packet has the hash of one that a node
    signs and sends. */
module TwoPeers {
  import opened Slices
  import opened Words
  import opened NodesByDistance
  import opened Protocol
  import opened Invariants
  import opened Runs
  import opened Monotone

  ghost predicate SameHash(env: Env, other: Env) {
    forall id, b :: env.hash(id, b) == other.hash(id, b)
  }

  /** This hash belongs to no packet sent by a node, unless to the one with this signer and content. */
  ghost predicate NoCollision(env: Env, from: NodeID, body: Body, hash: Bytes) {
    forall id, b :: env.hash(id, b) == hash ==> id == from && b == body
  }

  /** This node sent such a packet, to whomever. */
  ghost predicate SentBody(s: Net, body: Body) {
    || (body.Ping? && exists to :: SentPing(to, body) in s.log)
    || (body.Pong? && exists to :: SentPong(to, body) in s.log)
    || (!body.Ping? && !body.Pong?)
  }

  datatype World = World(envA: Env, envB: Env, a: Net, b: Net)

  /** Signatures: a packet that names the peer as its sender was sent by the peer. */
  ghost predicate Genuine(peer: Net, i: Input) {
    i.Receive? && i.pkt.remoteID == peer.tab.self.id ==> SentBody(peer, i.pkt.body)
  }

  ghost predicate Collisionless(env: Env, i: Input) {
    i.Receive? ==> NoCollision(env, i.pkt.remoteID, i.pkt.body, i.pkt.hash)
  }

  datatype Move = AtA(input: Input, now: nat) | AtB(input: Input, now: nat)

  ghost predicate Possible(w: World, m: Move) {
    match m
    case AtA(i, _) => Enabled(w.a, i) && Genuine(w.b, i) && Collisionless(w.envA, i)
    case AtB(i, _) => Enabled(w.b, i) && Genuine(w.a, i) && Collisionless(w.envB, i)
  }

  function MoveOn(w: World, m: Move): World {
    match m
    case AtA(i, now) => w.(a := Step(w.envA, w.a, i, now))
    case AtB(i, now) => w.(b := Step(w.envB, w.b, i, now))
  }

  function Opening(envA: Env, envB: Env, idA: NodeID, idB: NodeID): World {
    World(envA, envB, Init(idA), Init(idB))
  }

  function Play(start: World, moves: seq<Move>): World {
    if moves == [] then start else MoveOn(Play(start, moves[..|moves| - 1]), moves[|moves| - 1])
  }

  ghost predicate Fair(start: World, moves: seq<Move>) {
    moves != [] ==>
      Fair(start, moves[..|moves| - 1]) && Possible(Play(start, moves[..|moves| - 1]), moves[|moves| - 1])
  }

  /** The pong that a node took from its peer was sent by the peer. */
  ghost predicate PongWitnessed(peer: Net, tok: Bytes) {
    exists to, body :: SentPong(to, body) in peer.log && body.Pong? && body.replyTok == tok
  }

  ghost predicate Witnessed(s: Net, peer: Net) {
    forall tok :: AcceptedPong(peer.tab.self.id, tok) in s.log ==> PongWitnessed(peer, tok)
  }

  /** The peer moves on: what it sent stays sent. */
  lemma WitnessedByLater(s: Net, peer: Net, peer': Net)
    requires Witnessed(s, peer) && peer'.tab.self == peer.tab.self && peer.log <= peer'.log
    ensures Witnessed(s, peer')
  {
    forall tok | AcceptedPong(peer'.tab.self.id, tok) in s.log ensures PongWitnessed(peer', tok) {
      var to, body :| SentPong(to, body) in peer.log && body.Pong? && body.replyTok == tok;
      assert SentPong(to, body) in peer'.log;
    }
  }

  /** The node itself moves on: a newly accepted pong is the received packet, hence genuine. */
  lemma WitnessedAfterStep(env: Env, s: Net, peer: Net, i: Input, now: nat)
    requires Witnessed(s, peer) && Genuine(peer, i)
    ensures Witnessed(Step(env, s, i, now), peer)
  {
    var t := Step(env, s, i, now);
    StepLater(env, s, i, now);
    forall tok | AcceptedPong(peer.tab.self.id, tok) in t.log ensures PongWitnessed(peer, tok) {
      var e := AcceptedPong(peer.tab.self.id, tok);
      if e !in s.log {
        assert Hears(if i.Receive? then Some(i.pkt) else None, e);
        assert SentBody(peer, i.pkt.body);
        var to :| SentPong(to, i.pkt.body) in peer.log;
      }
    }
  }

  /** The hashes of handled pings identify them. */
  ghost predicate PingsIdentified(env: Env, s: Net) {
    forall from, body, hash :: HandledPing(from, body, hash) in s.log ==> NoCollision(env, from, body, hash)
  }

  lemma PingsIdentifiedAfterStep(env: Env, s: Net, i: Input, now: nat)
    requires PingsIdentified(env, s) && Collisionless(env, i)
    ensures PingsIdentified(env, Step(env, s, i, now))
  {
    var t := Step(env, s, i, now);
    StepLater(env, s, i, now);
    forall from, body, hash | HandledPing(from, body, hash) in t.log ensures NoCollision(env, from, body, hash) {
      var e := HandledPing(from, body, hash);
      if e !in s.log { assert Hears(if i.Receive? then Some(i.pkt) else None, e); }
    }
  }

  ghost predicate WorldInv(w: World) {
    && Inv(w.envA, w.a, {}) && Inv(w.envB, w.b, {})
    && PingsIdentified(w.envA, w.a) && PingsIdentified(w.envB, w.b)
    && Witnessed(w.a, w.b) && Witnessed(w.b, w.a)
  }

  lemma {:induction false} PlayInv(start: World, moves: seq<Move>)
    requires WorldInv(start) && Fair(start, moves) && Hashing(start.envA) && Hashing(start.envB)
    ensures var w := Play(start, moves);
            && WorldInv(w) && w.envA == start.envA && w.envB == start.envB
            && w.a.tab.self == start.a.tab.self && w.b.tab.self == start.b.tab.self
  {
    if moves != [] {
      var w, m := Play(start, moves[..|moves| - 1]), moves[|moves| - 1];
      PlayInv(start, moves[..|moves| - 1]);
      match m
      case AtA(i, now) =>
        StepInv(w.envA, w.a, i, now);
        StepLater(w.envA, w.a, i, now);
        WitnessedAfterStep(w.envA, w.a, w.b, i, now);
        PingsIdentifiedAfterStep(w.envA, w.a, i, now);
        WitnessedByLater(w.b, w.a, Step(w.envA, w.a, i, now));
      case AtB(i, now) =>
        StepInv(w.envB, w.b, i, now);
        StepLater(w.envB, w.b, i, now);
        WitnessedAfterStep(w.envB, w.b, w.a, i, now);
        PingsIdentifiedAfterStep(w.envB, w.b, i, now);
        WitnessedByLater(w.a, w.b, Step(w.envB, w.b, i, now));
    }
  }

  /** s pinged its peer; the peer handled that very ping as one from s and sent its hash back to s. */
  ghost predicate Handshake(env: Env, s: Net, peer: Net) {
    exists ping, pong ::
      && SentPing(peer.tab.self.id, ping) in s.log
      && HandledPing(s.tab.self.id, ping, env.hash(s.tab.self.id, ping)) in peer.log
      && SentPong(s.tab.self.id, pong) in peer.log && pong.Pong? && pong.replyTok == env.hash(s.tab.self.id, ping)
  }

  lemma VerifiedMeansHandshake(env: Env, peerEnv: Env, s: Net, peer: Net)
    requires Inv(env, s, {}) && Inv(peerEnv, peer, {}) && Witnessed(s, peer)
    requires SameHash(env, peerEnv) && PingsIdentified(peerEnv, peer)
    requires s.tab.self.id != peer.tab.self.id && Verified(NodeAt(s, peer.tab.self.id).state)
    ensures Handshake(env, s, peer)
  {
    var us, them := s.tab.self.id, peer.tab.self.id;
    assert NodeOk(env, s, them, {});
    var i, j, ping, h := ProvedPing(env, s, them);
    assert s.log[i] in s.log && s.log[j] in s.log && PongWitnessed(peer, h);
    var to, pong, b := WitnessedPing(peerEnv, peer, h);
    assert peerEnv.hash(us, ping) == env.hash(us, ping) == h;
    assert NoCollision(peerEnv, to, b, h);
  }

  /** Every pong answers a ping that was handled. */
  lemma WitnessedPing(env: Env, s: Net, tok: Bytes) returns (to: NodeID, pong: Body, ping: Body)
    requires LogOk(env, s) && PongWitnessed(s, tok)
    ensures SentPong(to, pong) in s.log && pong.Pong? && pong.replyTok == tok
    ensures HandledPing(to, ping, tok) in s.log
  {
    to, pong :| SentPong(to, pong) in s.log && pong.Pong? && pong.replyTok == tok;
    assert EffectOk(env, s, SentPong(to, pong));
    ping :| HandledPing(to, ping, pong.replyTok) in s.log;
  }

  /** Whenever A holds B in remoteverifywait, known, contested or unresponsive, B really did handle a
      ping sent by A and answered A with that ping's hash; and likewise with A and B exchanged. */
  lemma HandshakesAreReal(envA: Env, envB: Env, idA: NodeID, idB: NodeID, moves: seq<Move>)
    requires Hashing(envA) && SameHash(envA, envB) && idA != idB
    requires Fair(Opening(envA, envB, idA, idB), moves)
    ensures var w := Play(Opening(envA, envB, idA, idB), moves);
            && (Verified(NodeAt(w.a, idB).state) ==> Handshake(envA, w.a, w.b))
            && (Verified(NodeAt(w.b, idA).state) ==> Handshake(envB, w.b, w.a))
  {
    var start := Opening(envA, envB, idA, idB);
    InitInv(envA, idA);
    InitInv(envB, idB);
    PlayInv(start, moves);
    var w := Play(start, moves);
    if Verified(NodeAt(w.a, idB).state) { VerifiedMeansHandshake(envA, envB, w.a, w.b); }
    if Verified(NodeAt(w.b, idA).state) { VerifiedMeansHandshake(envB, envA, w.b, w.a); }
  }
}
