/** What every step of the event loop keeps, and the framing lemmas that carry it. */
module Invariants {
  import opened Slices
  import opened Words
  import opened NodesByDistance
  import T = Table
  import opened Protocol

  // ----- history

  /** Among these effects of node self is a ping to id whose packet hash is h. */
  ghost predicate PingedIn(env: Env, self: NodeID, log: seq<Effect>, id: NodeID, h: Bytes) {
    exists b :: SentPing(id, b) in log && env.hash(self, b) == h
  }

  ghost predicate Pinged(env: Env, s: Net, id: NodeID, h: Bytes) {
    PingedIn(env, s.tab.self.id, s.log, id, h)
  }

  /** The pong accepted as the j-th effect echoed the non-empty hash h of a ping sent before. */
  ghost predicate ProvedAt(env: Env, s: Net, id: NodeID, j: nat, h: Bytes) {
    && j < |s.log| && s.log[j] == AcceptedPong(id, h)
    && h != [] && PingedIn(env, s.tab.self.id, s.log[..j], id, h)
  }

  ghost predicate Proved(env: Env, s: Net, id: NodeID) {
    exists j: nat, h :: ProvedAt(env, s, id, j, h)
  }

  /** The hash of a ping is never empty. */
  ghost predicate Hashing(env: Env) {
    forall id: NodeID, b: Body :: b.Ping? ==> env.hash(id, b) != []
  }

  predicate Verifying(state: NodeState) {
    state == VerifyInit || state == VerifyWait
  }

  predicate Verified(state: NodeState) {
    state == RemoteVerifyWait || state.CanQuery()
  }

  // ----- one node

  /** Timers agree with the node, except that the neighbours timer is already off for nodes in d. */
  ghost predicate TimersOk(s: Net, id: NodeID, d: set<NodeID>) {
    var n := NodeAt(s, id);
    && (Timeout(NeighboursTimeout, id) in s.timers <==> n.pending.Some? && id !in d)
    && (Timeout(PingTimeout, id) in s.timers <==> n.state == RemoteVerifyWait)
    && (Timeout(PongTimeout, id) in s.timers ==> Verifying(n.state) || n.state == Contested)
    && (id != s.tab.self.id && Verifying(n.state) ==> Timeout(PongTimeout, id) in s.timers)
  }

  /** The outstanding ping, the proof of liveness, and the failure counter. */
  ghost predicate StateOk(env: Env, s: Net, id: NodeID) {
    var n := NodeAt(s, id);
    && (n.state == Unknown || n.state == RemoteVerifyWait ==> n.pingEcho == None)
    && (id != s.tab.self.id && (Verifying(n.state) || n.state == Contested || n.state == Unresponsive) ==> n.pingEcho.Some?)
    && (n.pingEcho.Some? ==> n.pingEcho.value != [] && Pinged(env, s, id, n.pingEcho.value))
    && (id != s.tab.self.id && Verified(n.state) ==> Proved(env, s, id))
    && (n.state == Known ==> n.queryTimeouts <= MAX_FINDNODE_FAILURES)
  }

  ghost predicate OpenQuery(s: Net, id: NodeID, q: Query) {
    q.remote == RemoteNode(id) && q in s.submitted && q !in s.answered
  }

  ghost predicate NoRepeats(qs: seq<Query>) {
    forall i, j :: 0 <= i < j < |qs| ==> qs[i] != qs[j]
  }

  /** At most one query is under way, and only with a verified node; the rest wait, each once, and never for
      an unknown node. */
  ghost predicate QueriesOk(s: Net, id: NodeID) {
    var n := NodeAt(s, id);
    && (n.pending.Some? ==>
          && n.state.CanQuery() && OpenQuery(s, id, n.pending.value)
          && n.pending.value !in n.deferred
          && SentFindnodeHash(id, n.pending.value.target) in s.log)
    && NoRepeats(n.deferred) && (n.state == Unknown ==> n.deferred == [])
    && (forall q :: q in n.deferred ==> OpenQuery(s, id, q))
  }

  ghost predicate NodeOk(env: Env, s: Net, id: NodeID, d: set<NodeID>) {
    TimersOk(s, id, d) && StateOk(env, s, id) && QueriesOk(s, id)
  }

  // ----- the whole network

  predicate Holds(n: Node, q: Query) {
    n.pending == Some(q) || q in n.deferred
  }

  predicate IsOpen(s: Net, q: Query) {
    q.remote.RemoteNode? && Holds(NodeAt(s, q.remote.id), q)
  }

  /** No query is lost. */
  ghost predicate Conserved(s: Net) {
    && s.answered <= s.submitted
    && forall q :: q in s.submitted && q !in s.answered ==> IsOpen(s, q)
  }

  function AnsweredOn(answered: set<Query>, c: nat): set<Query> {
    set q | q in answered && q.reply == c
  }

  /** A channel has carried exactly one value per answered query. */
  ghost predicate ChansOk(s: Net) {
    forall c: nat :: |Chan(s, c)| == |AnsweredOn(s.answered, c)|
  }

  ghost predicate GoodAnswer(s: Net, a: Answer) {
    forall i :: 0 <= i < |a| && a[i].Some? ==> a[i].value != s.tab.self.id && a[i].value in s.nodes
  }

  ghost predicate AnswersOk(s: Net) {
    forall c: nat, a :: a in Chan(s, c) ==> GoodAnswer(s, a)
  }

  /** A stored peer is interned, not us, and verified or configured. */
  ghost predicate GoodPeer(s: Net, p: Peer) {
    && p == PeerOf(p.id) && p.id != s.tab.self.id && p.id in s.nodes
    && (NodeAt(s, p.id).state.CanQuery() || p.id in s.seeds)
  }

  ghost predicate TabOk(s: Net) {
    && T.TableOk(s.tab)
    && forall p :: T.Stores(s.tab, p) ==> GoodPeer(s, p)
  }

  ghost predicate EffectOk(env: Env, s: Net, e: Effect) {
    match e
    case SentNeighbours(to, ids) =>
      forall i :: 0 <= i < |ids| ==> ids[i] != s.tab.self.id && (Proved(env, s, ids[i]) || ids[i] in s.seeds)
    case HandledPing(_, body, _) => body.Ping?
    case SentPong(to, body) => body.Pong? && exists b :: HandledPing(to, b, body.replyTok) in s.log
    case SentPing(_, body) => body.Ping?
    case _ => true
  }

  ghost predicate LogOk(env: Env, s: Net) {
    forall e :: e in s.log ==> EffectOk(env, s, e)
  }

  ghost predicate NodesOk(env: Env, s: Net, d: set<NodeID>) {
    forall id: NodeID :: NodeOk(env, s, id, d)
  }

  ghost predicate Inv(env: Env, s: Net, d: set<NodeID>) {
    && NodesOk(env, s, d) && Conserved(s) && ChansOk(s) && AnswersOk(s) && TabOk(s) && LogOk(env, s)
  }

  // ----- framing

  /** Histories and the set of known IDs only grow. */
  ghost predicate Grows(s: Net, t: Net) {
    && t.tab.self == s.tab.self
    && s.log <= t.log && (forall e :: e in s.log ==> e in t.log)
    && s.submitted <= t.submitted && s.answered <= t.answered && s.seeds <= t.seeds
    && s.nodes.Keys <= t.nodes.Keys
  }

  ghost predicate SameNode(s: Net, t: Net, id: NodeID) {
    && NodeAt(s, id) == NodeAt(t, id)
    && forall ev :: Timeout(ev, id) in s.timers <==> Timeout(ev, id) in t.timers
  }

  /** Nothing but node id, its timers and the log is different. */
  ghost predicate Local(s: Net, t: Net, id: NodeID) {
    && Grows(s, t)
    && t.nodes.Keys == s.nodes.Keys + {id}
    && (forall j: NodeID :: j != id ==> SameNode(s, t, j))
    && t.tab == s.tab && t.chans == s.chans && t.submitted == s.submitted && t.answered == s.answered
    && t.seeds == s.seeds
  }

  lemma PingedGrows(env: Env, s: Net, t: Net, id: NodeID, h: Bytes)
    requires Grows(s, t) && Pinged(env, s, id, h)
    ensures Pinged(env, t, id, h)
  {
    var b :| SentPing(id, b) in s.log && env.hash(s.tab.self.id, b) == h;
    assert SentPing(id, b) in t.log;
  }

  lemma ProvedGrows(env: Env, s: Net, t: Net, id: NodeID)
    requires Grows(s, t) && Proved(env, s, id)
    ensures Proved(env, t, id)
  {
    var j: nat, h :| ProvedAt(env, s, id, j, h);
    assert t.log[..j] == s.log[..j];
    assert ProvedAt(env, t, id, j, h);
  }

  /** The ping behind a proof of liveness. */
  lemma ProvedPing(env: Env, s: Net, id: NodeID) returns (i: nat, j: nat, ping: Body, tok: Bytes)
    requires Proved(env, s, id) && LogOk(env, s)
    ensures i < j < |s.log| && s.log[i] == SentPing(id, ping) && ping.Ping?
    ensures env.hash(s.tab.self.id, ping) == tok != [] && s.log[j] == AcceptedPong(id, tok)
  {
    j, tok :| ProvedAt(env, s, id, j, tok);
    ping :| SentPing(id, ping) in s.log[..j] && env.hash(s.tab.self.id, ping) == tok;
    i :| 0 <= i < j && s.log[..j][i] == SentPing(id, ping);
    assert EffectOk(env, s, s.log[i]);
  }

  lemma EffectGrows(env: Env, s: Net, t: Net, e: Effect)
    requires Grows(s, t) && EffectOk(env, s, e)
    ensures EffectOk(env, t, e)
  {
    match e
    case SentNeighbours(to, ids) =>
      forall i | 0 <= i < |ids| ensures ids[i] != t.tab.self.id && (Proved(env, t, ids[i]) || ids[i] in t.seeds) {
        if Proved(env, s, ids[i]) { ProvedGrows(env, s, t, ids[i]); }
      }
    case SentPong(to, body) =>
      var b :| HandledPing(to, b, body.replyTok) in s.log;
      assert HandledPing(to, b, body.replyTok) in t.log;
    case _ =>
  }

  lemma StateGrows(env: Env, s: Net, t: Net, id: NodeID)
    requires Grows(s, t) && NodeAt(s, id) == NodeAt(t, id) && StateOk(env, s, id)
    ensures StateOk(env, t, id)
  {
    var n := NodeAt(s, id);
    if n.pingEcho.Some? { PingedGrows(env, s, t, id, n.pingEcho.value); }
    if id != s.tab.self.id && Verified(n.state) { ProvedGrows(env, s, t, id); }
  }

  /** A node that did not change is still fine if none of its queries was answered. */
  lemma NodeFrame(env: Env, s: Net, t: Net, id: NodeID, d: set<NodeID>)
    requires Grows(s, t) && SameNode(s, t, id) && NodeOk(env, s, id, d)
    requires forall q :: q in t.answered && q !in s.answered ==> q.remote != RemoteNode(id)
    ensures NodeOk(env, t, id, d)
  {
    StateGrows(env, s, t, id);
  }

  lemma LogFrame(env: Env, s: Net, t: Net)
    requires Grows(s, t) && LogOk(env, s)
    requires forall e :: e in t.log && e !in s.log ==> EffectOk(env, t, e)
    ensures LogOk(env, t)
  {
    forall e | e in t.log ensures EffectOk(env, t, e) {
      if e in s.log { EffectGrows(env, s, t, e); }
    }
  }

  /** A change of one node that keeps its queries and lets it answer queries if it did. */
  lemma LocalUpdate(env: Env, s: Net, t: Net, id: NodeID, d: set<NodeID>)
    requires Inv(env, s, d) && Local(s, t, id)
    requires NodeOk(env, t, id, d)
    requires forall q :: Holds(NodeAt(s, id), q) ==> Holds(NodeAt(t, id), q)
    requires NodeAt(s, id).state.CanQuery() ==> NodeAt(t, id).state.CanQuery()
    requires forall e :: e in t.log && e !in s.log ==> EffectOk(env, t, e)
    ensures Inv(env, t, d)
  {
    forall j: NodeID ensures NodeOk(env, t, j, d) {
      if j != id {
        assert SameNode(s, t, j) && NodeOk(env, s, j, d);
        NodeFrame(env, s, t, j, d);
      }
    }
    LogFrame(env, s, t);
    LocalConserved(s, t, id);
    LocalTab(s, t, id);
    forall c: nat ensures Chan(t, c) == Chan(s, c) {
    }
    forall c: nat, a | a in Chan(t, c) ensures GoodAnswer(t, a) {
      assert a in Chan(s, c) && GoodAnswer(s, a);
    }
  }

  lemma LocalConserved(s: Net, t: Net, id: NodeID)
    requires Conserved(s) && Local(s, t, id)
    requires forall q :: Holds(NodeAt(s, id), q) ==> Holds(NodeAt(t, id), q)
    ensures Conserved(t)
  {
    forall q | q in t.submitted && q !in t.answered ensures IsOpen(t, q) {
      assert IsOpen(s, q);
      if q.remote.id != id { assert SameNode(s, t, q.remote.id); }
    }
  }

  lemma LocalTab(s: Net, t: Net, id: NodeID)
    requires TabOk(s) && Local(s, t, id)
    requires NodeAt(s, id).state.CanQuery() ==> NodeAt(t, id).state.CanQuery()
    ensures TabOk(t)
  {
    forall p | T.Stores(t.tab, p) ensures GoodPeer(t, p) {
      assert GoodPeer(s, p);
      if p.id != id { assert SameNode(s, t, p.id); }
    }
  }

  // ----- the start

  lemma {:induction false} InitInv(env: Env, self: NodeID)
    ensures Inv(env, Init(self), {})
  {
    var s := Init(self);
    forall id: NodeID ensures NodeOk(env, s, id, {}) {
    }
    forall c: nat ensures |Chan(s, c)| == |AnsweredOn(s.answered, c)| {
      assert AnsweredOn({}, c) == {};
    }
  }
}
