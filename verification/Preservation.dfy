/** Every building block of the protocol keeps the invariant. */
module Preservation {
  import opened Slices
  import opened Distance
  import opened NodesByDistance
  import T = Table
  import opened Protocol
  import opened Invariants

  /** The transitions that come with a ping. */
  predicate StartsPing(state: NodeState, next: NodeState) {
    (state == Unknown && Verifying(next)) || (state == Known && next == Contested)
  }

  /** Sending a ping and stepping into a state that waits for the pong. */
  lemma PingAndWait(env: Env, s: Net, id: NodeID, to: Endpoint, next: NodeState, now: nat, d: set<NodeID>)
    requires Inv(env, s, d) && Hashing(env)
    requires StartsPing(NodeAt(s, id).state, next)
    ensures var t := SendPing(env, Put(s, id, NodeAt(s, id).(state := next)), id, to, now);
            Inv(env, t, d) && Local(s, t, id) && NodeAt(t, id).state == next
  {
    var n := NodeAt(s, id);
    var t := SendPing(env, Put(s, id, n.(state := next)), id, to, now);
    assert NodeOk(env, s, id, d);
    PingIsLocal(env, s, id, to, next, now);
    PingLocal(env, s, t, id, to, next, now, d);
    LocalUpdate(env, s, t, id, d);
  }

  lemma PingIsLocal(env: Env, s: Net, id: NodeID, to: Endpoint, next: NodeState, now: nat)
    ensures var t := SendPing(env, Put(s, id, NodeAt(s, id).(state := next)), id, to, now);
            && Local(s, t, id) && NodeAt(t, id).state == next
            && forall e :: e in t.log && e !in s.log ==> e.SentPing? && e.body.Ping?
  {
  }

  lemma PingLocal(env: Env, s: Net, t: Net, id: NodeID, to: Endpoint, next: NodeState, now: nat, d: set<NodeID>)
    requires NodeOk(env, s, id, d) && Hashing(env) && Local(s, t, id)
    requires StartsPing(NodeAt(s, id).state, next)
    requires t == SendPing(env, Put(s, id, NodeAt(s, id).(state := next)), id, to, now)
    ensures NodeOk(env, t, id, d)
  {
    PingState(env, s, t, id, to, next, now);
    PingTimers(env, s, t, id, to, next, now, d);
  }

  lemma PingTimers(env: Env, s: Net, t: Net, id: NodeID, to: Endpoint, next: NodeState, now: nat, d: set<NodeID>)
    requires TimersOk(s, id, d) && StateOk(env, s, id)
    requires StartsPing(NodeAt(s, id).state, next)
    requires t == SendPing(env, Put(s, id, NodeAt(s, id).(state := next)), id, to, now)
    ensures TimersOk(t, id, d)
  {
  }

  lemma PingState(env: Env, s: Net, t: Net, id: NodeID, to: Endpoint, next: NodeState, now: nat)
    requires StateOk(env, s, id) && Hashing(env) && Grows(s, t)
    requires StartsPing(NodeAt(s, id).state, next)
    requires t == SendPing(env, Put(s, id, NodeAt(s, id).(state := next)), id, to, now)
    ensures StateOk(env, t, id)
  {
    var n := NodeAt(s, id);
    if n.pingEcho.Some? { PingedGrows(env, s, t, id, n.pingEcho.value); }
    if Proved(env, s, id) { ProvedGrows(env, s, t, id); }
    if n.pingEcho == None && id != s.tab.self.id {
      var body := Ping(env.ourEndpoint, to, now + EXPIRATION);
      assert SentPing(id, body) in t.log;
      assert Pinged(env, t, id, env.hash(s.tab.self.id, body));
    }
  }

  lemma VerifyInitInv(env: Env, s: Net, id: NodeID, now: nat, d: set<NodeID>)
    requires Inv(env, s, d) && Hashing(env) && NodeAt(s, id).state == Unknown
    ensures var t := Transition(env, s, id, VerifyInit, now);
            Inv(env, t, d) && Local(s, t, id) && NodeAt(t, id).state == VerifyInit
  {
    PingAndWait(env, s, id, OwnAddress(NodeAt(s, id)), VerifyInit, now, d);
  }

  lemma ContestedInv(env: Env, s: Net, id: NodeID, now: nat, d: set<NodeID>)
    requires Inv(env, s, d) && Hashing(env) && NodeAt(s, id).state == Known
    ensures var t := Transition(env, s, id, Contested, now);
            Inv(env, t, d) && Local(s, t, id) && NodeAt(t, id).state == Contested
  {
    PingAndWait(env, s, id, OwnAddress(NodeAt(s, id)), Contested, now, d);
  }

  /** Endpoint and queries do not matter to a node's history. */
  lemma StateKept(env: Env, s: Net, t: Net, id: NodeID)
    requires Grows(s, t) && StateOk(env, s, id)
    requires NodeAt(t, id) == NodeAt(s, id).(ep := NodeAt(t, id).ep, pending := NodeAt(t, id).pending,
                                             deferred := NodeAt(t, id).deferred)
    ensures StateOk(env, t, id)
  {
    var n := NodeAt(s, id);
    if n.pingEcho.Some? { PingedGrows(env, s, t, id, n.pingEcho.value); }
    if Proved(env, s, id) { ProvedGrows(env, s, t, id); }
  }

  // ----- the table

  /** Only the table changes, and everything it stores is good. */
  lemma TableUpdate(env: Env, s: Net, tab: NetTable, d: set<NodeID>)
    requires Inv(env, s, d) && tab.self == s.tab.self && T.TableOk(tab)
    requires forall p :: T.Stores(tab, p) ==> GoodPeer(s, p)
    ensures Inv(env, s.(tab := tab), d)
  {
    var t := s.(tab := tab);
    forall j: NodeID ensures NodeOk(env, t, j, d) {
      assert SameNode(s, t, j) && NodeOk(env, s, j, d);
      NodeFrame(env, s, t, j, d);
    }
    LogFrame(env, s, t);
    forall c: nat, a | a in Chan(t, c) ensures GoodAnswer(t, a) {
      assert a in Chan(s, c) && GoodAnswer(s, a);
    }
    forall c: nat ensures |Chan(t, c)| == |AnsweredOn(t.answered, c)| {
      assert |Chan(s, c)| == |AnsweredOn(s.answered, c)|;
    }
    forall q | q in t.submitted && q !in t.answered ensures IsOpen(t, q) {
      assert IsOpen(s, q);
    }
    forall p | T.Stores(t.tab, p) ensures GoodPeer(t, p) {
      assert GoodPeer(s, p);
    }
  }

  lemma TabAddInv(env: Env, s: Net, id: NodeID, d: set<NodeID>)
    requires Inv(env, s, d) && id in s.nodes
    requires NodeAt(s, id).state.CanQuery() || id in s.seeds
    ensures Inv(env, TabAdd(s, id), d)
  {
    var tab := TabAdd(s, id).tab;
    BucketZero(s.tab, id);
    T.AddKeepsOk(s.tab, PeerOf(id));
    forall p | T.Stores(tab, p) ensures GoodPeer(s, p) {
      if id != s.tab.self.id { T.AddStores(s.tab, PeerOf(id), p); }
    }
    TableUpdate(env, s, tab, d);
  }

  lemma TabDeleteInv(env: Env, s: Net, id: NodeID, d: set<NodeID>)
    requires Inv(env, s, d)
    ensures Inv(env, TabDelete(s, id), d) && Inv(env, TabDeleteReplace(s, id), d)
  {
    var p := PeerOf(id);
    BucketZero(s.tab, id);
    T.DeleteKeepsOk(s.tab, p);
    T.DeleteReplaceKeepsOk(s.tab, p);
    forall q | T.Stores(T.Delete(s.tab, p), q) || T.Stores(T.DeleteReplace(s.tab, p), q) ensures GoodPeer(s, q) {
      T.DeleteStores(s.tab, p, q);
    }
    TableUpdate(env, s, TabDelete(s, id).tab, d);
    TableUpdate(env, s, TabDeleteReplace(s, id).tab, d);
  }

  // ----- interning and pings

  lemma InternNodeInv(env: Env, s: Net, pkt: Packet)
    requires Inv(env, s, {})
    ensures var t := InternNode(s, pkt);
            && Inv(env, t, {}) && Local(s, t, pkt.remoteID)
            && NodeAt(t, pkt.remoteID) == NodeAt(s, pkt.remoteID).(ep := NodeAt(t, pkt.remoteID).ep)
  {
    EndpointInv(env, s, pkt.remoteID, NodeAt(InternNode(s, pkt), pkt.remoteID).ep, {});
  }

  /** Creating a node, or giving it another address, is harmless. */
  lemma EndpointInv(env: Env, s: Net, id: NodeID, ep: Endpoint, d: set<NodeID>)
    requires Inv(env, s, d)
    ensures var t := Put(s, id, NodeAt(s, id).(ep := ep));
            Inv(env, t, d) && Local(s, t, id)
  {
    var t := Put(s, id, NodeAt(s, id).(ep := ep));
    assert NodeOk(env, s, id, d);
    assert Local(s, t, id);
    StateKept(env, s, t, id);
    LocalUpdate(env, s, t, id, d);
  }

  lemma HandlePingInv(env: Env, s: Net, id: NodeID, pkt: Packet, now: nat)
    requires Inv(env, s, {}) && pkt.body.Ping?
    ensures var t := HandlePing(s, id, pkt, now);
            && Inv(env, t, {}) && Local(s, t, id)
            && NodeAt(t, id) == NodeAt(s, id).(ep := NodeAt(t, id).ep)
            && t.timers == s.timers
  {
    var t := HandlePing(s, id, pkt, now);
    assert NodeOk(env, s, id, {});
    PingHandled(s, id, pkt, now);
    StateKept(env, s, t, id);
    assert HandledPing(id, pkt.body, pkt.hash) in t.log;
    LocalUpdate(env, s, t, id, {});
  }

  lemma PingHandled(s: Net, id: NodeID, pkt: Packet, now: nat)
    requires pkt.body.Ping?
    ensures var t := HandlePing(s, id, pkt, now);
            Local(s, t, id) && NodeAt(t, id) == NodeAt(s, id).(ep := NodeAt(t, id).ep) && t.timers == s.timers
  {
  }

  // ----- answering queries

  lemma AnswerChans(s: Net, q: Query, a: Answer)
    requires ChansOk(s) && q !in s.answered
    ensures ChansOk(Reply(s, q, a))
  {
    var t := Reply(s, q, a);
    forall c: nat ensures |Chan(t, c)| == |AnsweredOn(t.answered, c)| {
      assert |Chan(s, c)| == |AnsweredOn(s.answered, c)|;
      if c == q.reply {
        assert AnsweredOn(t.answered, c) == AnsweredOn(s.answered, c) + {q};
      } else {
        assert AnsweredOn(t.answered, c) == AnsweredOn(s.answered, c);
      }
    }
  }

  lemma AnswerAnswers(s: Net, q: Query, a: Answer)
    requires AnswersOk(s) && GoodAnswer(s, a)
    ensures AnswersOk(Reply(s, q, a))
  {
    var t := Reply(s, q, a);
    forall c: nat, b | b in Chan(t, c) ensures GoodAnswer(t, b) {
      assert b == a || (b in Chan(s, c) && GoodAnswer(s, b));
    }
  }

  /** n is m without the query q, which was under way or first in line. */
  ghost predicate Closed(m: Node, n: Node, q: Query) {
    && n == m.(pending := n.pending, deferred := n.deferred)
    && ((m.pending == Some(q) && n.pending == None && n.deferred == m.deferred)
        || (m.deferred != [] && m.deferred[0] == q && n.pending == m.pending && n.deferred == m.deferred[1..]))
  }

  /** Replying to an open query and removing it from its node. */
  lemma AnswerInv(env: Env, s: Net, id: NodeID, q: Query, a: Answer, n: Node, d: set<NodeID>, e: set<NodeID>)
    requires Inv(env, s, d) && Closed(NodeAt(s, id), n, q) && GoodAnswer(s, a)
    requires if NodeAt(s, id).pending == Some(q) then d == {id} && e == {} else e == d
    ensures Inv(env, Put(Reply(s, q, a), id, n), e)
  {
    var m, t := NodeAt(s, id), Put(Reply(s, q, a), id, n);
    assert NodeOk(env, s, id, d) && OpenQuery(s, id, q);
    forall j: NodeID ensures NodeOk(env, t, j, e) {
      assert NodeOk(env, s, j, d);
      if j != id {
        assert SameNode(s, t, j);
        NodeFrame(env, s, t, j, d);
      } else {
        ClosedNode(env, s, id, q, a, n, d, e);
      }
    }
    AnswerChans(s, q, a);
    AnswerAnswers(s, q, a);
    forall c: nat, b | b in Chan(t, c) ensures GoodAnswer(t, b) {
      assert b in Chan(Reply(s, q, a), c) && GoodAnswer(Reply(s, q, a), b);
    }
    assert ChansOk(t) by {
      forall c: nat ensures |Chan(t, c)| == |AnsweredOn(t.answered, c)| {
        assert |Chan(Reply(s, q, a), c)| == |AnsweredOn(Reply(s, q, a).answered, c)|;
      }
    }
    AnswerRest(env, s, id, q, a, n);
  }

  lemma ClosedNode(env: Env, s: Net, id: NodeID, q: Query, a: Answer, n: Node, d: set<NodeID>, e: set<NodeID>)
    requires NodeOk(env, s, id, d) && Closed(NodeAt(s, id), n, q)
    requires if NodeAt(s, id).pending == Some(q) then d == {id} && e == {} else e == d
    ensures NodeOk(env, Put(Reply(s, q, a), id, n), id, e)
  {
    var m, t := NodeAt(s, id), Put(Reply(s, q, a), id, n);
    forall p | p in n.deferred ensures p != q && p in m.deferred {
      if n.deferred != m.deferred {
        var i :| 0 <= i < |n.deferred| && n.deferred[i] == p;
        assert m.deferred[i + 1] == p;
      }
    }
    StateKept(env, s, t, id);
  }

  lemma AnswerRest(env: Env, s: Net, id: NodeID, q: Query, a: Answer, n: Node)
    requires Conserved(s) && TabOk(s) && LogOk(env, s)
    requires Closed(NodeAt(s, id), n, q) && OpenQuery(s, id, q)
    ensures var t := Put(Reply(s, q, a), id, n); Conserved(t) && TabOk(t) && LogOk(env, t)
  {
    var m, t := NodeAt(s, id), Put(Reply(s, q, a), id, n);
    forall p | p in t.submitted && p !in t.answered ensures IsOpen(t, p) {
      assert IsOpen(s, p);
    }
    forall p | T.Stores(t.tab, p) ensures GoodPeer(t, p) {
      assert GoodPeer(s, p);
    }
    LogFrame(env, s, t);
  }

  // ----- starting queries

  /** The first waiting query moves under way if the node is free, and nothing is lost. */
  lemma StartNextInv(env: Env, s: Net, id: NodeID, now: nat)
    requires Inv(env, s, {}) && NodeAt(s, id).state != Unknown
    ensures var t := StartNextQuery(env, s, id, now);
            && Inv(env, t, {}) && Grows(s, t) && t.tab == s.tab && t.seeds == s.seeds
            && (forall j: NodeID :: NodeAt(t, j).state == NodeAt(s, j).state)
  {
    var n, t := NodeAt(s, id), StartNextQuery(env, s, id, now);
    assert NodeOk(env, s, id, {});
    if n.deferred != [] {
      var q := n.deferred[0];
      assert q in n.deferred && q.remote == RemoteNode(id);
      if n.state.CanQuery() && n.pending == None {
        assert Start(env, s, q, now) == (SendQuery(s, id, q), true);
        forall p | Holds(n, p) ensures Holds(NodeAt(t, id), p) {
          if p != q {
            var i :| 0 <= i < |n.deferred| && n.deferred[i] == p;
            assert n.deferred[1..][i - 1] == p;
          }
        }
        StartedNode(env, s, t, id);
        LocalUpdate(env, s, t, id, {});
      } else {
        assert Start(env, s, q, now) == (s, false);
      }
    }
  }

  /** The first waiting query of a free, queryable node is sent. */
  predicate Started(s: Net, t: Net, id: NodeID) {
    var n := NodeAt(s, id);
    && n.deferred != [] && n.state.CanQuery() && n.pending == None
    && t == Put(SendQuery(s, id, n.deferred[0]), id, n.(pending := Some(n.deferred[0]), deferred := n.deferred[1..]))
  }

  lemma StartedLocal(s: Net, t: Net, id: NodeID)
    requires id in s.nodes && Started(s, t, id)
    ensures Local(s, t, id)
  {
  }

  lemma StartedNode(env: Env, s: Net, t: Net, id: NodeID)
    requires id in s.nodes && NodeOk(env, s, id, {}) && Started(s, t, id)
    ensures Local(s, t, id) && NodeOk(env, t, id, {})
  {
    StartedLocal(s, t, id);
    StateKept(env, s, t, id);
    StartedQueries(s, t, id);
  }

  lemma StartedQueries(s: Net, t: Net, id: NodeID)
    requires QueriesOk(s, id) && Started(s, t, id)
    ensures QueriesOk(t, id)
  {
    var n := NodeAt(s, id);
    var q := n.deferred[0];
    assert q in n.deferred;
    assert SentFindnodeHash(id, q.target) in t.log;
    forall p | p in n.deferred[1..] ensures p != q && p in n.deferred {
      var i :| 0 <= i < |n.deferred[1..]| && n.deferred[1..][i] == p;
      assert n.deferred[i + 1] == p;
    }
  }

  /** A new query under way or in line at its node. */
  lemma EnqueueInv(env: Env, s: Net, t: Net, id: NodeID, q: Query)
    requires Inv(env, s, {}) && q !in s.submitted && q.remote == RemoteNode(id)
    requires t.submitted == s.submitted + {q} && Local(s, t.(submitted := s.submitted), id)
    requires NodeOk(env, t, id, {})
    requires forall p :: Holds(NodeAt(s, id), p) || p == q ==> Holds(NodeAt(t, id), p)
    requires NodeAt(s, id).state.CanQuery() ==> NodeAt(t, id).state.CanQuery()
    requires forall e :: e in t.log && e !in s.log ==> EffectOk(env, t, e)
    ensures Inv(env, t, {})
  {
    assert Grows(s, t);
    forall j: NodeID ensures NodeOk(env, t, j, {}) {
      if j != id {
        assert SameNode(s, t.(submitted := s.submitted), j) && NodeOk(env, s, j, {});
        assert SameNode(s, t, j);
        NodeFrame(env, s, t, j, {});
      }
    }
    LogFrame(env, s, t);
    forall p | p in t.submitted && p !in t.answered ensures IsOpen(t, p) {
      if p != q {
        assert IsOpen(s, p);
        if p.remote.id != id { assert SameNode(s, t.(submitted := s.submitted), p.remote.id); }
      }
    }
    forall c: nat ensures |Chan(t, c)| == |AnsweredOn(t.answered, c)| {
      assert |Chan(s, c)| == |AnsweredOn(s.answered, c)|;
    }
    forall c: nat, a | a in Chan(t, c) ensures GoodAnswer(t, a) {
      assert a in Chan(s, c) && GoodAnswer(s, a);
    }
    forall p | T.Stores(t.tab, p) ensures GoodPeer(t, p) {
      assert GoodPeer(s, p);
      if p.id != id { assert SameNode(s, t.(submitted := s.submitted), p.id); }
    }
  }

  /** deferQuery after a failed start. */
  lemma DeferInv(env: Env, s: Net, q: Query)
    requires Inv(env, s, {}) && q !in s.submitted && q.remote.RemoteNode? && NodeAt(s, q.remote.id).state != Unknown
    ensures Inv(env, DeferQuery(s.(submitted := s.submitted + {q}), q.remote.id, q), {})
  {
    var id := q.remote.id;
    var t := DeferQuery(s.(submitted := s.submitted + {q}), id, q);
    assert NodeOk(env, s, id, {});
    EnqueuedNode(env, s, t, id, q);
    EnqueueInv(env, s, t, id, q);
  }

  /** The two places where a new query can end up. */
  predicate Enqueued(s: Net, t: Net, id: NodeID, q: Query) {
    var u := s.(submitted := s.submitted + {q});
    || (NodeAt(s, id).state != Unknown && t == DeferQuery(u, id, q))
    || (NodeAt(s, id).state.CanQuery() && NodeAt(s, id).pending == None && t == SendQuery(u, id, q))
  }

  lemma EnqueuedLocal(s: Net, t: Net, id: NodeID, q: Query)
    requires Enqueued(s, t, id, q)
    ensures Local(s, t.(submitted := s.submitted), id) && Grows(s, t)
  {
  }

  lemma EnqueuedNode(env: Env, s: Net, t: Net, id: NodeID, q: Query)
    requires NodeOk(env, s, id, {}) && q !in s.submitted && s.answered <= s.submitted && q.remote == RemoteNode(id)
    requires Enqueued(s, t, id, q)
    ensures Local(s, t.(submitted := s.submitted), id)
    ensures NodeOk(env, t, id, {})
  {
    EnqueuedLocal(s, t, id, q);
    StateKept(env, s, t, id);
    EnqueuedQueries(s, t, id, q);
  }

  lemma EnqueuedQueries(s: Net, t: Net, id: NodeID, q: Query)
    requires QueriesOk(s, id) && q !in s.submitted && s.answered <= s.submitted && q.remote == RemoteNode(id)
    requires Enqueued(s, t, id, q)
    ensures QueriesOk(t, id)
  {
    var n, m := NodeAt(s, id), NodeAt(t, id);
    if t == SendQuery(s.(submitted := s.submitted + {q}), id, q) {
      assert SentFindnodeHash(id, q.target) in t.log;
    } else {
      assert m.deferred == n.deferred + [q] && q !in n.deferred;
    }
  }

  /** findnodeQuery.start on a free, queryable node. */
  lemma SendQueryInv(env: Env, s: Net, q: Query, now: nat)
    requires Inv(env, s, {}) && q !in s.submitted && q.remote.RemoteNode?
    requires NodeAt(s, q.remote.id).state.CanQuery() && NodeAt(s, q.remote.id).pending == None
    ensures Inv(env, SendQuery(s.(submitted := s.submitted + {q}), q.remote.id, q), {})
  {
    var id := q.remote.id;
    var t := SendQuery(s.(submitted := s.submitted + {q}), id, q);
    assert NodeOk(env, s, id, {});
    EnqueuedNode(env, s, t, id, q);
    EnqueueInv(env, s, t, id, q);
  }

  lemma FoundStored(s: Net, target: Hash, i: nat)
    requires TabOk(s) && i < |ClosestIds(s, target)|
    ensures GoodPeer(s, PeerOf(ClosestIds(s, target)[i]))
  {
    var ps := T.Closest(s.tab, target, T.BUCKET_SIZE);
    T.ClosestStored(s.tab, target, T.BUCKET_SIZE, ps[i]);
    assert GoodPeer(s, ps[i]);
  }

  lemma {:induction false} AllFoundAt(ids: seq<NodeID>, i: nat)
    requires i < |ids|
    ensures AllFound(ids)[i] == Some(ids[i])
  {
    if i < |ids| - 1 { AllFoundAt(ids[..|ids| - 1], i); }
  }

  /** A query to ourselves is answered on the spot from the table. */
  lemma LocalQueryInv(env: Env, s: Net, q: Query, now: nat)
    requires Inv(env, s, {}) && q !in s.submitted && q.remote == LocalNode
    ensures Inv(env, Start(env, s.(submitted := s.submitted + {q}), q, now).0, {})
  {
    var ids := ClosestIds(s, env.keccakHash(q.target));
    var a := AllFound(ids);
    var u := s.(submitted := s.submitted + {q});
    assert ClosestIds(u, env.keccakHash(q.target)) == ids;
    var t := Reply(u, q, a);
    assert Start(env, u, q, now).0 == t;
    forall j: NodeID ensures NodeOk(env, t, j, {}) {
      assert SameNode(s, t, j) && NodeOk(env, s, j, {});
      NodeFrame(env, s, t, j, {});
    }
    forall i | 0 <= i < |a| && a[i].Some? ensures a[i].value != s.tab.self.id && a[i].value in s.nodes {
      AllFoundAt(ids, i);
      FoundStored(s, env.keccakHash(q.target), i);
    }
    forall c: nat ensures |Chan(u, c)| == |AnsweredOn(u.answered, c)| {
      assert |Chan(s, c)| == |AnsweredOn(s.answered, c)|;
    }
    AnswerChans(u, q, a);
    assert AnswersOk(u) by {
      forall c: nat, b | b in Chan(u, c) ensures GoodAnswer(u, b) {
        assert b in Chan(s, c) && GoodAnswer(s, b);
      }
    }
    AnswerAnswers(u, q, a);
    LogFrame(env, s, t);
    forall p | p in t.submitted && p !in t.answered ensures IsOpen(t, p) {
      assert IsOpen(s, p);
    }
    forall p | T.Stores(t.tab, p) ensures GoodPeer(t, p) {
      assert GoodPeer(s, p);
    }
  }

  lemma SubmitInv(env: Env, s: Net, q: Query, now: nat)
    requires Inv(env, s, {}) && Hashing(env) && Enabled(s, Submit(q))
    ensures Inv(env, SubmitQuery(env, s, q, now), {})
  {
    var u := s.(submitted := s.submitted + {q});
    match q.remote
    case LocalNode => LocalQueryInv(env, s, q, now);
    case RemoteNode(id) =>
      var n := NodeAt(s, id);
      assert NodeAt(u, id) == n;
      if n.state.CanQuery() && n.pending == None {
        SendQueryInv(env, s, q, now);
      } else if n.state == Unknown {
        VerifyInitInv(env, s, id, now, {});
        var t := Transition(env, s, id, VerifyInit, now);
        DeferInv(env, t, q);
        assert Transition(env, u, id, VerifyInit, now) == t.(submitted := t.submitted + {q});
      } else {
        DeferInv(env, s, q);
      }
  }
}
