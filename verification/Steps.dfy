/** Every handler, every arm of the event loop, and therefore every run keeps the invariant. */
module Steps {
  import opened Slices
  import opened Words
  import opened NodesByDistance
  import opened Protocol
  import opened Invariants
  import opened Preservation

  // ----- entering known and unknown

  /** The node as known.enter first leaves it. */
  function MadeKnown(s: Net, id: NodeID): Net {
    Put(s, id, NodeAt(s, id).(state := Known, queryTimeouts := 0))
  }

  /** known.enter: next query, table insertion, and revalidation of the entry it challenges. */
  lemma BecomeKnown(env: Env, s: Net, id: NodeID, now: nat)
    requires Hashing(env) && NodeAt(s, id).state != Known && Inv(env, MadeKnown(s, id), {})
    ensures Inv(env, Transition(env, s, id, Known, now), {})
  {
    var s0 := MadeKnown(s, id);
    var s1 := Put(s, id, NodeAt(s, id).(state := Known));
    assert Transition(env, s, id, Known, now) == Enter(env, s1, id, Known, now) == EnterKnown(env, s1, id, now);
    assert Put(s1, id, NodeAt(s1, id).(queryTimeouts := 0)) == s0 by {
      assert s.nodes[id := NodeAt(s1, id)][id := NodeAt(s0, id)] == s.nodes[id := NodeAt(s0, id)];
    }
    EnteredKnown(env, s1, s0, id, now);
  }

  lemma EnteredKnown(env: Env, s: Net, s0: Net, id: NodeID, now: nat)
    requires Hashing(env) && Inv(env, s0, {}) && id in s0.nodes && NodeAt(s0, id).state == Known
    requires s0 == Put(s, id, NodeAt(s, id).(queryTimeouts := 0))
    ensures Inv(env, EnterKnown(env, s, id, now), {})
  {
    StartNextInv(env, s0, id, now);
    var t := StartNextQuery(env, s0, id, now);
    TabAddInv(env, t, id, {});
    var u, last := TabAdd(t, id), TabChallenges(t, id);
    if last.Some? && NodeAt(u, last.value.id).state == Known {
      ContestedInv(env, u, last.value.id, now, {});
    }
  }

  lemma {:induction false} ReplyNilFields(s: Net, t: Net, qs: seq<Query>)
    requires s.chans == t.chans && s.answered == t.answered
    ensures ReplyNil(t, qs) == t.(chans := ReplyNil(s, qs).chans, answered := ReplyNil(s, qs).answered)
  {
    if qs != [] { ReplyNilFields(s, t, qs[..|qs| - 1]); }
  }

  /** The first k waiting queries of a node are answered with nil and gone. */
  function Dropped(s: Net, id: NodeID, n: Node, qs: seq<Query>, k: nat): Net
    requires k <= |qs|
  {
    Put(ReplyNil(s, qs[..k]), id, n.(deferred := qs[k..]))
  }

  lemma NextDropped(s: Net, id: NodeID, n: Node, qs: seq<Query>, k: nat)
    requires k < |qs|
    ensures Put(Reply(Dropped(s, id, n, qs, k), qs[k], []), id, n.(deferred := qs[k + 1..])) == Dropped(s, id, n, qs, k + 1)
  {
    assert qs[..k + 1][..k] == qs[..k];
    var u := ReplyNil(s, qs[..k]);
    ReplyNilFields(s, s, qs[..k]);
    assert u.nodes[id := n.(deferred := qs[k..])][id := n.(deferred := qs[k + 1..])]
        == u.nodes[id := n.(deferred := qs[k + 1..])];
  }

  lemma DropOne(env: Env, s: Net, id: NodeID, n: Node, qs: seq<Query>, k: nat)
    requires k < |qs| && n.pending == None && Inv(env, Dropped(s, id, n, qs, k), {})
    ensures Inv(env, Dropped(s, id, n, qs, k + 1), {})
  {
    var v := Dropped(s, id, n, qs, k);
    assert NodeAt(v, id) == n.(deferred := qs[k..]) && qs[k..][1..] == qs[k + 1..];
    AnswerInv(env, v, id, qs[k], [], n.(deferred := qs[k + 1..]), {}, {});
    NextDropped(s, id, n, qs, k);
  }

  /** Aborting the deferred queries of a node, one nil reply each. */
  lemma DropDeferred(env: Env, s: Net, id: NodeID)
    requires Inv(env, s, {}) && id in s.nodes && NodeAt(s, id).pending == None
    ensures Inv(env, Put(ReplyNil(s, NodeAt(s, id).deferred), id, NodeAt(s, id).(deferred := [])), {})
  {
    var n := NodeAt(s, id);
    var qs := n.deferred;
    assert qs[..0] == [] && qs[0..] == qs && Dropped(s, id, n, qs, 0) == s;
    for k := 0 to |qs|
      invariant Inv(env, Dropped(s, id, n, qs, k), {})
    {
      DropOne(env, s, id, n, qs, k);
    }
    assert qs[..|qs|] == qs && qs[|qs|..] == [];
  }

  function MadeUnknown(n: Node): Node {
    n.(state := Unknown, pingEcho := None, deferred := [], queryTimeouts := 0)
  }

  /** What unknown.enter leaves when no query is under way. */
  lemma EnteredUnknown(s: Net, id: NodeID)
    requires id in s.nodes && NodeAt(s, id).pending == None
    ensures var n := NodeAt(s, id);
            EnterUnknown(Put(Disarm(s, PongTimeout, id), id, n.(state := Unknown)), id)
            == Put(Disarm(ReplyNil(TabDelete(s, id), n.deferred), PongTimeout, id), id, MadeUnknown(n))
  {
    var n := NodeAt(s, id);
    var w := Put(Disarm(s, PongTimeout, id), id, n.(state := Unknown));
    ReplyNilFields(TabDelete(s, id), TabDelete(w, id), n.deferred);
    ReplyNilFields(TabDelete(s, id), TabDelete(s, id), n.deferred);
    assert s.nodes[id := n.(state := Unknown)][id := MadeUnknown(n)] == s.nodes[id := MadeUnknown(n)];
  }

  lemma ForgottenNode(env: Env, v: Net, t: Net, id: NodeID)
    requires NodeOk(env, v, id, {}) && Verifying(NodeAt(v, id).state) && NodeAt(v, id).deferred == []
    requires t == Put(Disarm(v, PongTimeout, id), id, MadeUnknown(NodeAt(v, id)))
    ensures Local(v, t, id) && NodeOk(env, t, id, {})
  {
  }

  /** unknown.enter after a verification timed out. */
  lemma BecomeUnknown(env: Env, s: Net, id: NodeID, now: nat)
    requires Inv(env, s, {}) && id in s.nodes && Verifying(NodeAt(s, id).state)
    ensures Inv(env, Transition(env, Disarm(s, PongTimeout, id), id, Unknown, now), {})
  {
    assert NodeOk(env, s, id, {});
    var n, u := NodeAt(s, id), TabDelete(s, id);
    TabDeleteInv(env, s, id, {});
    DropDeferred(env, u, id);
    var v := Put(ReplyNil(u, n.deferred), id, n.(deferred := []));
    var t := Transition(env, Disarm(s, PongTimeout, id), id, Unknown, now);
    EnteredUnknown(s, id);
    UnknownFromDropped(s, id, v, t);
    assert NodeOk(env, v, id, {});
    ForgottenNode(env, v, t, id);
    LocalUpdate(env, v, t, id, {});
  }

  lemma UnknownFromDropped(s: Net, id: NodeID, v: Net, t: Net)
    requires id in s.nodes
    requires v == Put(ReplyNil(TabDelete(s, id), NodeAt(s, id).deferred), id, NodeAt(s, id).(deferred := []))
    requires t == Put(Disarm(ReplyNil(TabDelete(s, id), NodeAt(s, id).deferred), PongTimeout, id), id, MadeUnknown(NodeAt(s, id)))
    ensures t == Put(Disarm(v, PongTimeout, id), id, MadeUnknown(NodeAt(v, id)))
  {
    ReplyNilFields(TabDelete(s, id), TabDelete(s, id), NodeAt(s, id).deferred);
    assert t.nodes == v.nodes[id := MadeUnknown(NodeAt(v, id))];
  }

  // ----- neighbours

  /** Nothing happens to queries or to nodes that have left unknown. */
  ghost predicate Calm(s: Net, t: Net) {
    && Grows(s, t)
    && forall j: NodeID ::
         && NodeAt(t, j).pending == NodeAt(s, j).pending && NodeAt(t, j).deferred == NodeAt(s, j).deferred
         && (NodeAt(s, j).state != Unknown ==> NodeAt(t, j).state == NodeAt(s, j).state)
  }

  lemma InternNeighbourInv(env: Env, s: Net, ip: Bytes, rn: RpcNode, d: set<NodeID>)
    requires Inv(env, s, d)
    ensures var (t, nn) := InternNeighbour(env, s, ip, rn);
            && Inv(env, t, d) && Calm(s, t)
            && (nn.Some? ==> nn.value != s.tab.self.id && nn.value in t.nodes)
  {
    var (t, nn) := InternNeighbour(env, s, ip, rn);
    EndpointInv(env, s, rn.id, NodeAt(t, rn.id).ep, d);
    if t != s {
      assert t == Put(s, rn.id, NodeAt(s, rn.id).(ep := NodeAt(t, rn.id).ep));
      LocalIsCalm(s, t, rn.id);
    }
  }

  lemma LocalIsCalm(s: Net, t: Net, id: NodeID)
    requires Local(s, t, id)
    requires NodeAt(t, id).pending == NodeAt(s, id).pending && NodeAt(t, id).deferred == NodeAt(s, id).deferred
    requires NodeAt(s, id).state != Unknown ==> NodeAt(t, id).state == NodeAt(s, id).state
    ensures Calm(s, t)
  {
    forall j: NodeID ensures NodeAt(t, j).pending == NodeAt(s, j).pending && NodeAt(t, j).deferred == NodeAt(s, j).deferred {
      if j != id { assert SameNode(s, t, j); }
    }
    forall j: NodeID | NodeAt(s, j).state != Unknown ensures NodeAt(t, j).state == NodeAt(s, j).state {
      if j != id { assert SameNode(s, t, j); }
    }
  }

  lemma MeetNeighbourInv(env: Env, s: Net, ip: Bytes, rn: RpcNode, now: nat, d: set<NodeID>)
    requires Inv(env, s, d) && Hashing(env)
    ensures var (t, nn) := MeetNeighbour(env, s, ip, rn, now);
            && Inv(env, t, d) && Calm(s, t)
            && (nn.Some? ==> nn.value != s.tab.self.id && nn.value in t.nodes)
  {
    InternNeighbourInv(env, s, ip, rn, d);
    var (u, nn) := InternNeighbour(env, s, ip, rn);
    if nn.Some? && NodeAt(u, nn.value).state == Unknown {
      VerifyInitInv(env, u, nn.value, now, d);
      var t := Transition(env, u, nn.value, VerifyInit, now);
      assert t == SendPing(env, Put(u, nn.value, NodeAt(u, nn.value).(state := VerifyInit)), nn.value, OwnAddress(NodeAt(u, nn.value)), now);
      LocalIsCalm(u, t, nn.value);
    }
  }

  lemma {:induction false} MeetNeighboursInv(env: Env, s: Net, ip: Bytes, rns: seq<RpcNode>, now: nat, d: set<NodeID>)
    requires Inv(env, s, d) && Hashing(env)
    ensures var (t, a) := MeetNeighbours(env, s, ip, rns, now);
            Inv(env, t, d) && Calm(s, t) && GoodAnswer(t, a)
  {
    if rns != [] {
      MeetNeighboursInv(env, s, ip, rns[..|rns| - 1], now, d);
      var (t, a) := MeetNeighbours(env, s, ip, rns[..|rns| - 1], now);
      MeetNeighbourInv(env, t, ip, rns[|rns| - 1], now, d);
    }
  }

  /** With its timer off, a node's pending query counts as disarmed. */
  lemma DisarmPending(env: Env, s: Net, id: NodeID)
    requires Inv(env, s, {}) && id in s.nodes && NodeAt(s, id).pending.Some?
    ensures Inv(env, Disarm(s, NeighboursTimeout, id), {id})
  {
    var t := Disarm(s, NeighboursTimeout, id);
    assert Local(s, t, id);
    forall j: NodeID ensures NodeOk(env, t, j, {id}) {
      assert NodeOk(env, s, j, {});
      StateGrows(env, s, t, j);
    }
    LogFrame(env, s, t);
    LocalConserved(s, t, id);
    LocalTab(s, t, id);
    forall c: nat ensures |Chan(t, c)| == |AnsweredOn(t.answered, c)| {
      assert |Chan(s, c)| == |AnsweredOn(s.answered, c)|;
    }
    forall c: nat, a | a in Chan(t, c) ensures GoodAnswer(t, a) {
      assert a in Chan(s, c) && GoodAnswer(s, a);
    }
  }

  lemma HandleNeighboursInv(env: Env, s: Net, id: NodeID, pkt: Packet, now: nat)
    requires Inv(env, s, {}) && Hashing(env) && id in s.nodes && pkt.body.Neighbors?
    ensures Inv(env, HandleNeighbours(env, s, id, pkt, now).0, {})
    ensures NodeAt(HandleNeighbours(env, s, id, pkt, now).0, id).state == NodeAt(s, id).state
  {
    var pending := NodeAt(s, id).pending;
    if pending.Some? {
      assert NodeOk(env, s, id, {});
      DisarmPending(env, s, id);
      var u := Disarm(s, NeighboursTimeout, id);
      MeetNeighboursInv(env, u, pkt.ip, pkt.body.nodes, now, {id});
      var (t, a) := MeetNeighbours(env, u, pkt.ip, pkt.body.nodes, now);
      assert NodeAt(t, id).pending == pending;
      AnswerInv(env, t, id, pending.value, a, NodeAt(t, id).(pending := None), {id}, {});
      var v := Put(Reply(t, pending.value, a), id, NodeAt(t, id).(pending := None));
      StartNextInv(env, v, id, now);
    }
  }
}
