/** What a step does to nodes that it is not about, and from it exactly when a query is left waiting at an idle
    node and when a node becomes contested without a timer. */
module Waiting {
  import opened Slices
  import opened Words
  import opened NodesByDistance
  import opened Protocol
  import opened Invariants
  import opened Monotone
  import opened Preservation
  import opened Steps
  import opened Runs
  import opened Theorems

  /** Queries wait at a node that could be asked and is not. */
  predicate Idle(s: Net, id: NodeID) {
    var n := NodeAt(s, id);
    n.state.CanQuery() && n.pending == None && n.deferred != []
  }

  predicate PongTimed(s: Net, id: NodeID) {
    Timeout(PongTimeout, id) in s.timers
  }

  /** A contested node is left alone; a known node is too, or becomes contested, with a timer if no ping to it
      was outstanding. */
  predicate Bystander(s: Net, t: Net, j: NodeID) {
    var m, n := NodeAt(s, j), NodeAt(t, j);
    var same := n.state == m.state && n.pingEcho == m.pingEcho && (PongTimed(t, j) <==> PongTimed(s, j));
    && (m.state == Contested ==> same)
    && (m.state == Known ==>
          same || (n.state == Contested && (PongTimed(t, j) <==> PongTimed(s, j) || m.pingEcho == None)))
  }

  predicate SparedAt(s: Net, t: Net, j: NodeID) {
    (Idle(t, j) ==> Idle(s, j)) && (j != s.tab.self.id ==> Bystander(s, t, j))
  }

  /** Nobody but node a is disturbed. */
  ghost predicate Others(a: NodeID, s: Net, t: Net) {
    t.tab.self == s.tab.self && forall j: NodeID :: j != a ==> SparedAt(s, t, j)
  }

  /** Waiting queries are about the node at which they wait. */
  ghost predicate Aimed(s: Net, a: NodeID) {
    forall q :: q in NodeAt(s, a).deferred ==> q.remote == RemoteNode(a)
  }

  /** Node a does not become idle either, and its line stays in order. */
  ghost predicate Tame(a: NodeID, s: Net, t: Net) {
    Others(a, s, t) && (Idle(t, a) ==> Idle(s, a)) && (Aimed(s, a) ==> Aimed(t, a))
  }

  lemma OthersTrans(a: NodeID, s: Net, t: Net, u: Net)
    requires Others(a, s, t) && Others(a, t, u)
    ensures Others(a, s, u)
  {
    forall j: NodeID | j != a ensures SparedAt(s, u, j) {
      assert SparedAt(s, t, j) && SparedAt(t, u, j);
    }
  }

  lemma TameTrans(a: NodeID, s: Net, t: Net, u: Net)
    requires Tame(a, s, t) && Tame(a, t, u)
    ensures Tame(a, s, u)
  {
    OthersTrans(a, s, t, u);
  }

  /** The others keep everything but perhaps their address. */
  ghost predicate OnlyActor(a: NodeID, s: Net, t: Net) {
    && t.tab.self == s.tab.self
    && forall j: NodeID :: j != a ==>
         NodeAt(t, j) == NodeAt(s, j).(ep := NodeAt(t, j).ep) && (PongTimed(t, j) <==> PongTimed(s, j))
  }

  lemma ActorAlone(a: NodeID, s: Net, t: Net)
    requires OnlyActor(a, s, t)
    ensures Others(a, s, t)
  {
    forall j: NodeID | j != a ensures SparedAt(s, t, j) {
      assert NodeAt(t, j) == NodeAt(s, j).(ep := NodeAt(t, j).ep);
    }
  }

  /** A change of the actor that leaves its line and its chances to be idle alone. */
  lemma ActorTame(a: NodeID, s: Net, t: Net)
    requires OnlyActor(a, s, t) && NodeAt(t, a).deferred == NodeAt(s, a).deferred && (Idle(t, a) ==> Idle(s, a))
    ensures Tame(a, s, t)
  {
    ActorAlone(a, s, t);
  }

  // ----- building blocks

  /** Verification of an unknown node, or revalidation of a known one, whoever acts. */
  lemma ContactTame(env: Env, a: NodeID, s: Net, j: NodeID, next: NodeState, now: nat)
    requires (next == VerifyInit && NodeAt(s, j).state == Unknown) || (next == Contested && NodeAt(s, j).state == Known)
    ensures Tame(a, s, Transition(env, s, j, next, now))
  {
    var u := SetState(s, j, next);
    var t := SendPing(env, u, j, OwnAddress(NodeAt(u, j)), now);
    assert Transition(env, s, j, next, now) == Enter(env, u, j, next, now) == t;
    assert OnlyActor(j, s, t);
    ActorTame(j, s, t);
    if j != a {
      assert NodeAt(t, a) == NodeAt(s, a).(ep := NodeAt(t, a).ep);
      forall k: NodeID | k != a ensures SparedAt(s, t, k) {
        if k != j { assert SparedAt(s, t, k); }
      }
    }
  }

  lemma StartNextTame(env: Env, s: Net, a: NodeID, now: nat)
    requires Aimed(s, a)
    ensures var t := StartNextQuery(env, s, a, now); Tame(a, s, t) && !Idle(t, a)
  {
    var n, t := NodeAt(s, a), StartNextQuery(env, s, a, now);
    if n.deferred == [] {
      ActorTame(a, s, s);
    } else {
      var q := n.deferred[0];
      assert q in n.deferred && q.remote == RemoteNode(a);
      if n.state.CanQuery() && n.pending == None {
        assert Start(env, s, q, now) == (SendQuery(s, a, q), true);
        assert OnlyActor(a, s, t);
        ActorAlone(a, s, t);
        forall p | p in NodeAt(t, a).deferred ensures p.remote == RemoteNode(a) {
          assert p in n.deferred;
        }
      } else if n.state == Unknown {
        assert Start(env, s, q, now) == (Transition(env, s, a, VerifyInit, now), false);
        ContactTame(env, a, s, a, VerifyInit, now);
      } else {
        assert Start(env, s, q, now) == (s, false);
        ActorTame(a, s, s);
      }
    }
  }

  lemma InsertKnownTame(env: Env, s: Net, a: NodeID, now: nat)
    ensures Tame(a, s, InsertKnown(env, s, a, now))
  {
    var last, u := TabChallenges(s, a), TabAdd(s, a);
    assert OnlyActor(a, s, u);
    ActorTame(a, s, u);
    if last.Some? && NodeAt(u, last.value.id).state == Known {
      ContactTame(env, a, u, last.value.id, Contested, now);
      TameTrans(a, s, u, InsertKnown(env, s, a, now));
    }
  }

  /** Whatever it was before, a node that becomes known is not idle. */
  lemma BecomeKnownTame(env: Env, s: Net, a: NodeID, now: nat)
    requires Aimed(s, a) && NodeAt(s, a).state != Known
    ensures Tame(a, s, Transition(env, s, a, Known, now))
  {
    var s1 := SetState(s, a, Known);
    var s2 := ResetFailures(s1, a);
    var s3 := StartNextQuery(env, s2, a, now);
    var t := InsertKnown(env, s3, a, now);
    assert Transition(env, s, a, Known, now) == Enter(env, s1, a, Known, now) == EnterKnown(env, s1, a, now) == t;
    assert OnlyActor(a, s, s2);
    ActorAlone(a, s, s2);
    assert Aimed(s2, a);
    StartNextTame(env, s2, a, now);
    InsertKnownTame(env, s3, a, now);
    OthersTrans(a, s, s2, s3);
    OthersTrans(a, s, s3, t);
  }

  lemma BecomeUnknownTame(env: Env, s: Net, a: NodeID, now: nat)
    requires NodeAt(s, a).state != Unknown
    ensures Tame(a, s, Transition(env, s, a, Unknown, now))
  {
    var u := SetState(s, a, Unknown);
    var t := Transition(env, s, a, Unknown, now);
    assert t == Enter(env, u, a, Unknown, now) == EnterUnknown(u, a);
    AbortKeepsNodes(TabDelete(u, a), a);
    assert OnlyActor(a, s, t);
    ActorAlone(a, s, t);
  }

  lemma AbortKeepsNodes(s: Net, a: NodeID)
    ensures var t := AbortQueries(s, a); t.nodes == s.nodes && t.timers == s.timers && t.tab == s.tab
  {
    ReplyNilFields(s, s, NodeAt(s, a).deferred);
  }

  /** Into a queryable state other than known, only from a queryable state. */
  predicate Orderly(s: Net, a: NodeID, next: NodeState) {
    next.CanQuery() && next != Known ==> NodeAt(s, a).state.CanQuery()
  }

  lemma TransitionTame(env: Env, s: Net, a: NodeID, next: NodeState, now: nat)
    requires Aimed(s, a) && Orderly(s, a, next)
    ensures Tame(a, s, Transition(env, s, a, next, now))
  {
    if NodeAt(s, a).state == next {
      ActorTame(a, s, s);
    } else if next == Known {
      BecomeKnownTame(env, s, a, now);
    } else if next == Unknown {
      BecomeUnknownTame(env, s, a, now);
    } else {
      var u, t := SetState(s, a, next), Transition(env, s, a, next, now);
      assert t == Enter(env, u, a, next, now);
      assert OnlyActor(a, s, t);
      ActorTame(a, s, t);
    }
  }

  // ----- neighbours

  lemma MeetNeighbourTame(env: Env, a: NodeID, s: Net, ip: Bytes, rn: RpcNode, now: nat)
    ensures Tame(a, s, MeetNeighbour(env, s, ip, rn, now).0)
  {
    var (t, nn) := InternNeighbour(env, s, ip, rn);
    assert OnlyActor(a, s, t) && NodeAt(t, a) == NodeAt(s, a).(ep := NodeAt(t, a).ep);
    ActorTame(a, s, t);
    if nn.Some? && NodeAt(t, nn.value).state == Unknown {
      ContactTame(env, a, t, nn.value, VerifyInit, now);
      TameTrans(a, s, t, Transition(env, t, nn.value, VerifyInit, now));
    }
  }

  lemma {:induction false} MeetNeighboursTame(env: Env, a: NodeID, s: Net, ip: Bytes, rns: seq<RpcNode>, now: nat)
    ensures Tame(a, s, MeetNeighbours(env, s, ip, rns, now).0)
  {
    if rns == [] {
      ActorTame(a, s, s);
    } else {
      var t := MeetNeighbours(env, s, ip, rns[..|rns| - 1], now).0;
      MeetNeighboursTame(env, a, s, ip, rns[..|rns| - 1], now);
      MeetNeighbourTame(env, a, t, ip, rns[|rns| - 1], now);
      TameTrans(a, s, t, MeetNeighbour(env, t, ip, rns[|rns| - 1], now).0);
    }
  }

  lemma FinishQueryTame(env: Env, s: Net, a: NodeID, q: Query, answer: Answer, now: nat)
    requires Aimed(s, a)
    ensures Tame(a, s, FinishQuery(env, s, a, q, answer, now))
  {
    var u := Reply(s, q, answer);
    var v := Put(u, a, NodeAt(u, a).(pending := None));
    assert OnlyActor(a, s, v) && Aimed(v, a);
    ActorAlone(a, s, v);
    StartNextTame(env, v, a, now);
    OthersTrans(a, s, v, FinishQuery(env, s, a, q, answer, now));
  }

  lemma HandleNeighboursTame(env: Env, s: Net, a: NodeID, pkt: Packet, now: nat)
    requires Aimed(s, a) && pkt.body.Neighbors?
    ensures Tame(a, s, HandleNeighbours(env, s, a, pkt, now).0)
  {
    var pending := NodeAt(s, a).pending;
    if pending == None {
      ActorTame(a, s, s);
    } else {
      var d := Disarm(s, NeighboursTimeout, a);
      assert OnlyActor(a, s, d);
      ActorTame(a, s, d);
      MeetNeighboursTame(env, a, d, pkt.ip, pkt.body.nodes, now);
      var (t, answer) := MeetNeighbours(env, d, pkt.ip, pkt.body.nodes, now);
      FinishQueryTame(env, t, a, pending.value, answer, now);
      TameTrans(a, s, d, t);
      TameTrans(a, s, t, FinishQuery(env, t, a, pending.value, answer, now));
    }
  }

  // ----- handlers

  predicate IsQueryTimeout(ev: Event) {
    ev == TimerFired(NeighboursTimeout)
  }

  ghost predicate HandledTame(s: Net, a: NodeID, h: Handled) {
    Tame(a, s, h.net) && Orderly(h.net, a, h.next)
  }

  lemma SameTame(a: NodeID, s: Net, t: Net)
    requires t.tab.self == s.tab.self && t.nodes == s.nodes
    requires forall j: NodeID :: j != a ==> (PongTimed(t, j) <==> PongTimed(s, j))
    ensures Tame(a, s, t)
  {
    assert OnlyActor(a, s, t);
    ActorTame(a, s, t);
  }

  lemma PingTame(env: Env, s: Net, a: NodeID, ev: Event, now: nat)
    requires IsPing(ev)
    ensures HandledTame(s, a, HandleInState(env, s, a, ev, now))
  {
    var t := HandlePing(s, a, ev.pkt, now);
    var u := SendPing(env, t, a, MakeEndpoint(ev.pkt.ip, ev.pkt.port, ev.pkt.port), now);
    assert OnlyActor(a, s, t) && OnlyActor(a, s, u);
    ActorTame(a, s, t);
    ActorTame(a, s, u);
  }

  lemma UnverifiedTame(env: Env, s: Net, a: NodeID, ev: Event, now: nat)
    requires !IsPing(ev) && !NodeAt(s, a).state.CanQuery()
    ensures HandledTame(s, a, HandleInState(env, s, a, ev, now))
  {
    var t := HandleKnownPong(s, a);
    assert OnlyActor(a, s, t);
    ActorTame(a, s, t);
    ActorTame(a, s, s);
  }

  lemma QueryableTame(env: Env, s: Net, a: NodeID, ev: Event, now: nat)
    requires !IsPing(ev) && !IsQueryTimeout(ev) && NodeAt(s, a).state.CanQuery() && Aimed(s, a)
    ensures Tame(a, s, HandleInState(env, s, a, ev, now).net)
  {
    ActorTame(a, s, s);
    if IsPong(ev) {
      var t := HandleKnownPong(s, a);
      assert OnlyActor(a, s, t);
      ActorTame(a, s, t);
    } else if ev == TimerFired(PongTimeout) || ev == TimerFired(PingTimeout) {
      SameTame(a, s, TabDeleteReplace(s, a));
    } else {
      QueryDispatch(env, s, a, ev, now);
      if ev.pkt.body.Neighbors? { HandleNeighboursTame(env, s, a, ev.pkt, now); }
      else { SameTame(a, s, HandleQueryEvent(env, s, a, ev, now).net); }
    }
  }

  lemma HandleInStateTame(env: Env, s: Net, a: NodeID, ev: Event, now: nat)
    requires Aimed(s, a) && Addressed(ev, a) && !IsQueryTimeout(ev)
    ensures HandledTame(s, a, HandleInState(env, s, a, ev, now))
  {
    if IsPing(ev) {
      PingTame(env, s, a, ev, now);
    } else if NodeAt(s, a).state.CanQuery() {
      QueryableTame(env, s, a, ev, now);
      HandleInStateLater(env, s, a, ev, now);
    } else {
      UnverifiedTame(env, s, a, ev, now);
    }
  }

  lemma CheckPacketTame(s: Net, pkt: Packet)
    ensures Tame(pkt.remoteID, s, CheckPacket(s, pkt.remoteID, pkt).0)
  {
    var t := CheckPacket(s, pkt.remoteID, pkt).0;
    assert OnlyActor(pkt.remoteID, s, t);
    ActorTame(pkt.remoteID, s, t);
  }

  lemma HandleTame(env: Env, s: Net, a: NodeID, ev: Event, now: nat)
    requires Aimed(s, a) && Addressed(ev, a) && !IsQueryTimeout(ev)
    ensures Tame(a, s, Handle(env, s, a, ev, now).0)
  {
    var (t, err) := if ev.PacketEvent? then CheckPacket(s, a, ev.pkt) else (s, None);
    if ev.PacketEvent? { CheckPacketTame(s, ev.pkt); } else { ActorTame(a, s, s); }
    if err.None? {
      var h := HandleInState(env, t, a, ev, now);
      HandleInStateTame(env, t, a, ev, now);
      TransitionTame(env, h.net, a, h.next, now);
      TameTrans(a, s, t, h.net);
      TameTrans(a, s, h.net, Handle(env, s, a, ev, now).0);
    }
  }

  // ----- the arms of the event loop

  lemma ReceiveTame(env: Env, s: Net, pkt: Packet, now: nat)
    requires Aimed(s, pkt.remoteID)
    ensures Tame(pkt.remoteID, s, Step(env, s, Receive(pkt), now))
  {
    var t := InternNode(s, pkt);
    assert OnlyActor(pkt.remoteID, s, t);
    ActorTame(pkt.remoteID, s, t);
    HandleTame(env, t, pkt.remoteID, PacketEvent(pkt), now);
    TameTrans(pkt.remoteID, s, t, Step(env, s, Receive(pkt), now));
  }

  lemma FireTame(env: Env, s: Net, timeout: Timeout, now: nat)
    requires Aimed(s, timeout.node) && timeout.ev != NeighboursTimeout
    ensures Tame(timeout.node, s, Step(env, s, Fire(timeout), now))
  {
    var t := Disarm(s, timeout.ev, timeout.node);
    SameTame(timeout.node, s, t);
    HandleTame(env, t, timeout.node, TimerFired(timeout.ev), now);
    TameTrans(timeout.node, s, t, Step(env, s, Fire(timeout), now));
  }

  /** A neighbours timeout is about one node. */
  lemma QueryTimeoutOthers(env: Env, s: Net, a: NodeID, now: nat)
    requires NodeAt(s, a).state.CanQuery()
    ensures Others(a, s, Step(env, s, Fire(Timeout(NeighboursTimeout, a)), now))
  {
    var d := Disarm(s, NeighboursTimeout, a);
    var u := QueryTimedOut(d, a);
    QueryTimeoutResult(env, d, a, now);
    assert OnlyActor(a, s, u);
    ActorAlone(a, s, u);
    if NodeAt(u, a).state == Known {
      ContactTame(env, a, u, a, Contested, now);
      OthersTrans(a, s, u, Transition(env, u, a, Contested, now));
    }
  }

  lemma RefreshOneTame(env: Env, s: Net, seed: RpcNode, now: nat, a: NodeID)
    ensures Tame(a, s, RefreshOne(env, s, seed, now))
  {
    var t := InternFromDB(s.(seeds := s.seeds + {seed.id}), seed);
    var u := VerifyNew(env, t, seed.id, now);
    assert OnlyActor(a, s, t) && NodeAt(t, a) == NodeAt(s, a).(ep := NodeAt(t, a).ep);
    ActorTame(a, s, t);
    if NodeAt(t, seed.id).state == Unknown {
      ContactTame(env, a, t, seed.id, VerifyInit, now);
    } else {
      ActorTame(a, t, t);
    }
    SameTame(a, u, TabAdd(u, seed.id));
    TameTrans(a, s, t, u);
    TameTrans(a, s, u, TabAdd(u, seed.id));
  }

  lemma {:induction false} RefreshTame(env: Env, s: Net, seeds: seq<RpcNode>, now: nat, a: NodeID)
    ensures Tame(a, s, RefreshSeeds(env, s, seeds, now))
  {
    if seeds == [] {
      ActorTame(a, s, s);
    } else {
      var t := RefreshSeeds(env, s, seeds[..|seeds| - 1], now);
      RefreshTame(env, s, seeds[..|seeds| - 1], now, a);
      RefreshOneTame(env, t, seeds[|seeds| - 1], now, a);
      TameTrans(a, s, t, RefreshSeeds(env, s, seeds, now));
    }
  }

  /** A node that a query waits at could not be asked at once. */
  predicate Busy(s: Net, id: NodeID) {
    !NodeAt(s, id).state.CanQuery() || NodeAt(s, id).pending != None
  }

  lemma StartSpares(env: Env, s: Net, q: Query, now: nat, j: NodeID)
    ensures var (t, started) := Start(env, s, q, now);
            SparedAt(s, t, j) && (!started && q.remote.RemoteNode? ==> Busy(t, q.remote.id))
  {
    if q.remote.RemoteNode? && NodeAt(s, q.remote.id).state == Unknown {
      var r := q.remote.id;
      ContactTame(env, r, s, r, VerifyInit, now);
      if j != r { assert SparedAt(s, Transition(env, s, r, VerifyInit, now), j); }
    }
  }

  lemma DeferSpares(s: Net, id: NodeID, q: Query, j: NodeID)
    requires Busy(s, id)
    ensures SparedAt(s, DeferQuery(s, id, q), j)
  {
  }

  lemma SparedTrans(s: Net, t: Net, u: Net, j: NodeID)
    requires SparedAt(s, t, j) && SparedAt(t, u, j) && t.tab.self == s.tab.self
    ensures SparedAt(s, u, j)
  {
  }

  /** A submission makes nobody idle, and a known node that it is about stays known. */
  lemma SubmitSpares(env: Env, s: Net, q: Query, now: nat, j: NodeID)
    ensures SparedAt(s, SubmitQuery(env, s, q, now), j)
  {
    var u := s.(submitted := s.submitted + {q});
    var t := Start(env, u, q, now).0;
    StartSpares(env, u, q, now, j);
    if !Start(env, u, q, now).1 && q.remote.RemoteNode? {
      StartLater(env, u, q, now);
      DeferSpares(t, q.remote.id, q, j);
      SparedTrans(u, t, DeferQuery(t, q.remote.id, q), j);
    }
  }

  // ----- idle nodes

  lemma InvAimed(env: Env, s: Net, a: NodeID)
    requires Inv(env, s, {})
    ensures Aimed(s, a)
  {
    assert NodeOk(env, s, a, {});
  }

  lemma FireSpares(env: Env, s: Net, timeout: Timeout, now: nat, id: NodeID)
    requires Inv(env, s, {}) && timeout in s.timers && timeout.node != id
    ensures SparedAt(s, Step(env, s, Fire(timeout), now), id)
  {
    InvAimed(env, s, timeout.node);
    assert NodeOk(env, s, timeout.node, {});
    if timeout.ev == NeighboursTimeout {
      assert timeout == Timeout(NeighboursTimeout, timeout.node);
      QueryTimeoutOthers(env, s, timeout.node, now);
    } else {
      FireTame(env, s, timeout, now);
    }
  }

  lemma ReceiveIdle(env: Env, s: Net, pkt: Packet, now: nat, id: NodeID)
    requires Inv(env, s, {})
    ensures Idle(Step(env, s, Receive(pkt), now), id) ==> Idle(s, id)
  {
    InvAimed(env, s, pkt.remoteID);
    ReceiveTame(env, s, pkt, now);
    assert id != pkt.remoteID ==> SparedAt(s, Step(env, s, Receive(pkt), now), id);
  }

  lemma FireIdle(env: Env, s: Net, timeout: Timeout, now: nat, id: NodeID)
    requires Inv(env, s, {}) && timeout in s.timers && timeout != Timeout(NeighboursTimeout, id)
    ensures Idle(Step(env, s, Fire(timeout), now), id) ==> Idle(s, id)
  {
    if timeout.node == id {
      assert timeout == Timeout(timeout.ev, id);
      InvAimed(env, s, id);
      FireTame(env, s, timeout, now);
    } else {
      FireSpares(env, s, timeout, now, id);
    }
  }

  /** Only a neighbours timeout of the node itself can make a node idle. */
  lemma OnlyTimeoutsIdle(env: Env, s: Net, i: Input, now: nat, id: NodeID)
    requires Inv(env, s, {}) && Enabled(s, i) && i != Fire(Timeout(NeighboursTimeout, id))
    ensures Idle(Step(env, s, i, now), id) ==> Idle(s, id)
  {
    match i
    case Receive(pkt) => ReceiveIdle(env, s, pkt, now, id);
    case Fire(timeout) => FireIdle(env, s, timeout, now, id);
    case Submit(q) => SubmitSpares(env, s, q, now, id);
    case Refresh(seeds) => RefreshTame(env, s, seeds, now, id);
  }

  /** Exactly when a node becomes idle: when its query times out while others wait in line. */
  lemma BecomesIdleIff(env: Env, self: NodeID, ins: Inputs, i: Input, now: nat, id: NodeID)
    requires Hashing(env) && Legal(env, self, ins) && Enabled(Run(env, self, ins), i)
    ensures var s := Run(env, self, ins);
            !Idle(s, id) && Idle(Step(env, s, i, now), id)
            <==> i == Fire(Timeout(NeighboursTimeout, id)) && NodeAt(s, id).deferred != []
  {
    var s := Run(env, self, ins);
    RunInv(env, self, ins);
    if i == Fire(Timeout(NeighboursTimeout, id)) {
      TimeoutLeavesLine(env, self, ins, id, now);
      PendingAndFailures(env, self, ins, id);
      StepLater(env, s, i, now);
    } else {
      OnlyTimeoutsIdle(env, s, i, now, id);
    }
  }

  /** A query that waits or is under way at another node always has a timer of that node that will move it on,
      unless the node is idle. */
  lemma WaitsForTimerOrIdle(env: Env, self: NodeID, ins: Inputs, q: Query, id: NodeID)
    requires Hashing(env) && Legal(env, self, ins) && id != self && q.remote == RemoteNode(id)
    requires q in Run(env, self, ins).submitted && q !in Run(env, self, ins).answered
    ensures var s := Run(env, self, ins); Idle(s, id) || exists ev :: Timeout(ev, id) in s.timers
  {
    var s := Run(env, self, ins);
    RunInv(env, self, ins);
    RunSelf(env, self, ins);
    assert NodeOk(env, s, id, {}) && IsOpen(s, q);
    assert Timeout(NeighboursTimeout, id) in s.timers || Timeout(PingTimeout, id) in s.timers
           || Timeout(PongTimeout, id) in s.timers || Idle(s, id);
  }

  // ----- becoming contested

  /** A known node stays known when it sends a packet. */
  lemma KnownSender(env: Env, s: Net, pkt: Packet, now: nat)
    requires Inv(env, s, {}) && Hashing(env) && NodeAt(s, pkt.remoteID).state == Known
    ensures NodeAt(Step(env, s, Receive(pkt), now), pkt.remoteID).state == Known
  {
    var a, t := pkt.remoteID, InternNode(s, pkt);
    InternNodeKnown(env, s, pkt);
    var (u, err) := CheckPacket(t, a, pkt);
    if err.None? {
      KnownHandler(env, t, pkt, now);
      var h := HandleInState(env, u, a, PacketEvent(pkt), now);
      StayPut(env, h.net, a, now);
    }
  }

  lemma KnownHandler(env: Env, s: Net, pkt: Packet, now: nat)
    requires Inv(env, s, {}) && Hashing(env) && pkt.remoteID in s.nodes && NodeAt(s, pkt.remoteID).state == Known
    ensures var h := HandleInState(env, CheckPacket(s, pkt.remoteID, pkt).0, pkt.remoteID, PacketEvent(pkt), now);
            h.next == Known == NodeAt(h.net, pkt.remoteID).state
  {
    if pkt.body.Neighbors? { HandleNeighboursInv(env, s, pkt.remoteID, pkt, now); }
  }

  /** No timer but the one of its query is armed for a known node. */
  lemma KnownTimers(env: Env, s: Net, timeout: Timeout)
    requires Inv(env, s, {}) && timeout in s.timers && NodeAt(s, timeout.node).state == Known
    ensures timeout.ev == NeighboursTimeout
  {
    assert NodeOk(env, s, timeout.node, {});
    assert timeout == Timeout(timeout.ev, timeout.node);
  }

  lemma InternNodeKnown(env: Env, s: Net, pkt: Packet)
    requires Inv(env, s, {})
    ensures var t := InternNode(s, pkt);
            Inv(env, t, {}) && pkt.remoteID in t.nodes && NodeAt(t, pkt.remoteID).state == NodeAt(s, pkt.remoteID).state
  {
    InternNodeInv(env, s, pkt);
  }

  /** Two kinds of steps take a known node to contested, its own last failure and another node's entering known;
      in both the pong timer is then armed exactly when no older ping to the node was outstanding. */
  lemma ContestedTimerIff(env: Env, self: NodeID, ins: Inputs, i: Input, now: nat, id: NodeID)
    requires Hashing(env) && Legal(env, self, ins) && Enabled(Run(env, self, ins), i) && id != self
    requires NodeAt(Run(env, self, ins), id).state == Known
    requires NodeAt(Step(env, Run(env, self, ins), i, now), id).state == Contested
    ensures var s := Run(env, self, ins);
            var t := Step(env, s, i, now);
            Timeout(PongTimeout, id) in t.timers <==> NodeAt(s, id).pingEcho == None
  {
    var s := Run(env, self, ins);
    RunInv(env, self, ins);
    RunSelf(env, self, ins);
    assert NodeOk(env, s, id, {});
    assert !PongTimed(s, id);
    if i == Fire(Timeout(NeighboursTimeout, id)) {
      QueryTimeoutResult(env, Disarm(s, NeighboursTimeout, id), id, now);
    } else {
      KnownIsSpared(env, s, i, now, id);
    }
  }

  lemma KnownIsSpared(env: Env, s: Net, i: Input, now: nat, id: NodeID)
    requires Inv(env, s, {}) && Hashing(env) && Enabled(s, i) && id != s.tab.self.id
    requires NodeAt(s, id).state == Known && i != Fire(Timeout(NeighboursTimeout, id))
    ensures NodeAt(Step(env, s, i, now), id).state == Known || Bystander(s, Step(env, s, i, now), id)
  {
    match i
    case Receive(pkt) =>
      if pkt.remoteID == id {
        KnownSender(env, s, pkt, now);
      } else {
        InvAimed(env, s, pkt.remoteID);
        ReceiveTame(env, s, pkt, now);
        assert SparedAt(s, Step(env, s, i, now), id);
      }
    case Fire(timeout) =>
      if timeout.node == id {
        assert timeout == Timeout(timeout.ev, id);
        KnownTimers(env, s, timeout);
      } else {
        FireSpares(env, s, timeout, now, id);
      }
    case Submit(q) => SubmitSpares(env, s, q, now, id);
    case Refresh(seeds) =>
      var a: NodeID := if id == 0 then 1 else 0;
      RefreshTame(env, s, seeds, now, a);
      assert SparedAt(s, Step(env, s, i, now), id);
  }
}
