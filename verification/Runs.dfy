/** The arms of the event loop one by one, and the invariant of every run. */
module Runs {
  import opened Slices
  import opened Words
  import opened Distance
  import opened NodesByDistance
  import T = Table
  import opened Protocol
  import opened Invariants
  import opened Preservation
  import opened Steps

  /** A local change that leaves the node's queries alone. */
  lemma QuietUpdate(env: Env, s: Net, t: Net, id: NodeID)
    requires Inv(env, s, {}) && Local(s, t, id)
    requires TimersOk(t, id, {}) && StateOk(env, t, id)
    requires NodeAt(t, id).pending == NodeAt(s, id).pending && NodeAt(t, id).deferred == NodeAt(s, id).deferred
    requires NodeAt(s, id).state.CanQuery() ==> NodeAt(t, id).state.CanQuery()
    requires NodeAt(t, id).state == Unknown ==> NodeAt(s, id).state == Unknown
    requires forall e :: e in t.log && e !in s.log ==> EffectOk(env, t, e)
    ensures Inv(env, t, {})
  {
    assert NodeOk(env, s, id, {});
    LocalUpdate(env, s, t, id, {});
  }

  /** What is known about the node's history stays known. */
  lemma HistoryKept(env: Env, s: Net, t: Net, id: NodeID)
    requires Grows(s, t) && StateOk(env, s, id)
    ensures NodeAt(s, id).pingEcho.Some? ==> Pinged(env, t, id, NodeAt(s, id).pingEcho.value)
    ensures id != s.tab.self.id && Verified(NodeAt(s, id).state) ==> Proved(env, t, id)
  {
    var n := NodeAt(s, id);
    if n.pingEcho.Some? { PingedGrows(env, s, t, id, n.pingEcho.value); }
    if Proved(env, s, id) { ProvedGrows(env, s, t, id); }
  }

  /** A node that handles an event without changing state stays where it is. */
  lemma StayPut(env: Env, s: Net, id: NodeID, now: nat)
    ensures Transition(env, s, id, NodeAt(s, id).state, now) == s
  {
  }

  // ----- ping packets

  lemma PingInUnknown(env: Env, s: Net, id: NodeID, to: Endpoint, now: nat)
    requires Inv(env, s, {}) && Hashing(env) && NodeAt(s, id).state == Unknown
    ensures Inv(env, Transition(env, SendPing(env, s, id, to, now), id, VerifyWait, now), {})
  {
    PingAndWait(env, s, id, to, VerifyWait, now, {});
    var n := NodeAt(s, id);
    var t, u := SendPing(env, Put(s, id, n.(state := VerifyWait)), id, to, now), SendPing(env, s, id, to, now);
    assert Transition(env, u, id, VerifyWait, now) == Put(u, id, NodeAt(u, id).(state := VerifyWait));
    assert t.nodes == u.nodes[id := NodeAt(u, id).(state := VerifyWait)];
  }

  lemma PingInVerifyInit(env: Env, s: Net, id: NodeID, now: nat)
    requires Inv(env, s, {}) && id in s.nodes && NodeAt(s, id).state == VerifyInit
    ensures Inv(env, Transition(env, s, id, VerifyWait, now), {})
  {
    var t := Put(s, id, NodeAt(s, id).(state := VerifyWait));
    assert Transition(env, s, id, VerifyWait, now) == t;
    assert NodeOk(env, s, id, {});
    assert Local(s, t, id);
    HistoryKept(env, s, t, id);
    QuietUpdate(env, s, t, id);
  }

  lemma PingInUnresponsive(env: Env, s: Net, id: NodeID, now: nat)
    requires Inv(env, s, {}) && Hashing(env) && id in s.nodes && NodeAt(s, id).state == Unresponsive
    ensures Inv(env, Transition(env, s, id, Known, now), {})
  {
    var t := MadeKnown(s, id);
    assert NodeOk(env, s, id, {});
    assert Local(s, t, id);
    HistoryKept(env, s, t, id);
    QuietUpdate(env, s, t, id);
    BecomeKnown(env, s, id, now);
  }

  lemma HandlePingPacket(env: Env, s: Net, id: NodeID, pkt: Packet, now: nat)
    requires Inv(env, s, {}) && Hashing(env) && id in s.nodes && pkt.body.Ping?
    ensures Inv(env, Handle(env, s, id, PacketEvent(pkt), now).0, {})
  {
    HandlePingInv(env, s, id, pkt, now);
    var t := HandlePing(s, id, pkt, now);
    match NodeAt(s, id).state
    case Unknown => PingInUnknown(env, t, id, MakeEndpoint(pkt.ip, pkt.port, pkt.port), now);
    case VerifyInit => PingInVerifyInit(env, t, id, now);
    case Unresponsive => PingInUnresponsive(env, t, id, now);
    case _ =>
  }

  // ----- pong packets

  /** A matching pong, taken note of. */
  function Accepted(s: Net, id: NodeID, tok: Bytes): Net {
    Record(Put(s, id, NodeAt(s, id).(pingEcho := None)), AcceptedPong(id, tok))
  }

  /** A matching pong proves every node that we had pinged. */
  lemma PongProves(env: Env, s: Net, t: Net, id: NodeID, tok: Bytes)
    requires StateOk(env, s, id) && Grows(s, t) && id != s.tab.self.id
    requires NodeAt(s, id).state != Unknown && t.log == s.log + [AcceptedPong(id, tok)]
    requires tok == EchoBytes(NodeAt(s, id).pingEcho)
    ensures Proved(env, t, id)
  {
    var n := NodeAt(s, id);
    if Verified(n.state) {
      ProvedGrows(env, s, t, id);
    } else {
      assert t.log[..|s.log|] == s.log;
      assert ProvedAt(env, t, id, |s.log|, tok);
    }
  }

  /** An accepted pong in a state that has no use for it. */
  lemma PongIgnored(env: Env, s: Net, id: NodeID, tok: Bytes)
    requires Inv(env, s, {}) && id in s.nodes && tok == EchoBytes(NodeAt(s, id).pingEcho)
    requires NodeAt(s, id).state == Unknown || NodeAt(s, id).state == RemoteVerifyWait
    ensures Inv(env, Accepted(s, id, tok), {})
  {
    var t := Accepted(s, id, tok);
    assert NodeOk(env, s, id, {});
    assert Local(s, t, id);
    HistoryKept(env, s, t, id);
    QuietUpdate(env, s, t, id);
  }

  /** Our pong arrived first: wait for the ping of the other side. */
  function AwaitPing(s: Net, id: NodeID, tok: Bytes): Net {
    var u := HandleKnownPong(Accepted(s, id, tok), id);
    Arm(SetState(u, id, RemoteVerifyWait), PingTimeout, id)
  }

  lemma AwaitPingLocal(s: Net, id: NodeID, tok: Bytes)
    requires id in s.nodes
    ensures var t := AwaitPing(s, id, tok);
            && Local(s, t, id) && t.log == s.log + [AcceptedPong(id, tok)]
            && NodeAt(t, id) == NodeAt(s, id).(state := RemoteVerifyWait, pingEcho := None)
  {
  }

  lemma PongInVerifyInit(env: Env, s: Net, id: NodeID, tok: Bytes, now: nat)
    requires Inv(env, s, {}) && id in s.nodes && tok == EchoBytes(NodeAt(s, id).pingEcho)
    requires NodeAt(s, id).state == VerifyInit
    ensures Inv(env, Transition(env, HandleKnownPong(Accepted(s, id, tok), id), id, RemoteVerifyWait, now), {})
  {
    var t := AwaitPing(s, id, tok);
    assert Transition(env, HandleKnownPong(Accepted(s, id, tok), id), id, RemoteVerifyWait, now) == t;
    assert NodeOk(env, s, id, {});
    AwaitPingLocal(s, id, tok);
    if id != s.tab.self.id { PongProves(env, s, t, id, tok); }
    QuietUpdate(env, s, t, id);
  }

  /** A node that is known after a pong: it was known, or becomes so now. */
  predicate KnownByPong(s: Net, t: Net, id: NodeID, tok: Bytes) {
    var u := HandleKnownPong(Accepted(s, id, tok), id);
    if NodeAt(s, id).state == Known then t == u
    else (NodeAt(s, id).state == VerifyWait || NodeAt(s, id).state.CanQuery()) && t == MadeKnown(u, id)
  }

  lemma PongLocal(s: Net, t: Net, id: NodeID, tok: Bytes)
    requires id in s.nodes && KnownByPong(s, t, id, tok)
    ensures Local(s, t, id) && t.log == s.log + [AcceptedPong(id, tok)]
    ensures t.timers == s.timers - {Timeout(PongTimeout, id)} && NodeAt(t, id).state == Known
  {
  }

  lemma PongState(env: Env, s: Net, t: Net, id: NodeID, tok: Bytes)
    requires StateOk(env, s, id) && Local(s, t, id) && t.log == s.log + [AcceptedPong(id, tok)]
    requires tok == EchoBytes(NodeAt(s, id).pingEcho) && KnownByPong(s, t, id, tok)
    ensures StateOk(env, t, id)
  {
    if id != s.tab.self.id { PongProves(env, s, t, id, tok); }
  }

  lemma PongToKnown(env: Env, s: Net, id: NodeID, tok: Bytes, now: nat)
    requires Inv(env, s, {}) && Hashing(env) && id in s.nodes && tok == EchoBytes(NodeAt(s, id).pingEcho)
    requires NodeAt(s, id).state == VerifyWait || NodeAt(s, id).state.CanQuery()
    ensures Inv(env, Transition(env, HandleKnownPong(Accepted(s, id, tok), id), id, Known, now), {})
  {
    var u := HandleKnownPong(Accepted(s, id, tok), id);
    var t := if NodeAt(s, id).state == Known then u else MadeKnown(u, id);
    assert NodeOk(env, s, id, {});
    PongLocal(s, t, id, tok);
    PongState(env, s, t, id, tok);
    QuietUpdate(env, s, t, id);
    if NodeAt(s, id).state == Known { StayPut(env, u, id, now); } else { BecomeKnown(env, u, id, now); }
  }

  lemma HandlePongPacket(env: Env, s: Net, id: NodeID, pkt: Packet, now: nat)
    requires Inv(env, s, {}) && Hashing(env) && id in s.nodes && pkt.body.Pong?
    ensures Inv(env, Handle(env, s, id, PacketEvent(pkt), now).0, {})
  {
    var tok := pkt.body.replyTok;
    if tok == EchoBytes(NodeAt(s, id).pingEcho) {
      assert CheckPacket(s, id, pkt) == (Accepted(s, id, tok), None);
      match NodeAt(s, id).state
      case Unknown => PongIgnored(env, s, id, tok);
      case RemoteVerifyWait => PongIgnored(env, s, id, tok);
      case VerifyInit => PongInVerifyInit(env, s, id, tok, now);
      case _ => PongToKnown(env, s, id, tok, now);
    }
  }

  // ----- findnode packets

  lemma AnswerFindnodeInv(env: Env, s: Net, id: NodeID, target: Hash)
    requires Inv(env, s, {}) && id in s.nodes
    ensures Inv(env, AnswerFindnode(s, id, target), {})
  {
    var t := AnswerFindnode(s, id, target);
    assert Local(s, t, id);
    AnswerIsGood(env, s, t, id, target);
    assert NodeOk(env, s, id, {});
    HistoryKept(env, s, t, id);
    QuietUpdate(env, s, t, id);
  }

  lemma AnswerIsGood(env: Env, s: Net, t: Net, id: NodeID, target: Hash)
    requires NodesOk(env, s, {}) && TabOk(s) && Grows(s, t)
    ensures EffectOk(env, t, SentNeighbours(id, ClosestIds(s, target)))
  {
    var ids := ClosestIds(s, target);
    forall i | 0 <= i < |ids| ensures ids[i] != t.tab.self.id && (Proved(env, t, ids[i]) || ids[i] in t.seeds) {
      FoundStored(s, target, i);
      assert NodeOk(env, s, ids[i], {});
      if Proved(env, s, ids[i]) { ProvedGrows(env, s, t, ids[i]); }
    }
  }

  /** Queryable states pass everything but pings, pongs and late pongs on. */
  lemma QueryDispatch(env: Env, s: Net, id: NodeID, ev: Event, now: nat)
    requires ev.PacketEvent? ==> !ev.pkt.body.Ping? && !ev.pkt.body.Pong?
    requires ev != TimerFired(PongTimeout) && ev != TimerFired(PingTimeout)
    ensures HandleInState(env, s, id, ev, now)
            == if NodeAt(s, id).state.CanQuery() then HandleQueryEvent(env, s, id, ev, now)
               else Handled(s, NodeAt(s, id).state, Some(InvalidEvent))
  {
  }

  /** handle, once the packet check has passed. */
  lemma HandleChecked(env: Env, s: Net, id: NodeID, ev: Event, now: nat)
    requires ev.PacketEvent? ==> !ev.pkt.body.Pong?
    ensures var h := HandleInState(env, s, id, ev, now);
            Handle(env, s, id, ev, now).0 == Transition(env, h.net, id, h.next, now)
  {
  }

  lemma HandleQueryPacket(env: Env, s: Net, id: NodeID, pkt: Packet, now: nat)
    requires Inv(env, s, {}) && Hashing(env) && id in s.nodes && !pkt.body.Ping? && !pkt.body.Pong?
    ensures Inv(env, Handle(env, s, id, PacketEvent(pkt), now).0, {})
  {
    HandleChecked(env, s, id, PacketEvent(pkt), now);
    QueryDispatch(env, s, id, PacketEvent(pkt), now);
    if NodeAt(s, id).state.CanQuery() {
      var h := HandleQueryEvent(env, s, id, PacketEvent(pkt), now);
      QueryEventInv(env, s, id, pkt, now);
      StayPut(env, h.net, id, now);
    } else {
      StayPut(env, s, id, now);
    }
  }

  lemma QueryEventInv(env: Env, s: Net, id: NodeID, pkt: Packet, now: nat)
    requires Inv(env, s, {}) && Hashing(env) && id in s.nodes && !pkt.body.Ping? && !pkt.body.Pong?
    ensures var h := HandleQueryEvent(env, s, id, PacketEvent(pkt), now);
            Inv(env, h.net, {}) && h.next == NodeAt(s, id).state == NodeAt(h.net, id).state
  {
    match pkt.body
    case Findnode(target, _) => AnswerFindnodeInv(env, s, id, env.keccakID(target));
    case FindnodeHash(target, _) => AnswerFindnodeInv(env, s, id, target);
    case Neighbors(_, _) => HandleNeighboursInv(env, s, id, pkt, now);
  }

  // ----- timers

  lemma PongTimedOut(env: Env, s: Net, id: NodeID, now: nat)
    requires Inv(env, s, {}) && id in s.nodes && Timeout(PongTimeout, id) in s.timers
    ensures Inv(env, Handle(env, Disarm(s, PongTimeout, id), id, TimerFired(PongTimeout), now).0, {})
  {
    assert NodeOk(env, s, id, {});
    if Verifying(NodeAt(s, id).state) {
      BecomeUnknown(env, s, id, now);
    } else {
      TabDeleteInv(env, s, id, {});
      var u := TabDeleteReplace(Disarm(s, PongTimeout, id), id);
      assert u == Disarm(TabDeleteReplace(s, id), PongTimeout, id);
      BecomeUnresponsive(env, TabDeleteReplace(s, id), id, now);
    }
  }

  lemma BecomeUnresponsive(env: Env, s: Net, id: NodeID, now: nat)
    requires Inv(env, s, {}) && id in s.nodes && NodeAt(s, id).state == Contested
    ensures Inv(env, Transition(env, Disarm(s, PongTimeout, id), id, Unresponsive, now), {})
  {
    var u := Disarm(s, PongTimeout, id);
    var t := Put(u, id, NodeAt(s, id).(state := Unresponsive));
    assert Transition(env, u, id, Unresponsive, now) == t;
    assert NodeOk(env, s, id, {});
    assert Local(s, t, id);
    HistoryKept(env, s, t, id);
    QuietUpdate(env, s, t, id);
  }

  lemma PingTimedOut(env: Env, s: Net, id: NodeID, now: nat)
    requires Inv(env, s, {}) && Hashing(env) && id in s.nodes && Timeout(PingTimeout, id) in s.timers
    ensures Inv(env, Handle(env, Disarm(s, PingTimeout, id), id, TimerFired(PingTimeout), now).0, {})
  {
    var u := Disarm(s, PingTimeout, id);
    var t := MadeKnown(u, id);
    assert NodeOk(env, s, id, {});
    assert Local(s, t, id);
    HistoryKept(env, s, t, id);
    QuietUpdate(env, s, t, id);
    BecomeKnown(env, u, id, now);
  }

  /** What handle makes of a neighbours timeout. */
  lemma QueryTimeoutResult(env: Env, s: Net, id: NodeID, now: nat)
    requires NodeAt(s, id).state.CanQuery()
    ensures var t, n := QueryTimedOut(s, id), NodeAt(s, id);
            Handle(env, s, id, TimerFired(NeighboursTimeout), now).0
            == if n.queryTimeouts + 1 > MAX_FINDNODE_FAILURES && n.state == Known
               then Transition(env, t, id, Contested, now) else t
  {
    var t := QueryTimedOut(s, id);
    HandleChecked(env, s, id, TimerFired(NeighboursTimeout), now);
    QueryDispatch(env, s, id, TimerFired(NeighboursTimeout), now);
    StayPut(env, t, id, now);
  }

  /** The reply comes first, then the count. */
  lemma QueryTimedOutSplit(s: Net, id: NodeID)
    requires NodeAt(s, id).pending.Some?
    ensures var n := NodeAt(s, id);
            var v := Put(Reply(s, n.pending.value, []), id, n.(pending := None));
            QueryTimedOut(s, id) == Put(v, id, NodeAt(v, id).(queryTimeouts := n.queryTimeouts + 1))
  {
    var n, t := NodeAt(s, id), QueryTimedOut(s, id);
    assert s.nodes[id := n.(pending := None)][id := NodeAt(t, id)] == s.nodes[id := NodeAt(t, id)];
  }

  lemma NeighboursTimedOut(env: Env, s: Net, id: NodeID, now: nat)
    requires Inv(env, s, {}) && Hashing(env) && id in s.nodes && Timeout(NeighboursTimeout, id) in s.timers
    ensures Inv(env, Handle(env, Disarm(s, NeighboursTimeout, id), id, TimerFired(NeighboursTimeout), now).0, {})
  {
    assert NodeOk(env, s, id, {});
    var n := NodeAt(s, id);
    var u := Disarm(s, NeighboursTimeout, id);
    DisarmPending(env, s, id);
    AnswerInv(env, u, id, n.pending.value, [], n.(pending := None), {id}, {});
    var v := Put(Reply(u, n.pending.value, []), id, n.(pending := None));
    var t := QueryTimedOut(u, id);
    QueryTimedOutSplit(u, id);
    QueryTimeoutResult(env, u, id, now);
    if n.queryTimeouts + 1 > MAX_FINDNODE_FAILURES && n.state == Known {
      TooManyFailures(env, v, t, id, now);
    } else {
      OneMoreFailure(env, v, t, id);
    }
  }

  /** Counting a failure and pinging do not interfere. */
  lemma CountThenContest(env: Env, v: Net, t: Net, id: NodeID, now: nat)
    requires id in v.nodes && NodeAt(v, id).state == Known
    requires t == Put(v, id, NodeAt(v, id).(queryTimeouts := NodeAt(t, id).queryTimeouts))
    ensures var c := Transition(env, v, id, Contested, now);
            Transition(env, t, id, Contested, now)
            == Put(c, id, NodeAt(c, id).(queryTimeouts := NodeAt(t, id).queryTimeouts))
  {
    var c, r := Transition(env, v, id, Contested, now), Transition(env, t, id, Contested, now);
    assert r.nodes == c.nodes[id := NodeAt(c, id).(queryTimeouts := NodeAt(t, id).queryTimeouts)];
  }

  /** The failure that turns a known node contested. */
  lemma TooManyFailures(env: Env, v: Net, t: Net, id: NodeID, now: nat)
    requires Inv(env, v, {}) && Hashing(env) && id in v.nodes && NodeAt(v, id).state == Known
    requires t == Put(v, id, NodeAt(v, id).(queryTimeouts := NodeAt(t, id).queryTimeouts))
    ensures Inv(env, Transition(env, t, id, Contested, now), {})
  {
    ContestedInv(env, v, id, now, {});
    CountThenContest(env, v, t, id, now);
    OneMoreFailure(env, Transition(env, v, id, Contested, now), Transition(env, t, id, Contested, now), id);
  }

  lemma OneMoreFailure(env: Env, v: Net, t: Net, id: NodeID)
    requires Inv(env, v, {}) && id in v.nodes
    requires t == Put(v, id, NodeAt(v, id).(queryTimeouts := NodeAt(t, id).queryTimeouts))
    requires NodeAt(t, id).queryTimeouts <= MAX_FINDNODE_FAILURES || NodeAt(v, id).state != Known
    ensures Inv(env, t, {})
  {
    assert NodeOk(env, v, id, {});
    assert Local(v, t, id);
    HistoryKept(env, v, t, id);
    QuietUpdate(env, v, t, id);
  }

  // ----- refresh

  /** From now on this ID counts as configured. */
  lemma SeedInv(env: Env, s: Net, id: NodeID)
    requires Inv(env, s, {})
    ensures Inv(env, s.(seeds := s.seeds + {id}), {})
  {
    var t := s.(seeds := s.seeds + {id});
    forall j: NodeID ensures NodeOk(env, t, j, {}) {
      assert SameNode(s, t, j) && NodeOk(env, s, j, {});
      NodeFrame(env, s, t, j, {});
    }
    LogFrame(env, s, t);
    forall c: nat ensures |Chan(t, c)| == |AnsweredOn(t.answered, c)| {
      assert |Chan(s, c)| == |AnsweredOn(s.answered, c)|;
    }
    forall c: nat, a | a in Chan(t, c) ensures GoodAnswer(t, a) {
      assert a in Chan(s, c) && GoodAnswer(s, a);
    }
    forall q | q in t.submitted && q !in t.answered ensures IsOpen(t, q) {
      assert IsOpen(s, q);
    }
    forall p | T.Stores(t.tab, p) ensures GoodPeer(t, p) {
      assert GoodPeer(s, p);
    }
  }

  lemma RefreshOneInv(env: Env, s: Net, seed: RpcNode, now: nat)
    requires Inv(env, s, {}) && Hashing(env)
    ensures Inv(env, RefreshOne(env, s, seed, now), {})
  {
    SeedInv(env, s, seed.id);
    var v := s.(seeds := s.seeds + {seed.id});
    var t := InternFromDB(v, seed);
    EndpointInv(env, v, seed.id, NodeAt(t, seed.id).ep, {});
    if NodeAt(t, seed.id).state == Unknown { VerifyInitInv(env, t, seed.id, now, {}); }
    var u := if NodeAt(t, seed.id).state == Unknown then Transition(env, t, seed.id, VerifyInit, now) else t;
    TabAddInv(env, u, seed.id, {});
  }

  lemma {:induction false} RefreshInv(env: Env, s: Net, seeds: seq<RpcNode>, now: nat)
    requires Inv(env, s, {}) && Hashing(env)
    ensures Inv(env, RefreshSeeds(env, s, seeds, now), {})
  {
    if seeds != [] {
      RefreshInv(env, s, seeds[..|seeds| - 1], now);
      RefreshOneInv(env, RefreshSeeds(env, s, seeds[..|seeds| - 1], now), seeds[|seeds| - 1], now);
    }
  }

  // ----- every step, every run

  lemma TimerOfInterned(env: Env, s: Net, timeout: Timeout)
    requires Inv(env, s, {}) && timeout in s.timers
    ensures timeout.node in s.nodes
  {
    assert NodeOk(env, s, timeout.node, {});
    match timeout.ev {
      case PongTimeout => assert timeout == Timeout(PongTimeout, timeout.node);
      case PingTimeout => assert timeout == Timeout(PingTimeout, timeout.node);
      case NeighboursTimeout => assert timeout == Timeout(NeighboursTimeout, timeout.node);
    }
  }

  lemma StepInv(env: Env, s: Net, i: Input, now: nat)
    requires Inv(env, s, {}) && Hashing(env) && Enabled(s, i)
    ensures Inv(env, Step(env, s, i, now), {})
  {
    match i
    case Receive(pkt) =>
      InternNodeInv(env, s, pkt);
      var t := InternNode(s, pkt);
      if pkt.body.Ping? { HandlePingPacket(env, t, pkt.remoteID, pkt, now); }
      else if pkt.body.Pong? { HandlePongPacket(env, t, pkt.remoteID, pkt, now); }
      else { HandleQueryPacket(env, t, pkt.remoteID, pkt, now); }
    case Fire(timeout) =>
      TimerOfInterned(env, s, timeout);
      match timeout.ev {
       case PongTimeout => PongTimedOut(env, s, timeout.node, now);
       case PingTimeout => PingTimedOut(env, s, timeout.node, now);
       case NeighboursTimeout => NeighboursTimedOut(env, s, timeout.node, now);
      }
    case Submit(q) => SubmitInv(env, s, q, now);
    case Refresh(seeds) => RefreshInv(env, s, seeds, now);
  }

  /** The invariant holds after every run. */
  lemma {:induction false} RunInv(env: Env, self: NodeID, ins: Inputs)
    requires Hashing(env) && Legal(env, self, ins)
    ensures Inv(env, Run(env, self, ins), {})
  {
    if ins == [] {
      InitInv(env, self);
    } else {
      RunInv(env, self, ins[..|ins| - 1]);
      var last := ins[|ins| - 1];
      StepInv(env, Run(env, self, ins[..|ins| - 1]), last.0, last.1);
    }
  }
}
