/** What never goes back: verified nodes stay verified, channels and histories only grow, and only a
    submission submits. */
module Monotone {
  import opened Slices
  import opened Words
  import opened Distance
  import opened NodesByDistance
  import opened Protocol

  /** What the handling of a packet notes about the packet itself. */
  predicate Heard(pkt: Packet, e: Effect) {
    || (pkt.body.Ping? && e == HandledPing(pkt.remoteID, pkt.body, pkt.hash))
    || (pkt.body.Pong? && e == AcceptedPong(pkt.remoteID, pkt.body.replyTok))
  }

  predicate AsksForNeighbours(pkt: Packet) {
    pkt.body.Findnode? || pkt.body.FindnodeHash?
  }

  predicate Hears(p: Option<Packet>, e: Effect) {
    && (e.HandledPing? || e.AcceptedPong? ==> p.Some? && Heard(p.value, e))
    && (e.SentNeighbours? ==> p.Some? && AsksForNeighbours(p.value))
  }

  /** t comes after s, with at most packet p having been heard in between. */
  ghost predicate LaterHearing(p: Option<Packet>, s: Net, t: Net) {
    && t.tab.self == s.tab.self
    && t.submitted == s.submitted && s.answered <= t.answered
    && s.nodes.Keys <= t.nodes.Keys
    && s.log <= t.log
    && (forall c: nat :: Chan(s, c) <= Chan(t, c))
    && (forall j: NodeID :: NodeAt(s, j).state.CanQuery() ==> NodeAt(t, j).state.CanQuery())
    && (forall e :: e in t.log ==> e in s.log || Hears(p, e))
  }

  ghost predicate Later(s: Net, t: Net) {
    LaterHearing(None, s, t)
  }

  lemma LaterTrans(s: Net, t: Net, u: Net)
    requires Later(s, t) && Later(t, u)
    ensures Later(s, u)
  {
    HearingTrans(None, s, t, u);
  }

  lemma HearingTrans(p: Option<Packet>, s: Net, t: Net, u: Net)
    requires LaterHearing(p, s, t) && LaterHearing(p, t, u)
    ensures LaterHearing(p, s, u)
  {
    forall c: nat ensures Chan(s, c) <= Chan(u, c) {
      assert Chan(s, c) <= Chan(t, c) <= Chan(u, c);
    }
  }

  lemma NotHearing(p: Option<Packet>, s: Net, t: Net)
    requires Later(s, t)
    ensures LaterHearing(p, s, t)
  {
  }

  /** Replacing one node, without unverifying it. */
  lemma PutLater(s: Net, t: Net, id: NodeID, n: Node)
    requires Later(s, t)
    requires NodeAt(s, id).state.CanQuery() ==> n.state.CanQuery()
    ensures Later(s, Put(t, id, n))
  {
    var u := Put(t, id, n);
    forall c: nat ensures Chan(s, c) <= Chan(u, c) {
      assert Chan(s, c) <= Chan(t, c) == Chan(u, c);
    }
  }

  lemma ReplyLater(s: Net, t: Net, q: Query, a: Answer)
    requires Later(s, t)
    ensures Later(s, Reply(t, q, a))
  {
    var u := Reply(t, q, a);
    forall c: nat ensures Chan(s, c) <= Chan(u, c) {
      assert Chan(s, c) <= Chan(t, c) <= Chan(u, c);
    }
  }

  lemma {:induction false} ReplyNilLater(s: Net, t: Net, qs: seq<Query>)
    requires Later(s, t)
    ensures Later(s, ReplyNil(t, qs)) && ReplyNil(t, qs).nodes == t.nodes
  {
    if qs != [] {
      ReplyNilLater(s, t, qs[..|qs| - 1]);
      ReplyLater(s, ReplyNil(t, qs[..|qs| - 1]), qs[|qs| - 1], []);
    }
  }

  /** Timers, table and log entries do not matter to nodes and channels. */
  lemma SideLater(s: Net, t: Net, u: Net)
    requires Later(s, t) && u.tab.self == t.tab.self
    requires u.nodes == t.nodes && u.chans == t.chans && u.submitted == t.submitted && u.answered == t.answered
    requires t.log <= u.log && forall e :: e in u.log ==> e in t.log || Hears(None, e)
    ensures Later(s, u)
  {
    assert forall e :: e in u.log ==> e in s.log || Hears(None, e);
    forall c: nat ensures Chan(s, c) <= Chan(u, c) {
      assert Chan(s, c) <= Chan(t, c) == Chan(u, c);
    }
  }

  lemma SendPingLater(env: Env, s: Net, t: Net, id: NodeID, to: Endpoint, now: nat)
    requires Later(s, t)
    ensures Later(s, SendPing(env, t, id, to, now))
    ensures NodeAt(SendPing(env, t, id, to, now), id).state == NodeAt(t, id).state
  {
    var u := SendPing(env, t, id, to, now);
    if u != t {
      var body := Ping(env.ourEndpoint, to, now + EXPIRATION);
      var v := Put(t, id, NodeAt(t, id).(pingEcho := Some(env.hash(t.tab.self.id, body))));
      PutLater(t, t, id, NodeAt(v, id));
      SideLater(t, v, u);
      LaterTrans(s, t, u);
    }
  }

  lemma StartLater(env: Env, s: Net, q: Query, now: nat)
    ensures Later(s, Start(env, s, q, now).0)
    ensures q.remote.RemoteNode? && NodeAt(s, q.remote.id).state != Unknown ==>
              NodeAt(Start(env, s, q, now).0, q.remote.id).state == NodeAt(s, q.remote.id).state
  {
    match q.remote
    case LocalNode => ReplyLater(s, s, q, AllFound(ClosestIds(s, env.keccakHash(q.target))));
    case RemoteNode(id) =>
      var n := NodeAt(s, id);
      if n.state.CanQuery() && n.pending == None {
        var u := Arm(Record(s, SentFindnodeHash(id, q.target)), NeighboursTimeout, id);
        SideLater(s, s, u);
        PutLater(s, u, id, n.(pending := Some(q)));
      } else if n.state == Unknown {
        TransitionLater(env, s, id, VerifyInit, now);
      }
  }

  lemma TransitionLater(env: Env, s: Net, id: NodeID, next: NodeState, now: nat)
    requires next == VerifyInit || next == Contested
    requires NodeAt(s, id).state.CanQuery() ==> next == Contested
    ensures Later(s, Transition(env, s, id, next, now))
  {
    if NodeAt(s, id).state != next {
      var t := Put(s, id, NodeAt(s, id).(state := next));
      PutLater(s, s, id, NodeAt(t, id));
      SendPingLater(env, s, t, id, OwnAddress(NodeAt(t, id)), now);
    }
  }

  lemma StartNextLater(env: Env, s: Net, id: NodeID, now: nat)
    ensures Later(s, StartNextQuery(env, s, id, now))
  {
    var n := NodeAt(s, id);
    if n.deferred != [] {
      StartLater(env, s, n.deferred[0], now);
      var (t, started) := Start(env, s, n.deferred[0], now);
      if started {
        PutLater(t, t, id, NodeAt(t, id).(deferred := n.deferred[1..]));
        LaterTrans(s, t, StartNextQuery(env, s, id, now));
      }
    }
  }

  lemma InsertKnownLater(env: Env, s: Net, id: NodeID, now: nat)
    ensures Later(s, InsertKnown(env, s, id, now))
  {
    var u, last := TabAdd(s, id), TabChallenges(s, id);
    SideLater(s, s, u);
    if last.Some? && NodeAt(u, last.value.id).state == Known {
      TransitionLater(env, u, last.value.id, Contested, now);
      LaterTrans(s, u, InsertKnown(env, s, id, now));
    }
  }

  lemma EnterKnownLater(env: Env, s: Net, id: NodeID, now: nat)
    ensures Later(s, EnterKnown(env, s, id, now))
  {
    var s0 := ResetFailures(s, id);
    var t := StartNextQuery(env, s0, id, now);
    PutLater(s, s, id, NodeAt(s0, id));
    StartNextLater(env, s0, id, now);
    InsertKnownLater(env, t, id, now);
    LaterTrans(s, s0, t);
    LaterTrans(s, t, InsertKnown(env, t, id, now));
  }

  lemma EnterUnknownLater(s: Net, id: NodeID)
    requires !NodeAt(s, id).state.CanQuery()
    ensures Later(s, EnterUnknown(s, id))
  {
    var n, d := NodeAt(s, id), TabDelete(s, id);
    SideLater(s, s, d);
    ReplyNilLater(s, d, n.deferred);
    var t := ReplyNil(d, n.deferred);
    if n.pending.Some? { ReplyLater(s, t, n.pending.value, []); }
    var u := if n.pending.Some? then Reply(t, n.pending.value, []) else t;
    PutLater(s, u, id, n.(pingEcho := None, deferred := [], pending := None, queryTimeouts := 0));
  }

  lemma AnyTransitionLater(env: Env, s: Net, id: NodeID, next: NodeState, now: nat)
    requires NodeAt(s, id).state.CanQuery() ==> next.CanQuery()
    ensures Later(s, Transition(env, s, id, next, now))
  {
    if NodeAt(s, id).state != next {
      var t := Put(s, id, NodeAt(s, id).(state := next));
      PutLater(s, s, id, NodeAt(t, id));
      match next
      case Unknown => EnterUnknownLater(t, id); LaterTrans(s, t, EnterUnknown(t, id));
      case VerifyInit => TransitionLater(env, s, id, VerifyInit, now);
      case VerifyWait =>
      case RemoteVerifyWait => SideLater(s, t, Arm(t, PingTimeout, id));
      case Known => EnterKnownLater(env, t, id, now); LaterTrans(s, t, EnterKnown(env, t, id, now));
      case Contested => TransitionLater(env, s, id, Contested, now);
      case Unresponsive =>
    }
  }

  // ----- neighbours

  lemma MeetNeighbourLater(env: Env, s: Net, ip: Bytes, rn: RpcNode, now: nat)
    ensures Later(s, MeetNeighbour(env, s, ip, rn, now).0)
  {
    var (t, nn) := InternNeighbour(env, s, ip, rn);
    PutLater(s, s, rn.id, NodeAt(t, rn.id));
    assert t == s || t == Put(s, rn.id, NodeAt(t, rn.id));
    if nn.Some? && NodeAt(t, nn.value).state == Unknown {
      TransitionLater(env, t, nn.value, VerifyInit, now);
      LaterTrans(s, t, Transition(env, t, nn.value, VerifyInit, now));
    }
  }

  lemma {:induction false} MeetNeighboursLater(env: Env, s: Net, ip: Bytes, rns: seq<RpcNode>, now: nat)
    ensures Later(s, MeetNeighbours(env, s, ip, rns, now).0)
  {
    if rns != [] {
      var t := MeetNeighbours(env, s, ip, rns[..|rns| - 1], now).0;
      MeetNeighboursLater(env, s, ip, rns[..|rns| - 1], now);
      MeetNeighbourLater(env, t, ip, rns[|rns| - 1], now);
      LaterTrans(s, t, MeetNeighbour(env, t, ip, rns[|rns| - 1], now).0);
    }
  }

  lemma HandleNeighboursLater(env: Env, s: Net, id: NodeID, pkt: Packet, now: nat)
    requires pkt.body.Neighbors?
    ensures Later(s, HandleNeighbours(env, s, id, pkt, now).0)
  {
    var pending := NodeAt(s, id).pending;
    if pending.Some? {
      var d := Disarm(s, NeighboursTimeout, id);
      SideLater(s, s, d);
      MeetNeighboursLater(env, d, pkt.ip, pkt.body.nodes, now);
      var (t, a) := MeetNeighbours(env, d, pkt.ip, pkt.body.nodes, now);
      ReplyLater(d, t, pending.value, a);
      var u := Reply(t, pending.value, a);
      PutLater(u, u, id, NodeAt(u, id).(pending := None));
      var v := Put(u, id, NodeAt(u, id).(pending := None));
      StartNextLater(env, v, id, now);
      LaterTrans(d, u, v);
      LaterTrans(d, v, StartNextQuery(env, v, id, now));
      LaterTrans(s, d, StartNextQuery(env, v, id, now));
    }
  }

  // ----- handlers

  /** The packet of an event, whose handling belongs to its sender. */
  function PacketOf(ev: Event): Option<Packet> {
    match ev case PacketEvent(pkt) => Some(pkt) case TimerFired(_) => None
  }

  predicate Addressed(ev: Event, id: NodeID) {
    ev.PacketEvent? ==> ev.pkt.remoteID == id
  }

  lemma HandlePingLater(s: Net, id: NodeID, pkt: Packet, now: nat)
    requires pkt.body.Ping? && id == pkt.remoteID
    ensures LaterHearing(Some(pkt), s, HandlePing(s, id, pkt, now))
    ensures NodeAt(HandlePing(s, id, pkt, now), id).state == NodeAt(s, id).state
  {
    var t := HandlePing(s, id, pkt, now);
    assert forall e :: e in t.log ==> e in s.log || Hears(Some(pkt), e);
    forall c: nat ensures Chan(s, c) <= Chan(t, c) {
      assert Chan(s, c) == Chan(t, c);
    }
  }

  lemma HandleKnownPongLater(s: Net, id: NodeID)
    ensures Later(s, HandleKnownPong(s, id))
  {
    SideLater(s, s, Disarm(s, PongTimeout, id));
    PutLater(s, Disarm(s, PongTimeout, id), id, NodeAt(s, id).(pingEcho := None));
  }

  lemma QueryTimedOutLater(s: Net, id: NodeID)
    ensures Later(s, QueryTimedOut(s, id))
  {
    var n := NodeAt(s, id);
    if n.pending.Some? { ReplyLater(s, s, n.pending.value, []); }
    var t := if n.pending.Some? then Reply(s, n.pending.value, []) else s;
    PutLater(s, t, id, n.(pending := None, queryTimeouts := n.queryTimeouts + 1));
  }

  lemma QueryEventLater(env: Env, s: Net, id: NodeID, ev: Event, now: nat)
    requires NodeAt(s, id).state.CanQuery()
    ensures LaterHearing(PacketOf(ev), s, HandleQueryEvent(env, s, id, ev, now).net)
    ensures HandleQueryEvent(env, s, id, ev, now).next.CanQuery()
  {
    var t := HandleQueryEvent(env, s, id, ev, now).net;
    SideLater(s, s, s);
    match ev
    case PacketEvent(pkt) =>
      if pkt.body.Neighbors? {
        HandleNeighboursLater(env, s, id, pkt, now);
        NotHearing(Some(pkt), s, t);
      } else if AsksForNeighbours(pkt) {
        AnswerFindnodeLater(s, id, if pkt.body.Findnode? then env.keccakID(pkt.body.targetID) else pkt.body.target, pkt);
      } else {
        NotHearing(Some(pkt), s, t);
      }
    case TimerFired(timer) => QueryTimedOutLater(s, id);
  }

  lemma AnswerFindnodeLater(s: Net, id: NodeID, target: Hash, pkt: Packet)
    requires AsksForNeighbours(pkt)
    ensures LaterHearing(Some(pkt), s, AnswerFindnode(s, id, target))
  {
    var t := AnswerFindnode(s, id, target);
    assert forall e :: e in t.log ==> e in s.log || Hears(Some(pkt), e);
    forall c: nat ensures Chan(s, c) <= Chan(t, c) {
      assert Chan(s, c) == Chan(t, c);
    }
  }

  /** A handler leaves a verified node verified, so the transition after it may not unverify it. */
  ghost predicate HandledLater(p: Option<Packet>, s: Net, h: Handled, id: NodeID) {
    LaterHearing(p, s, h.net) && (NodeAt(h.net, id).state.CanQuery() ==> h.next.CanQuery())
  }

  lemma UnverifiedLater(env: Env, s: Net, id: NodeID, ev: Event, now: nat)
    requires !IsPing(ev) && !NodeAt(s, id).state.CanQuery()
    ensures HandledLater(None, s, HandleInState(env, s, id, ev, now), id)
  {
    SideLater(s, s, s);
    HandleKnownPongLater(s, id);
  }

  lemma QueryableLater(env: Env, s: Net, id: NodeID, ev: Event, now: nat)
    requires !IsPing(ev) && NodeAt(s, id).state.CanQuery()
    ensures HandledLater(PacketOf(ev), s, HandleInState(env, s, id, ev, now), id)
  {
    if IsPong(ev) {
      HandleKnownPongLater(s, id);
      NotHearing(PacketOf(ev), s, HandleKnownPong(s, id));
    } else if NodeAt(s, id).state == Contested && ev == TimerFired(PongTimeout) {
      SideLater(s, s, TabDeleteReplace(s, id));
    } else {
      QueryEventLater(env, s, id, ev, now);
    }
  }

  lemma HandleInStateLater(env: Env, s: Net, id: NodeID, ev: Event, now: nat)
    requires Addressed(ev, id)
    ensures HandledLater(PacketOf(ev), s, HandleInState(env, s, id, ev, now), id)
  {
    if IsPing(ev) {
      PingInStateLater(env, s, id, ev.pkt, now);
    } else {
      if NodeAt(s, id).state.CanQuery() {
        QueryableLater(env, s, id, ev, now);
      } else {
        UnverifiedLater(env, s, id, ev, now);
        NotHearing(PacketOf(ev), s, HandleInState(env, s, id, ev, now).net);
      }
    }
  }

  lemma PingInStateLater(env: Env, s: Net, id: NodeID, pkt: Packet, now: nat)
    requires pkt.remoteID == id && pkt.body.Ping?
    ensures HandledLater(Some(pkt), s, HandleInState(env, s, id, PacketEvent(pkt), now), id)
  {
    HandlePingLater(s, id, pkt, now);
    var t, to := HandlePing(s, id, pkt, now), MakeEndpoint(pkt.ip, pkt.port, pkt.port);
    SideLater(t, t, t);
    SendPingLater(env, t, t, id, to, now);
    NotHearing(Some(pkt), t, SendPing(env, t, id, to, now));
    HearingTrans(Some(pkt), s, t, SendPing(env, t, id, to, now));
  }

  lemma CheckPacketLater(s: Net, pkt: Packet)
    ensures LaterHearing(Some(pkt), s, CheckPacket(s, pkt.remoteID, pkt).0)
  {
    var t := CheckPacket(s, pkt.remoteID, pkt).0;
    assert forall e :: e in t.log ==> e in s.log || Hears(Some(pkt), e);
    forall c: nat ensures Chan(s, c) <= Chan(t, c) {
      assert Chan(s, c) == Chan(t, c);
    }
  }

  lemma HandleLater(env: Env, s: Net, id: NodeID, ev: Event, now: nat)
    requires Addressed(ev, id)
    ensures LaterHearing(PacketOf(ev), s, Handle(env, s, id, ev, now).0)
  {
    var p := PacketOf(ev);
    var (t, err) := if ev.PacketEvent? then CheckPacket(s, id, ev.pkt) else (s, None);
    if ev.PacketEvent? { CheckPacketLater(s, ev.pkt); } else { SideLater(s, s, s); }
    if err.None? {
      var h := HandleInState(env, t, id, ev, now);
      var u := Handle(env, s, id, ev, now).0;
      HandleInStateLater(env, t, id, ev, now);
      AnyTransitionLater(env, h.net, id, h.next, now);
      NotHearing(p, h.net, u);
      HearingTrans(p, s, t, h.net);
      HearingTrans(p, s, h.net, u);
    }
  }

  // ----- the arms of the event loop

  lemma RefreshOneLater(env: Env, s: Net, seed: RpcNode, now: nat)
    ensures Later(s, RefreshOne(env, s, seed, now))
  {
    var v := s.(seeds := s.seeds + {seed.id});
    SideLater(s, s, v);
    var t := InternFromDB(v, seed);
    PutLater(s, v, seed.id, NodeAt(t, seed.id));
    assert Later(s, t);
    if NodeAt(t, seed.id).state == Unknown {
      TransitionLater(env, t, seed.id, VerifyInit, now);
      LaterTrans(s, t, Transition(env, t, seed.id, VerifyInit, now));
    }
    var u := if NodeAt(t, seed.id).state == Unknown then Transition(env, t, seed.id, VerifyInit, now) else t;
    SideLater(s, u, TabAdd(u, seed.id));
  }

  lemma {:induction false} RefreshLater(env: Env, s: Net, seeds: seq<RpcNode>, now: nat)
    ensures Later(s, RefreshSeeds(env, s, seeds, now))
  {
    if seeds == [] {
      SideLater(s, s, s);
    } else {
      var t := RefreshSeeds(env, s, seeds[..|seeds| - 1], now);
      RefreshLater(env, s, seeds[..|seeds| - 1], now);
      RefreshOneLater(env, t, seeds[|seeds| - 1], now);
      LaterTrans(s, t, RefreshSeeds(env, s, seeds, now));
    }
  }

  lemma SubmitLater(env: Env, s: Net, q: Query, now: nat)
    ensures Later(s.(submitted := s.submitted + {q}), SubmitQuery(env, s, q, now))
  {
    var u := s.(submitted := s.submitted + {q});
    var (t, started) := Start(env, u, q, now);
    StartLater(env, u, q, now);
    if !started && q.remote.RemoteNode? {
      PutLater(t, t, q.remote.id, NodeAt(t, q.remote.id).(deferred := NodeAt(t, q.remote.id).deferred + [q]));
      LaterTrans(u, t, DeferQuery(t, q.remote.id, q));
    }
  }

  /** Every step: only a submission changes what is submitted, only a received packet is heard, and
      everything else is later. */
  lemma StepLater(env: Env, s: Net, i: Input, now: nat)
    ensures LaterHearing(if i.Receive? then Some(i.pkt) else None,
                         if i.Submit? then s.(submitted := s.submitted + {i.q}) else s,
                         Step(env, s, i, now))
  {
    match i
    case Receive(pkt) =>
      var t := InternNode(s, pkt);
      SideLater(s, s, s);
      PutLater(s, s, pkt.remoteID, NodeAt(t, pkt.remoteID));
      NotHearing(Some(pkt), s, t);
      HandleLater(env, t, pkt.remoteID, PacketEvent(pkt), now);
      HearingTrans(Some(pkt), s, t, Step(env, s, i, now));
    case Fire(timeout) =>
      var t := Disarm(s, timeout.ev, timeout.node);
      SideLater(s, s, t);
      HandleLater(env, t, timeout.node, TimerFired(timeout.ev), now);
      LaterTrans(s, t, Step(env, s, i, now));
    case Submit(q) => SubmitLater(env, s, q, now);
    case Refresh(seeds) => RefreshLater(env, s, seeds, now);
  }
}
