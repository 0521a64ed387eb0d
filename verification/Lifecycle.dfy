/** The life of a node, state by state (discovery/net.go, the seven states): for every step of the event loop and
    every node, exactly what state the node is in afterwards, and what becoming known does to the table. */
module Lifecycle {
  import opened Slices
  import opened NodesByDistance
  import opened Protocol
  import opened Invariants
  import opened Preservation
  import opened Steps
  import opened Runs
  import opened Neighbours
  import T = Table
  import W = Waiting

  // ----- the diagram

  /** The step handles an event of this node: a packet that it signed, or one of its timers. */
  predicate About(i: Input, id: NodeID) {
    match i
    case Receive(pkt) => pkt.remoteID == id
    case Fire(timeout) => timeout.node == id
    case Submit(_) => false
    case Refresh(_) => false
  }

  /** The next state of a node after an event of its own. */
  function OwnNext(n: Node, i: Input): NodeState {
    match i
    case Receive(pkt) =>
      if pkt.body.Ping? then
        if n.state in {Unknown, VerifyInit} then VerifyWait else if n.state == Unresponsive then Known else n.state
      else if pkt.body.Pong? && pkt.body.replyTok == EchoBytes(n.pingEcho) then
        if n.state == VerifyInit then RemoteVerifyWait
        else if n.state in {VerifyWait, Contested, Unresponsive} then Known else n.state
      else n.state
    case Fire(timeout) =>
      if timeout.ev == PongTimeout then (if n.state == Contested then Unresponsive else Unknown)
      else if timeout.ev == PingTimeout then Known
      else if n.state == Known && n.queryTimeouts >= 5 then Contested else n.state
    case Submit(_) => n.state
    case Refresh(_) => n.state
  }

  /** An answer that is waited for. */
  predicate IsAnswer(s: Net, pkt: Packet) {
    pkt.body.Neighbors? && NodeAt(s, pkt.remoteID).pending.Some?
  }

  /** Where the nodes of an answer are met. */
  function Meeting(s: Net, pkt: Packet): Net {
    Disarm(InternNode(s, pkt), NeighboursTimeout, pkt.remoteID)
  }

  /** The step is a query for this node, names it as a seed, or brings an answer to a query that names it. */
  ghost predicate Meets(env: Env, s: Net, i: Input, id: NodeID) {
    match i
    case Receive(pkt) => IsAnswer(s, pkt) && Taken(env, Meeting(s, pkt), pkt.ip, pkt.body.nodes, id)
    case Fire(_) => false
    case Submit(q) => q.remote == RemoteNode(id)
    case Refresh(seeds) => Named(seeds, id)
  }

  ghost predicate Named(seeds: seq<RpcNode>, id: NodeID) {
    exists k :: 0 <= k < |seeds| && seeds[k].id == id
  }

  /** Node a, not us, becomes known in this step. */
  predicate Joins(s: Net, i: Input, a: NodeID) {
    About(i, a) && a != s.tab.self.id && NodeAt(s, a).state != Known && OwnNext(NodeAt(s, a), i) == Known
  }

  /** Bucket 0 is full, without a, and this is its last node. */
  ghost predicate InTheWay(s: Net, a: NodeID, id: NodeID) {
    var es := s.tab.buckets[0].entries;
    |es| >= 16 && !T.HasId(es, a) && es[|es| - 1].id == id
  }

  ghost predicate Pushes(s: Net, i: Input, id: NodeID) {
    exists a: NodeID :: Joins(s, i, a) && InTheWay(s, a, id)
  }

  // ----- building blocks

  /** Nobody but node a is different, and no channel. */
  ghost predicate Beside(a: NodeID, s: Net, t: Net) {
    && t.tab.self == s.tab.self && s.log <= t.log && t.chans == s.chans
    && forall j: NodeID :: j != a ==> NodeAt(t, j) == NodeAt(s, j)
  }

  /** The waiting query that moves up. */
  predicate MovesUp(m: Node, n: Node) {
    if m.deferred != [] && m.pending == None && m.state.CanQuery()
    then n.pending == Some(m.deferred[0]) && n.deferred == m.deferred[1..]
    else n.pending == m.pending && n.deferred == m.deferred
  }

  /** What was sent to the waiting query's node. */
  function SentUp(m: Node, id: NodeID): seq<Effect> {
    if m.deferred != [] && m.pending == None && m.state.CanQuery()
    then [SentFindnodeHash(id, m.deferred[0].target)] else []
  }

  lemma StartNextEffect(env: Env, s: Net, a: NodeID, now: nat)
    requires W.Aimed(s, a) && NodeAt(s, a).state != Unknown
    ensures var t := StartNextQuery(env, s, a, now);
            && Beside(a, s, t) && t.tab == s.tab && t.nodes.Keys >= s.nodes.Keys
            && MovesUp(NodeAt(s, a), NodeAt(t, a)) && t.log == s.log + SentUp(NodeAt(s, a), a)
            && NodeAt(t, a) == NodeAt(s, a).(pending := NodeAt(t, a).pending, deferred := NodeAt(t, a).deferred)
  {
    var n := NodeAt(s, a);
    if n.deferred != [] {
      var q := n.deferred[0];
      assert q in n.deferred && q.remote == RemoteNode(a);
      assert Start(env, s, q, now)
          == if n.state.CanQuery() && n.pending == None then (SendQuery(s, a, q), true) else (s, false);
    }
  }

  /** The node that is challenged, if it was known, is pinged and contested. */
  ghost predicate Challenges(s: Net, t: Net, last: Option<Peer>) {
    && t.tab.self == s.tab.self && s.log <= t.log && t.chans == s.chans && t.tab == s.tab
    && forall j: NodeID ::
         if last.Some? && last.value.id == j && NodeAt(s, j).state == Known
         then NodeAt(t, j) == NodeAt(s, j).(state := Contested, pingEcho := NodeAt(t, j).pingEcho)
         else NodeAt(t, j) == NodeAt(s, j)
  }

  lemma InsertEffect(env: Env, s: Net, a: NodeID, now: nat)
    ensures Challenges(TabAdd(s, a), InsertKnown(env, s, a, now), TabChallenges(s, a))
  {
    var last, u := TabChallenges(s, a), TabAdd(s, a);
    if last.Some? && NodeAt(u, last.value.id).state == Known {
      var v := SetState(u, last.value.id, Contested);
      assert InsertKnown(env, s, a, now) == Transition(env, u, last.value.id, Contested, now)
          == SendPing(env, v, last.value.id, OwnAddress(NodeAt(v, last.value.id)), now);
    }
  }

  /** A node that becomes known: no failures on record, the first waiting query under way. */
  predicate Settled(m: Node, n: Node) {
    && n.state == Known && n.queryTimeouts == 0 && n.ep == m.ep && n.pingEcho == m.pingEcho
    && MovesUp(m.(state := Known), n)
  }

  lemma NotChallenged(s: Net, a: NodeID)
    ensures TabChallenges(s, a).Some? ==> a != s.tab.self.id && TabChallenges(s, a).value.id != a
  {
    BucketZero(s.tab, a);
    if TabChallenges(s, a).Some? { T.ChallengedOther(T.BucketOf(s.tab, PeerOf(a)), PeerOf(a)); }
  }

  /** Entering known: the node is settled and inserted; nobody else changes but the node in the way. */
  ghost predicate Enters(s: Net, t: Net, a: NodeID) {
    && Settled(NodeAt(s, a), NodeAt(t, a)) && t.tab == TabAdd(s, a).tab && t.chans == s.chans
    && s.log + SentUp(NodeAt(s, a).(state := Known), a) <= t.log
    && forall j: NodeID :: j != a ==>
         if TabChallenges(s, a).Some? && TabChallenges(s, a).value.id == j && NodeAt(s, j).state == Known
         then NodeAt(t, j).state == Contested && NodeAt(t, j).ep == NodeAt(s, j).ep
         else NodeAt(t, j) == NodeAt(s, j)
  }

  lemma KnownEffect(env: Env, s: Net, a: NodeID, now: nat)
    requires W.Aimed(s, a) && NodeAt(s, a).state != Known
    ensures Enters(s, Transition(env, s, a, Known, now), a)
  {
    var s1 := SetState(s, a, Known);
    var s2 := ResetFailures(s1, a);
    var s3 := StartNextQuery(env, s2, a, now);
    var t := InsertKnown(env, s3, a, now);
    assert Transition(env, s, a, Known, now) == Enter(env, s1, a, Known, now) == EnterKnown(env, s1, a, now) == t;
    assert W.Aimed(s2, a) && NodeAt(s2, a).state == Known;
    StartNextEffect(env, s2, a, now);
    InsertEffect(env, s3, a, now);
    NotChallenged(s3, a);
    EntersBySteps(s, s2, s3, t, a);
  }

  lemma EntersBySteps(s: Net, s2: Net, s3: Net, t: Net, a: NodeID)
    requires s2 == s.(nodes := s2.nodes) && NodeAt(s2, a) == NodeAt(s, a).(state := Known, queryTimeouts := 0)
    requires forall j: NodeID :: j != a ==> NodeAt(s2, j) == NodeAt(s, j)
    requires Beside(a, s2, s3) && s3.tab == s2.tab && MovesUp(NodeAt(s2, a), NodeAt(s3, a))
    requires s3.log == s2.log + SentUp(NodeAt(s2, a), a)
    requires NodeAt(s3, a) == NodeAt(s2, a).(pending := NodeAt(s3, a).pending, deferred := NodeAt(s3, a).deferred)
    requires Challenges(TabAdd(s3, a), t, TabChallenges(s3, a))
    requires TabChallenges(s3, a).Some? ==> TabChallenges(s3, a).value.id != a
    ensures Enters(s, t, a)
  {
    var u := TabAdd(s3, a);
    assert TabChallenges(s3, a) == TabChallenges(s, a) && u.tab == TabAdd(s, a).tab;
    forall j: NodeID | j != a
      ensures if TabChallenges(s, a).Some? && TabChallenges(s, a).value.id == j && NodeAt(s, j).state == Known
              then NodeAt(t, j).state == Contested && NodeAt(t, j).ep == NodeAt(s, j).ep
              else NodeAt(t, j) == NodeAt(s, j)
    {
      assert NodeAt(u, j) == NodeAt(s3, j) == NodeAt(s, j);
    }
  }

  // ----- events of the node itself, up to the transition

  /** Nothing but node a is different yet, and that node not in its state or its line. */
  ghost predicate Prepared(a: NodeID, s: Net, u: Net) {
    && u.tab.self == s.tab.self && s.log <= u.log
    && (forall j: NodeID :: j != a ==> NodeAt(u, j) == NodeAt(s, j))
    && NodeAt(u, a).state == NodeAt(s, a).state && NodeAt(u, a).deferred == NodeAt(s, a).deferred
  }

  /** What handling a ping changes before the transition. */
  function PingTaken(env: Env, s: Net, pkt: Packet, now: nat): Net
    requires pkt.body.Ping?
  {
    var a := pkt.remoteID;
    var h := HandlePing(InternNode(s, pkt), a, pkt, now);
    if NodeAt(s, a).state == Unknown then SendPing(env, h, a, MakeEndpoint(pkt.ip, pkt.port, pkt.port), now) else h
  }

  lemma PingTakenPrepared(env: Env, s: Net, pkt: Packet, now: nat)
    requires pkt.body.Ping?
    ensures var u := PingTaken(env, s, pkt, now);
            && Prepared(pkt.remoteID, s, u) && u.tab == s.tab && u.chans == s.chans
            && NodeAt(u, pkt.remoteID).pending == NodeAt(s, pkt.remoteID).pending
  {
  }

  lemma PingShape(env: Env, s: Net, pkt: Packet, now: nat) returns (u: Net)
    requires pkt.body.Ping?
    ensures u == PingTaken(env, s, pkt, now)
    ensures Step(env, s, Receive(pkt), now)
            == Transition(env, u, pkt.remoteID, OwnNext(NodeAt(s, pkt.remoteID), Receive(pkt)), now)
    ensures Prepared(pkt.remoteID, s, u) && u.tab == s.tab && u.chans == s.chans
    ensures NodeAt(u, pkt.remoteID).pending == NodeAt(s, pkt.remoteID).pending
  {
    var a, v := pkt.remoteID, InternNode(s, pkt);
    u := PingTaken(env, s, pkt, now);
    PingTakenPrepared(env, s, pkt, now);
    HandleChecked(env, v, a, PacketEvent(pkt), now);
    assert HandleInState(env, v, a, PacketEvent(pkt), now) == Handled(u, OwnNext(NodeAt(s, a), Receive(pkt)), None);
  }

  /** A pong that is not to be accepted, or of no use in this state, changes no state. */
  lemma PongShape(env: Env, s: Net, pkt: Packet, now: nat) returns (u: Net)
    requires pkt.body.Pong?
    ensures Step(env, s, Receive(pkt), now)
            == Transition(env, u, pkt.remoteID, OwnNext(NodeAt(s, pkt.remoteID), Receive(pkt)), now)
    ensures Prepared(pkt.remoteID, s, u) && u.tab == s.tab && u.chans == s.chans
    ensures NodeAt(u, pkt.remoteID).pending == NodeAt(s, pkt.remoteID).pending
  {
    var a, v, tok := pkt.remoteID, InternNode(s, pkt), pkt.body.replyTok;
    if tok != EchoBytes(NodeAt(s, a).pingEcho) {
      u := v;
      assert CheckPacket(v, a, pkt) == (v, Some(ReplyTokenMismatch));
    } else {
      var w := Accepted(v, a, tok);
      u := if NodeAt(s, a).state in {Unknown, RemoteVerifyWait} then w else HandleKnownPong(w, a);
      assert CheckPacket(v, a, pkt) == (w, None);
      assert HandleInState(env, w, a, PacketEvent(pkt), now).net == u;
      assert HandleInState(env, w, a, PacketEvent(pkt), now).next == OwnNext(NodeAt(s, a), Receive(pkt));
    }
    StayPut(env, u, a, now);
  }

  /** Neither ping nor pong, and no answer that is waited for. */
  /** A queryable node's request, up to the transition that changes nothing. */
  lemma RequestTaken(env: Env, v: Net, a: NodeID, pkt: Packet, now: nat)
    requires !pkt.body.Ping? && !pkt.body.Pong? && (pkt.body.Neighbors? ==> NodeAt(v, a).pending == None)
    ensures var u := HandleQueryEvent(env, v, a, PacketEvent(pkt), now).net;
            && u == v.(log := u.log) && v.log <= u.log
            && HandleQueryEvent(env, v, a, PacketEvent(pkt), now).next == NodeAt(v, a).state
  {
  }

  lemma RequestShape(env: Env, s: Net, pkt: Packet, now: nat) returns (u: Net)
    requires !pkt.body.Ping? && !pkt.body.Pong? && (pkt.body.Neighbors? ==> NodeAt(s, pkt.remoteID).pending == None)
    ensures Step(env, s, Receive(pkt), now) == u
    ensures Prepared(pkt.remoteID, s, u) && u.tab == s.tab && u.chans == s.chans
    ensures NodeAt(u, pkt.remoteID).pending == NodeAt(s, pkt.remoteID).pending
  {
    var a, v := pkt.remoteID, InternNode(s, pkt);
    HandleChecked(env, v, a, PacketEvent(pkt), now);
    QueryDispatch(env, v, a, PacketEvent(pkt), now);
    RequestTaken(env, v, a, pkt, now);
    u := if NodeAt(v, a).state.CanQuery() then HandleQueryEvent(env, v, a, PacketEvent(pkt), now).net else v;
    StayPut(env, u, a, now);
  }

  /** A timeout, once the timer is off, up to the transition. */
  lemma PongTimerShape(env: Env, d: Net, a: NodeID, now: nat) returns (u: Net)
    requires NodeAt(d, a).state in {VerifyInit, VerifyWait, Contested}
    ensures var next := if NodeAt(d, a).state == Contested then Unresponsive else Unknown;
            Handle(env, d, a, TimerFired(PongTimeout), now).0 == Transition(env, u, a, next, now)
    ensures u == if NodeAt(d, a).state == Contested then TabDeleteReplace(d, a) else d
  {
    HandleChecked(env, d, a, TimerFired(PongTimeout), now);
    u := if NodeAt(d, a).state == Contested then TabDeleteReplace(d, a) else d;
  }

  lemma PingTimerShape(env: Env, d: Net, a: NodeID, now: nat)
    requires NodeAt(d, a).state == RemoteVerifyWait
    ensures Handle(env, d, a, TimerFired(PingTimeout), now).0 == Transition(env, d, a, Known, now)
  {
    HandleChecked(env, d, a, TimerFired(PingTimeout), now);
  }

  lemma QueryTimerShape(env: Env, d: Net, a: NodeID, now: nat)
    requires NodeAt(d, a).state.CanQuery()
    ensures var n := NodeAt(d, a);
            Handle(env, d, a, TimerFired(NeighboursTimeout), now).0
            == Transition(env, QueryTimedOut(d, a), a,
                          if n.state == Known && n.queryTimeouts >= 5 then Contested else n.state, now)
  {
    QueryTimeoutResult(env, d, a, now);
    StayPut(env, QueryTimedOut(d, a), a, now);
  }

  /** Which timers a node can have in which states. */
  lemma TimerStates(env: Env, s: Net, timeout: Timeout)
    requires Inv(env, s, {}) && timeout in s.timers
    ensures var state := NodeAt(s, timeout.node).state;
            match timeout.ev
            case PongTimeout => state in {VerifyInit, VerifyWait, Contested}
            case PingTimeout => state == RemoteVerifyWait
            case NeighboursTimeout => state.CanQuery()
  {
    assert timeout == Timeout(timeout.ev, timeout.node);
    assert NodeOk(env, s, timeout.node, {});
  }

  lemma TimerShape(env: Env, s: Net, timeout: Timeout, now: nat) returns (u: Net)
    requires Inv(env, s, {}) && timeout in s.timers
    ensures Step(env, s, Fire(timeout), now)
            == Transition(env, u, timeout.node, OwnNext(NodeAt(s, timeout.node), Fire(timeout)), now)
    ensures Prepared(timeout.node, s, u)
    ensures timeout.ev == NeighboursTimeout || NodeAt(u, timeout.node).pending == NodeAt(s, timeout.node).pending
    ensures timeout.ev == NeighboursTimeout || u.chans == s.chans
    ensures u.tab == if timeout.ev == PongTimeout && NodeAt(s, timeout.node).state == Contested
                     then TabDeleteReplace(s, timeout.node).tab else s.tab
  {
    var a, d := timeout.node, Disarm(s, timeout.ev, timeout.node);
    TimerStates(env, s, timeout);
    match timeout.ev
    case PongTimeout => u := PongTimerShape(env, d, a, now);
    case PingTimeout => u := d; PingTimerShape(env, d, a, now);
    case NeighboursTimeout => u := QueryTimedOut(d, a); QueryTimerShape(env, d, a, now);
  }

  // ----- neighbours

  lemma AnswerShape(env: Env, s: Net, pkt: Packet, now: nat)
    requires Inv(env, s, {}) && Hashing(env) && IsAnswer(s, pkt)
    ensures var a, q := pkt.remoteID, NodeAt(s, pkt.remoteID).pending.value;
            var (u, answer) := MeetNeighbours(env, Meeting(s, pkt), pkt.ip, pkt.body.nodes, now);
            Step(env, s, Receive(pkt), now) == FinishQuery(env, u, a, q, answer, now)
  {
    var a, v := pkt.remoteID, InternNode(s, pkt);
    InternNodeInv(env, s, pkt);
    assert NodeOk(env, s, a, {});
    HandleChecked(env, v, a, PacketEvent(pkt), now);
    QueryDispatch(env, v, a, PacketEvent(pkt), now);
    HandleNeighboursInv(env, v, a, pkt, now);
    StayPut(env, HandleNeighbours(env, v, a, pkt, now).0, a, now);
  }

  /** The query is answered, and the next one in line takes its place. */
  ghost predicate Finished(s: Net, t: Net, a: NodeID, q: Query, answer: Answer) {
    var m, n := NodeAt(s, a), NodeAt(t, a);
    && t.tab == s.tab && (forall j: NodeID :: j != a ==> NodeAt(t, j) == NodeAt(s, j))
    && (forall c: nat :: Chan(t, c) == Chan(s, c) + if c == q.reply then [answer] else [])
    && n == m.(pending := n.pending, deferred := n.deferred) && MovesUp(m.(pending := None), n)
    && t.log == s.log + SentUp(m.(pending := None), a)
  }

  lemma FinishEffect(env: Env, s: Net, a: NodeID, q: Query, answer: Answer, now: nat)
    requires W.Aimed(s, a) && NodeAt(s, a).state.CanQuery()
    ensures Finished(s, FinishQuery(env, s, a, q, answer, now), a, q, answer)
  {
    var u := Reply(s, q, answer);
    var v := Put(u, a, NodeAt(u, a).(pending := None));
    assert W.Aimed(v, a);
    StartNextEffect(env, v, a, now);
    assert forall c: nat :: Chan(v, c) == Chan(s, c) + if c == q.reply then [answer] else [];
  }

  /** All of an answer. */
  lemma AnswerEffect(env: Env, s: Net, pkt: Packet, now: nat)
    requires Inv(env, s, {}) && Hashing(env) && IsAnswer(s, pkt)
    ensures var a, q := pkt.remoteID, NodeAt(s, pkt.remoteID).pending.value;
            var (u, answer) := MeetNeighbours(env, Meeting(s, pkt), pkt.ip, pkt.body.nodes, now);
            && Met(env, Meeting(s, pkt), pkt.ip, pkt.body.nodes, u, answer)
            && Finished(u, Step(env, s, Receive(pkt), now), a, q, answer)
            && NodeAt(u, a).state == NodeAt(s, a).state && NodeAt(s, a).state.CanQuery()
            && NodeAt(u, a).pending == NodeAt(s, a).pending && NodeAt(u, a).deferred == NodeAt(s, a).deferred
  {
    var a, d := pkt.remoteID, Meeting(s, pkt);
    var (u, answer) := MeetNeighbours(env, d, pkt.ip, pkt.body.nodes, now);
    assert NodeOk(env, s, a, {});
    AnswerShape(env, s, pkt, now);
    MeetEffect(env, d, pkt.ip, pkt.body.nodes, now);
    assert NodeAt(d, a) == NodeAt(s, a).(ep := NodeAt(d, a).ep);
    assert Taken(env, d, pkt.ip, pkt.body.nodes, a) ==> Welcomed(d, u, a);
    W.InvAimed(env, s, a);
    assert W.Aimed(u, a);
    FinishEffect(env, u, a, NodeAt(s, a).pending.value, answer, now);
  }

  // ----- states after a step

  function StateAt(s: Net, id: NodeID): NodeState {
    NodeAt(s, id).state
  }

  lemma QuietTransition(env: Env, s: Net, a: NodeID, next: NodeState, now: nat)
    requires next != Known && next != Unknown
    ensures var t := Transition(env, s, a, next, now);
            && Beside(a, s, t) && t.tab == s.tab && StateAt(t, a) == next
            && NodeAt(t, a) == NodeAt(s, a).(state := next, pingEcho := NodeAt(t, a).pingEcho)
  {
    var v, t := SetState(s, a, next), Transition(env, s, a, next, now);
    assert StateAt(s, a) == next ==> t == s;
    assert StateAt(s, a) != next ==> t == Enter(env, v, a, next, now);
  }

  lemma UnknownTransition(env: Env, s: Net, a: NodeID, now: nat)
    requires StateAt(s, a) != Unknown
    ensures var t := Transition(env, s, a, Unknown, now);
            && t.tab == TabDelete(s, a).tab && t.log == s.log
            && NodeAt(t, a) == Forgotten(NodeAt(s, a)).(state := Unknown)
            && (forall j: NodeID :: j != a ==> NodeAt(t, j) == NodeAt(s, j))
            && t.chans == AbortQueries(s, a).chans && t.answered == AbortQueries(s, a).answered
  {
    var u := SetState(s, a, Unknown);
    assert Transition(env, s, a, Unknown, now) == Enter(env, u, a, Unknown, now) == EnterUnknown(u, a);
    ReplyNilFields(s, TabDelete(u, a), NodeAt(s, a).deferred);
    ReplyNilFields(s, s, NodeAt(s, a).deferred);
  }

  /** The state of any node after a transition of node a. */
  lemma TransitionStates(env: Env, s: Net, a: NodeID, next: NodeState, now: nat, id: NodeID)
    requires W.Aimed(s, a)
    ensures var last := TabChallenges(s, a);
            StateAt(Transition(env, s, a, next, now), id)
            == if id == a then next
               else if next == Known && StateAt(s, a) != Known && last.Some? && last.value.id == id
                       && StateAt(s, id) == Known
               then Contested else StateAt(s, id)
  {
    if StateAt(s, a) == next {
      StayPut(env, s, a, now);
    } else if next == Known {
      KnownEffect(env, s, a, now);
    } else if next == Unknown {
      UnknownTransition(env, s, a, now);
    } else {
      QuietTransition(env, s, a, next, now);
    }
  }

  lemma InTheWayIsChallenged(s: Net, a: NodeID, id: NodeID)
    ensures a != s.tab.self.id && InTheWay(s, a, id) <==> TabChallenges(s, a).Some? && TabChallenges(s, a).value.id == id
  {
    BucketZero(s.tab, a);
    var es := s.tab.buckets[0].entries;
    assert T.HasId(es, a) <==> T.IndexOf(es, a) < |es|;
  }

  lemma PushedByActor(s: Net, i: Input, a: NodeID, id: NodeID)
    requires About(i, a)
    ensures Pushes(s, i, id) <==> Joins(s, i, a) && InTheWay(s, a, id)
  {
  }

  /** What the diagram says about one step. */
  ghost predicate ByDiagram(env: Env, s: Net, i: Input, t: Net, id: NodeID) {
    StateAt(t, id)
    == if About(i, id) then OwnNext(NodeAt(s, id), i)
       else if StateAt(s, id) == Unknown && Meets(env, s, i, id) then VerifyInit
       else if StateAt(s, id) == Known && Pushes(s, i, id) then Contested
       else StateAt(s, id)
  }

  lemma OwnStates(env: Env, s: Net, i: Input, now: nat, a: NodeID, u: Net, id: NodeID)
    requires About(i, a) && W.Aimed(s, a) && Prepared(a, s, u) && !(i.Receive? && IsAnswer(s, i.pkt))
    requires OwnNext(NodeAt(s, a), i) == Known && StateAt(s, a) != Known ==> u.tab == s.tab
    requires Step(env, s, i, now) == Transition(env, u, a, OwnNext(NodeAt(s, a), i), now)
    ensures ByDiagram(env, s, i, Step(env, s, i, now), id)
  {
    assert W.Aimed(u, a);
    TransitionStates(env, u, a, OwnNext(NodeAt(s, a), i), now, id);
    PushedByActor(s, i, a, id);
    InTheWayIsChallenged(s, a, id);
    NotChallenged(u, a);
  }

  lemma ReceiveStates(env: Env, s: Net, pkt: Packet, now: nat, id: NodeID)
    requires Inv(env, s, {}) && Hashing(env) && !IsAnswer(s, pkt)
    ensures ByDiagram(env, s, Receive(pkt), Step(env, s, Receive(pkt), now), id)
  {
    var a, u := pkt.remoteID, s;
    W.InvAimed(env, s, a);
    if pkt.body.Ping? {
      u := PingShape(env, s, pkt, now);
    } else if pkt.body.Pong? {
      u := PongShape(env, s, pkt, now);
    } else {
      u := RequestShape(env, s, pkt, now);
      StayPut(env, u, a, now);
    }
    OwnStates(env, s, Receive(pkt), now, a, u, id);
  }

  lemma FireStates(env: Env, s: Net, timeout: Timeout, now: nat, id: NodeID)
    requires Inv(env, s, {}) && timeout in s.timers
    ensures ByDiagram(env, s, Fire(timeout), Step(env, s, Fire(timeout), now), id)
  {
    var u := TimerShape(env, s, timeout, now);
    W.InvAimed(env, s, timeout.node);
    OwnStates(env, s, Fire(timeout), now, timeout.node, u, id);
  }

  lemma AnswerStates(env: Env, s: Net, pkt: Packet, now: nat, id: NodeID)
    requires Inv(env, s, {}) && Hashing(env) && IsAnswer(s, pkt)
    ensures ByDiagram(env, s, Receive(pkt), Step(env, s, Receive(pkt), now), id)
  {
    AnswerEffect(env, s, pkt, now);
    PushedByActor(s, Receive(pkt), pkt.remoteID, id);
    assert id != pkt.remoteID ==> NodeAt(Meeting(s, pkt), id) == NodeAt(s, id);
    assert Taken(env, Meeting(s, pkt), pkt.ip, pkt.body.nodes, id)
           ==> Welcomed(Meeting(s, pkt), MeetNeighbours(env, Meeting(s, pkt), pkt.ip, pkt.body.nodes, now).0, id);
  }

  lemma SubmitStates(env: Env, s: Net, q: Query, now: nat, id: NodeID)
    ensures StateAt(SubmitQuery(env, s, q, now), id)
            == if StateAt(s, id) == Unknown && q.remote == RemoteNode(id) then VerifyInit else StateAt(s, id)
  {
    if q.remote.RemoteNode? && StateAt(s, q.remote.id) == Unknown {
      VerifyOne(env, s.(submitted := s.submitted + {q}), q.remote.id, now);
    }
  }

  lemma RefreshOneStates(env: Env, s: Net, seed: RpcNode, now: nat, id: NodeID)
    ensures StateAt(RefreshOne(env, s, seed, now), id)
            == if StateAt(s, id) == Unknown && seed.id == id then VerifyInit else StateAt(s, id)
  {
    var t := InternFromDB(s.(seeds := s.seeds + {seed.id}), seed);
    assert StateAt(t, id) == StateAt(s, id);
    if StateAt(t, seed.id) == Unknown { VerifyOne(env, t, seed.id, now); }
  }

  lemma {:induction false} RefreshStates(env: Env, s: Net, seeds: seq<RpcNode>, now: nat, id: NodeID)
    ensures StateAt(RefreshSeeds(env, s, seeds, now), id)
            == if StateAt(s, id) == Unknown && Named(seeds, id) then VerifyInit else StateAt(s, id)
  {
    if seeds != [] {
      var n := |seeds| - 1;
      RefreshStates(env, s, seeds[..n], now, id);
      RefreshOneStates(env, RefreshSeeds(env, s, seeds[..n], now), seeds[n], now, id);
      NamedSnoc(seeds, id);
    }
  }

  lemma NamedSnoc(seeds: seq<RpcNode>, id: NodeID)
    requires seeds != []
    ensures var n := |seeds| - 1; Named(seeds, id) <==> Named(seeds[..n], id) || seeds[n].id == id
  {
    var n := |seeds| - 1;
    if k :| 0 <= k < n && seeds[..n][k].id == id { assert seeds[k].id == id; }
    if k :| 0 <= k < n && seeds[k].id == id { assert seeds[..n][k].id == id; }
  }

  lemma StepStates(env: Env, s: Net, i: Input, now: nat, id: NodeID)
    requires Inv(env, s, {}) && Hashing(env) && Enabled(s, i)
    ensures ByDiagram(env, s, i, Step(env, s, i, now), id)
  {
    match i
    case Receive(pkt) =>
      if IsAnswer(s, pkt) { AnswerStates(env, s, pkt, now, id); } else { ReceiveStates(env, s, pkt, now, id); }
    case Fire(timeout) => FireStates(env, s, timeout, now, id);
    case Submit(q) => SubmitStates(env, s, q, now, id);
    case Refresh(seeds) => RefreshStates(env, s, seeds, now, id);
  }

  /** The life of a node: in every run and after every step, each node is in exactly the state that its own event,
      being met, or being in the way leads to. */
  lemma StateChangesExactly(env: Env, self: NodeID, ins: Inputs, i: Input, now: nat, id: NodeID)
    requires Hashing(env) && Legal(env, self, ins) && Enabled(Run(env, self, ins), i)
    ensures ByDiagram(env, Run(env, self, ins), i, Step(env, Run(env, self, ins), i, now), id)
  {
    RunInv(env, self, ins);
    StepStates(env, Run(env, self, ins), i, now, id);
  }
}
