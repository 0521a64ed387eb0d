/** What each step of the event loop achieves (discovery/net.go), for every run: who gets into the table, what a
    lookup is told, what is answered to a request, what a refresh and a submission start, and what a timeout ends. */
module Effects {
  import opened Slices
  import opened Words
  import opened Addresses
  import opened NodesByDistance
  import opened Protocol
  import opened Invariants
  import opened Preservation
  import opened Runs
  import opened Theorems
  import opened Neighbours
  import opened Lifecycle
  import T = Table
  import E = TableEffects
  import M = Monotone
  import W = Waiting

  /** All nodes are in bucket 0. */
  function Slots(s: Net): seq<Peer> {
    s.tab.buckets[0].entries
  }

  function Queue(s: Net): seq<Peer> {
    s.tab.buckets[0].replacements
  }

  // ----- joining the table

  /** A node has got into the table, in front of the others or, if all sixteen slots are taken, as the newest
      replacement. */
  ghost predicate Joined(s: Net, t: Net, id: NodeID) {
    && E.OnlyBucket(s.tab, t.tab, 0)
    && E.Inserted(s.tab.buckets[0], t.tab.buckets[0], PeerOf(id))
  }

  lemma AddJoins(s: Net, id: NodeID)
    requires id != s.tab.self.id
    ensures Joined(s, TabAdd(s, id), id)
    ensures var t := TabAdd(s, id);
            TabChallenges(s, id) == if E.Queued(s.tab.buckets[0], t.tab.buckets[0], PeerOf(id))
                                    then Some(Slots(s)[|Slots(s)| - 1]) else None
  {
    BucketZero(s.tab, id);
    E.AddEffect(s.tab, PeerOf(id));
  }

  /** In short: in the first slot, or the last replacement of a bucket that is full without it and keeps its slots. */
  lemma JoinedPlace(s: Net, t: Net, id: NodeID)
    requires Joined(s, t, id)
    ensures || (Slots(t) != [] && Slots(t)[0] == PeerOf(id))
            || (|Slots(s)| >= 16 && !T.HasId(Slots(s), id) && Slots(t) == Slots(s)
                && Queue(t) != [] && Queue(t)[|Queue(t)| - 1] == PeerOf(id))
  {
  }

  /** What becoming known comes to. */
  ghost predicate Welcome(s: Net, t: Net, id: NodeID) {
    && Joined(s, t, id)
    && (E.Queued(s.tab.buckets[0], t.tab.buckets[0], PeerOf(id)) ==>
          var last := Slots(s)[|Slots(s)| - 1].id;
          StateAt(s, last) == Known ==> StateAt(t, last) == Contested)
    && NodeAt(t, id).queryTimeouts == 0 && MovesUp(NodeAt(s, id).(state := Known), NodeAt(t, id)) && s.log <= t.log
    && (forall e :: e in SentUp(NodeAt(s, id).(state := Known), id) ==> e in t.log)
  }

  lemma EntersIsWelcome(s: Net, u: Net, t: Net, id: NodeID)
    requires id != s.tab.self.id && Prepared(id, s, u) && u.tab == s.tab && NodeAt(u, id).pending == NodeAt(s, id).pending
    requires StateAt(s, id) != Known && Enters(u, t, id)
    ensures Welcome(s, t, id)
  {
    AddJoins(u, id);
    NotChallenged(u, id);
    assert Joined(s, t, id);
    if E.Queued(s.tab.buckets[0], t.tab.buckets[0], PeerOf(id)) { LastContested(s, u, t, id); }
    assert SentUp(NodeAt(u, id).(state := Known), id) == SentUp(NodeAt(s, id).(state := Known), id);
    LogHas(u.log, SentUp(NodeAt(s, id).(state := Known), id), t.log);
  }

  lemma LogHas(before: seq<Effect>, more: seq<Effect>, log: seq<Effect>)
    requires before + more <= log
    ensures forall e :: e in more ==> e in log
  {
    forall k | 0 <= k < |more| ensures more[k] in log {
      assert (before + more)[|before| + k] == log[|before| + k];
    }
  }

  lemma LastContested(s: Net, u: Net, t: Net, id: NodeID)
    requires id != s.tab.self.id && Prepared(id, s, u) && u.tab == s.tab && Enters(u, t, id) && StateAt(s, id) != Known
    requires E.Queued(s.tab.buckets[0], t.tab.buckets[0], PeerOf(id))
    ensures var last := Slots(s)[|Slots(s)| - 1].id; StateAt(s, last) == Known ==> StateAt(t, last) == Contested
  {
    AddJoins(u, id);
    NotChallenged(u, id);
  }

  /** A step that makes another node known puts it into the table; if only the queue had room, the node in the last
      slot is contested afterwards if it was known.  The first waiting query is under way. */
  lemma KnownJoins(env: Env, self: NodeID, ins: Inputs, i: Input, now: nat, id: NodeID)
    requires Hashing(env) && Legal(env, self, ins) && Enabled(Run(env, self, ins), i) && id != self
    requires StateAt(Run(env, self, ins), id) != Known
    requires StateAt(Step(env, Run(env, self, ins), i, now), id) == Known
    ensures Welcome(Run(env, self, ins), Step(env, Run(env, self, ins), i, now), id)
  {
    var s := Run(env, self, ins);
    RunInv(env, self, ins);
    RunSelf(env, self, ins);
    StepStates(env, s, i, now, id);
    KnownJoinsStep(env, s, i, now, id);
  }

  lemma KnownJoinsStep(env: Env, s: Net, i: Input, now: nat, id: NodeID)
    requires Inv(env, s, {}) && Hashing(env) && Enabled(s, i) && id != s.tab.self.id
    requires StateAt(s, id) != Known && About(i, id) && OwnNext(NodeAt(s, id), i) == Known
    ensures Welcome(s, Step(env, s, i, now), id)
  {
    var u := KnownShape(env, s, i, now, id);
    W.InvAimed(env, s, id);
    assert W.Aimed(u, id);
    KnownEffect(env, u, id, now);
    EntersIsWelcome(s, u, Step(env, s, i, now), id);
  }

  /** The event that makes a node known, up to the transition. */
  lemma KnownShape(env: Env, s: Net, i: Input, now: nat, id: NodeID) returns (u: Net)
    requires Inv(env, s, {}) && Hashing(env) && Enabled(s, i) && About(i, id)
    requires StateAt(s, id) != Known && OwnNext(NodeAt(s, id), i) == Known
    ensures Step(env, s, i, now) == Transition(env, u, id, Known, now)
    ensures Prepared(id, s, u) && u.tab == s.tab && NodeAt(u, id).pending == NodeAt(s, id).pending
  {
    match i
    case Receive(pkt) =>
      if pkt.body.Ping? { u := PingShape(env, s, pkt, now); } else { u := PongShape(env, s, pkt, now); }
    case Fire(timeout) => u := TimerShape(env, s, timeout, now);
  }

  // ----- becoming contested

  lemma ContestOne(env: Env, s: Net, id: NodeID, now: nat)
    requires StateAt(s, id) == Known && NodeAt(s, id).pingEcho == None && id != s.tab.self.id
    ensures Transition(env, s, id, Contested, now).log == s.log + [FirstPing(env, NodeAt(s, id).ep, id, now)]
  {
    var v := SetState(s, id, Contested);
    assert Transition(env, s, id, Contested, now) == Enter(env, v, id, Contested, now)
        == SendPing(env, v, id, OwnAddress(NodeAt(v, id)), now);
  }

  /** The node in the way is pinged. */
  lemma PushedIsPinged(env: Env, s: Net, a: NodeID, now: nat, id: NodeID)
    requires W.Aimed(s, a) && StateAt(s, a) != Known && a != s.tab.self.id && InTheWay(s, a, id)
    requires id != a && id != s.tab.self.id && StateAt(s, id) == Known && NodeAt(s, id).pingEcho == None
    ensures FirstPing(env, NodeAt(s, id).ep, id, now) in Transition(env, s, a, Known, now).log
  {
    var s1 := SetState(s, a, Known);
    var s2 := ResetFailures(s1, a);
    var s3 := StartNextQuery(env, s2, a, now);
    assert Transition(env, s, a, Known, now) == Enter(env, s1, a, Known, now) == EnterKnown(env, s1, a, now)
        == InsertKnown(env, s3, a, now);
    assert W.Aimed(s2, a) && NodeAt(s2, a).state == Known;
    StartNextEffect(env, s2, a, now);
    InTheWayIsChallenged(s3, a, id);
    ContestOne(env, TabAdd(s3, a), id, now);
  }

  /** A known node that fails once too often is pinged. */
  lemma FailedIsPinged(env: Env, s: Net, now: nat, id: NodeID)
    requires Inv(env, s, {}) && Timeout(NeighboursTimeout, id) in s.timers && id != s.tab.self.id
    requires StateAt(s, id) == Known && NodeAt(s, id).queryTimeouts >= 5 && NodeAt(s, id).pingEcho == None
    ensures FirstPing(env, NodeAt(s, id).ep, id, now) in Step(env, s, Fire(Timeout(NeighboursTimeout, id)), now).log
  {
    var d := Disarm(s, NeighboursTimeout, id);
    QueryTimerShape(env, d, id, now);
    ContestOne(env, QueryTimedOut(d, id), id, now);
  }

  /** A node that becomes contested is pinged at its address, unless it has not answered an older ping yet. */
  lemma ContestedIsPinged(env: Env, self: NodeID, ins: Inputs, i: Input, now: nat, id: NodeID)
    requires Hashing(env) && Legal(env, self, ins) && Enabled(Run(env, self, ins), i) && id != self
    requires StateAt(Run(env, self, ins), id) == Known && NodeAt(Run(env, self, ins), id).pingEcho == None
    requires StateAt(Step(env, Run(env, self, ins), i, now), id) == Contested
    ensures var s := Run(env, self, ins);
            FirstPing(env, NodeAt(s, id).ep, id, now) in Step(env, s, i, now).log
  {
    var s := Run(env, self, ins);
    RunInv(env, self, ins);
    RunSelf(env, self, ins);
    StepStates(env, s, i, now, id);
    if About(i, id) {
      FailedInput(env, s, i, id);
      FailedIsPinged(env, s, now, id);
    } else {
      var a: NodeID :| Joins(s, i, a) && InTheWay(s, a, id);
      JoinPings(env, s, i, now, a, id);
    }
  }

  lemma JoinPings(env: Env, s: Net, i: Input, now: nat, a: NodeID, id: NodeID)
    requires Inv(env, s, {}) && Hashing(env) && Enabled(s, i) && Joins(s, i, a) && InTheWay(s, a, id)
    requires id != a && id != s.tab.self.id && StateAt(s, id) == Known && NodeAt(s, id).pingEcho == None
    ensures FirstPing(env, NodeAt(s, id).ep, id, now) in Step(env, s, i, now).log
  {
    var u := KnownShape(env, s, i, now, a);
    W.InvAimed(env, s, a);
    assert W.Aimed(u, a) && InTheWay(u, a, id);
    PushedIsPinged(env, u, a, now, id);
  }

  lemma FailedInput(env: Env, s: Net, i: Input, id: NodeID)
    requires Inv(env, s, {}) && Enabled(s, i) && About(i, id)
    requires StateAt(s, id) == Known && OwnNext(NodeAt(s, id), i) == Contested
    ensures i == Fire(Timeout(NeighboursTimeout, id)) && NodeAt(s, id).queryTimeouts >= 5
  {
    if i.Fire? { TimerStates(env, s, i.timeout); }
  }

  // ----- steps that leave the table alone

  /** Only nodes that become known, timeouts of pings and refreshes change the table. */
  lemma TableStays(env: Env, self: NodeID, ins: Inputs, i: Input, now: nat)
    requires Hashing(env) && Legal(env, self, ins) && Enabled(Run(env, self, ins), i)
    requires !i.Refresh? && !(i.Fire? && i.timeout.ev == PongTimeout)
    requires forall id: NodeID :: id != self && StateAt(Step(env, Run(env, self, ins), i, now), id) == Known ==>
                                    StateAt(Run(env, self, ins), id) == Known
    ensures Step(env, Run(env, self, ins), i, now).tab == Run(env, self, ins).tab
  {
    var s := Run(env, self, ins);
    RunInv(env, self, ins);
    RunSelf(env, self, ins);
    match i
    case Receive(pkt) =>
      StepStates(env, s, i, now, pkt.remoteID);
      ReceiveTable(env, s, pkt, now);
    case Fire(timeout) =>
      StepStates(env, s, i, now, timeout.node);
      FireTable(env, s, timeout, now);
    case Submit(q) => SubmitTable(env, s, q, now);
  }

  /** A transition to a state other than unknown leaves the table alone unless another node becomes known. */
  lemma TransitionTable(env: Env, s: Net, a: NodeID, next: NodeState, now: nat)
    requires W.Aimed(s, a) && next != Unknown
    requires a == s.tab.self.id || next != Known || StateAt(s, a) == Known
    ensures Transition(env, s, a, next, now).tab == s.tab
  {
    if StateAt(s, a) == next {
      StayPut(env, s, a, now);
    } else if next == Known {
      KnownEffect(env, s, a, now);
    } else {
      QuietTransition(env, s, a, next, now);
    }
  }

  lemma ReceiveTable(env: Env, s: Net, pkt: Packet, now: nat)
    requires Inv(env, s, {}) && Hashing(env)
    requires pkt.remoteID == s.tab.self.id || StateAt(s, pkt.remoteID) == Known
             || OwnNext(NodeAt(s, pkt.remoteID), Receive(pkt)) != Known
    ensures Step(env, s, Receive(pkt), now).tab == s.tab
  {
    var a, u := pkt.remoteID, s;
    W.InvAimed(env, s, a);
    if IsAnswer(s, pkt) {
      AnswerEffect(env, s, pkt, now);
    } else if pkt.body.Ping? {
      u := PingShape(env, s, pkt, now);
      QuietNext(env, s, pkt, u, now);
    } else if pkt.body.Pong? {
      u := PongShape(env, s, pkt, now);
      QuietNext(env, s, pkt, u, now);
    } else {
      u := RequestShape(env, s, pkt, now);
    }
  }

  lemma QuietNext(env: Env, s: Net, pkt: Packet, u: Net, now: nat)
    requires W.Aimed(s, pkt.remoteID) && Prepared(pkt.remoteID, s, u)
    requires pkt.remoteID == s.tab.self.id || StateAt(s, pkt.remoteID) == Known
             || OwnNext(NodeAt(s, pkt.remoteID), Receive(pkt)) != Known
    ensures Transition(env, u, pkt.remoteID, OwnNext(NodeAt(s, pkt.remoteID), Receive(pkt)), now).tab == u.tab
  {
    var a, next := pkt.remoteID, OwnNext(NodeAt(s, pkt.remoteID), Receive(pkt));
    assert W.Aimed(u, a);
    if next == Unknown { StayPut(env, u, a, now); } else { TransitionTable(env, u, a, next, now); }
  }

  lemma FireTable(env: Env, s: Net, timeout: Timeout, now: nat)
    requires Inv(env, s, {}) && timeout in s.timers && timeout.ev != PongTimeout
    requires timeout.node == s.tab.self.id || StateAt(s, timeout.node) == Known
             || OwnNext(NodeAt(s, timeout.node), Fire(timeout)) != Known
    ensures Step(env, s, Fire(timeout), now).tab == s.tab
  {
    var a := timeout.node;
    var u := TimerShape(env, s, timeout, now);
    W.InvAimed(env, s, a);
    assert W.Aimed(u, a) && NodeOk(env, s, a, {}) && timeout == Timeout(timeout.ev, a);
    TransitionTable(env, u, a, OwnNext(NodeAt(s, a), Fire(timeout)), now);
  }

  lemma SubmitTable(env: Env, s: Net, q: Query, now: nat)
    ensures SubmitQuery(env, s, q, now).tab == s.tab
  {
    if q.remote.RemoteNode? && StateAt(s, q.remote.id) == Unknown {
      VerifyOne(env, s.(submitted := s.submitted + {q}), q.remote.id, now);
    }
  }

  // ----- leaving the table

  /** A contested node that does not answer in time is unresponsive and loses its slots, and the newest replacement
      moves into the first one if there is room. */
  lemma ContestedTimesOut(env: Env, self: NodeID, ins: Inputs, now: nat, id: NodeID) returns (ix: seq<nat>)
    requires Hashing(env) && Legal(env, self, ins)
    requires StateAt(Run(env, self, ins), id) == Contested && Timeout(PongTimeout, id) in Run(env, self, ins).timers
    ensures var s := Run(env, self, ins);
            var t := Step(env, s, Fire(Timeout(PongTimeout, id)), now);
            && StateAt(t, id) == Unresponsive && t.log == s.log && t.chans == s.chans
            && (forall j: NodeID :: j != id ==> NodeAt(t, j) == NodeAt(s, j))
            && E.OnlyBucket(s.tab, t.tab, 0) && E.Replaced(s.tab.buckets[0], t.tab.buckets[0], id, ix)
  {
    var s, timeout := Run(env, self, ins), Timeout(PongTimeout, id);
    var u := PongTimerShape(env, Disarm(s, PongTimeout, id), id, now);
    assert Step(env, s, Fire(timeout), now) == Transition(env, u, id, Unresponsive, now);
    BecomesUnresponsive(env, u, id, now);
    ix := SlotsReplaced(s, id);
  }

  lemma BecomesUnresponsive(env: Env, s: Net, id: NodeID, now: nat)
    requires StateAt(s, id) == Contested
    ensures Transition(env, s, id, Unresponsive, now) == SetState(s, id, Unresponsive)
  {
    assert Transition(env, s, id, Unresponsive, now) == Enter(env, SetState(s, id, Unresponsive), id, Unresponsive, now);
  }

  lemma SlotsReplaced(s: Net, id: NodeID) returns (ix: seq<nat>)
    ensures var t := TabDeleteReplace(s, id);
            E.OnlyBucket(s.tab, t.tab, 0) && E.Replaced(s.tab.buckets[0], t.tab.buckets[0], id, ix)
  {
    BucketZero(s.tab, id);
    ix := E.DeleteReplaceEffect(s.tab, PeerOf(id));
  }

  function CountOn(qs: seq<Query>, c: nat): nat {
    if qs == [] then 0 else CountOn(qs[..|qs| - 1], c) + if qs[|qs| - 1].reply == c then 1 else 0
  }

  /** One nil value for each of these queries on its channel. */
  ghost predicate Nils(s: Net, t: Net, qs: seq<Query>, c: nat) {
    && Chan(s, c) <= Chan(t, c) && |Chan(t, c)| == |Chan(s, c)| + CountOn(qs, c)
    && forall k :: |Chan(s, c)| <= k < |Chan(t, c)| ==> Chan(t, c)[k] == []
  }

  lemma {:induction false} ReplyNilEffect(s: Net, qs: seq<Query>, c: nat)
    ensures Nils(s, ReplyNil(s, qs), qs, c)
    ensures forall q :: q in ReplyNil(s, qs).answered <==> q in s.answered || q in qs
  {
    if qs != [] {
      var n := |qs| - 1;
      ReplyNilEffect(s, qs[..n], c);
      assert qs == qs[..n] + [qs[n]];
    }
  }

  /** The first slot with the ID, if there is one, is free. */
  ghost predicate SlotFreed(s: Net, t: Net, id: NodeID) {
    && E.OnlyBucket(s.tab, t.tab, 0) && Queue(t) == Queue(s)
    && if T.HasId(Slots(s), id)
       then exists k: nat :: E.FirstSlot(Slots(s), id, k) && Slots(t) == Slots(s)[..k] + Slots(s)[k + 1..]
       else Slots(t) == Slots(s)
  }

  lemma DeleteFrees(s: Net, id: NodeID)
    ensures SlotFreed(s, TabDelete(s, id), id)
  {
    BucketZero(s.tab, id);
    E.DeleteEffect(s.tab, PeerOf(id));
  }

  /** All queries that waited are answered with nil. */
  ghost predicate Aborted(s: Net, t: Net, qs: seq<Query>) {
    (forall c: nat :: Nils(s, t, qs, c)) && forall q :: q in t.answered <==> q in s.answered || q in qs
  }

  lemma AbortEffect(s: Net, id: NodeID)
    requires NodeAt(s, id).pending == None
    ensures Aborted(s, AbortQueries(s, id), NodeAt(s, id).deferred)
  {
    var qs := NodeAt(s, id).deferred;
    forall c: nat ensures Nils(s, AbortQueries(s, id), qs, c) { ReplyNilEffect(s, qs, c); }
    ReplyNilEffect(s, qs, 0);
  }

  /** A node that does not answer its first ping in time is unknown again: its first slot, if it was a seed and has
      one, is free, all queries that waited for it are answered with nil, and its record is wiped. */
  lemma VerificationTimesOut(env: Env, self: NodeID, ins: Inputs, now: nat, id: NodeID)
    requires Hashing(env) && Legal(env, self, ins) && Timeout(PongTimeout, id) in Run(env, self, ins).timers
    requires StateAt(Run(env, self, ins), id) in {VerifyInit, VerifyWait}
    ensures var s := Run(env, self, ins);
            var t := Step(env, s, Fire(Timeout(PongTimeout, id)), now);
            && NodeAt(t, id) == Node(NodeAt(s, id).ep, Unknown, None, None, [], 0)
            && (forall j: NodeID :: j != id ==> NodeAt(t, j) == NodeAt(s, j)) && t.log == s.log
            && Aborted(s, t, NodeAt(s, id).deferred) && SlotFreed(s, t, id)
  {
    var s, timeout := Run(env, self, ins), Timeout(PongTimeout, id);
    RunInv(env, self, ins);
    assert NodeOk(env, s, id, {});
    var d := Disarm(s, PongTimeout, id);
    HandleChecked(env, d, id, TimerFired(PongTimeout), now);
    assert Step(env, s, Fire(timeout), now) == Transition(env, d, id, Unknown, now);
    UnknownTransition(env, d, id, now);
    AbortEffect(d, id);
    DeleteFrees(d, id);
    SameChannels(d, AbortQueries(d, id), s, Step(env, s, Fire(timeout), now), NodeAt(s, id).deferred);
  }

  lemma SameChannels(s: Net, t: Net, u: Net, v: Net, qs: seq<Query>)
    requires Aborted(s, t, qs) && u.chans == s.chans && u.answered == s.answered
    requires v.chans == t.chans && v.answered == t.answered
    ensures Aborted(u, v, qs)
  {
    forall c: nat ensures Nils(u, v, qs, c) { assert Nils(s, t, qs, c); }
  }

  // ----- answers to queries

  /** The address of an interned node while a packet is handled: that of its sender is the packet's. */
  function AddressOf(s: Net, pkt: Packet, id: NodeID): Endpoint {
    if id == pkt.remoteID then Endpoint(pkt.ip, pkt.port, pkt.port) else NodeAt(s, id).ep
  }

  /** Which nodes of the packet a lookup hears of: other nodes than us with ports above 1024, with an address that is
      known or may be changed, or acceptable when they first get an object. */
  ghost predicate Heeded(env: Env, s: Net, pkt: Packet, i: nat)
    requires pkt.body.Neighbors? && i < |pkt.body.nodes|
  {
    var rns := pkt.body.nodes;
    var rn := rns[i];
    && rn.id != s.tab.self.id && rn.ep.udp > 1024
    && if rn.id in s.nodes then StateAt(s, rn.id) != Known || SameEndpoint(AddressOf(s, pkt, rn.id), rn.ep)
       else exists j :: 0 <= j <= i && Admits(env, pkt.ip, rns[j], rn.id)
  }

  lemma HeededIsTaken(env: Env, s: Net, pkt: Packet, i: nat)
    requires IsAnswer(s, pkt) && i < |pkt.body.nodes|
    ensures Heeded(env, s, pkt, i) <==> Takes(env, Meeting(s, pkt), pkt.ip, pkt.body.nodes, i)
  {
    assert pkt.remoteID in s.nodes;
    var id := pkt.body.nodes[i].id;
    assert id in Meeting(s, pkt).nodes <==> id in s.nodes;
  }

  /** An answer to the query under way: the lookup gets one value, which names node for node those that are heeded;
      the answer is its last, no other channel gets anything, and the next waiting query takes its place. */
  lemma NeighboursAnswer(env: Env, self: NodeID, ins: Inputs, pkt: Packet, now: nat) returns (a: Answer)
    requires Hashing(env) && Legal(env, self, ins) && IsAnswer(Run(env, self, ins), pkt)
    ensures var s := Run(env, self, ins);
            var t := Step(env, s, Receive(pkt), now);
            var m, n := NodeAt(s, pkt.remoteID), NodeAt(t, pkt.remoteID);
            && |a| == |pkt.body.nodes|
            && (forall i :: 0 <= i < |a| ==> a[i] == if Heeded(env, s, pkt, i) then Some(pkt.body.nodes[i].id) else None)
            && (forall c: nat :: Chan(t, c) == Chan(s, c) + if c == m.pending.value.reply then [a] else [])
            && MovesUp(m.(pending := None), n) && n.state == m.state
            && (forall e :: e in SentUp(m.(pending := None), pkt.remoteID) ==> e in t.log)
  {
    var s := Run(env, self, ins);
    RunInv(env, self, ins);
    AnswerEffect(env, s, pkt, now);
    a := MeetNeighbours(env, Meeting(s, pkt), pkt.ip, pkt.body.nodes, now).1;
    forall i | 0 <= i < |a| ensures a[i] == if Heeded(env, s, pkt, i) then Some(pkt.body.nodes[i].id) else None {
      HeededIsTaken(env, s, pkt, i);
    }
  }

  ghost predicate HeedsId(env: Env, s: Net, pkt: Packet, id: NodeID)
    requires pkt.body.Neighbors?
  {
    exists i :: 0 <= i < |pkt.body.nodes| && pkt.body.nodes[i].id == id && Heeded(env, s, pkt, i)
  }

  lemma HeedsIsTaken(env: Env, s: Net, pkt: Packet, id: NodeID)
    requires IsAnswer(s, pkt)
    ensures HeedsId(env, s, pkt, id) <==> Taken(env, Meeting(s, pkt), pkt.ip, pkt.body.nodes, id)
  {
    forall i | 0 <= i < |pkt.body.nodes|
      ensures Heeded(env, s, pkt, i) <==> Takes(env, Meeting(s, pkt), pkt.ip, pkt.body.nodes, i)
    {
      HeededIsTaken(env, s, pkt, i);
    }
  }

  /** What becomes of another node in an answer: a heeded one has an object and is not unknown any more, having been
      pinged if it was; all others are as before. */
  lemma NeighbourMet(env: Env, self: NodeID, ins: Inputs, pkt: Packet, now: nat, id: NodeID)
    requires Hashing(env) && Legal(env, self, ins) && IsAnswer(Run(env, self, ins), pkt) && id != pkt.remoteID
    ensures var s := Run(env, self, ins);
            var t := Step(env, s, Receive(pkt), now);
            if HeedsId(env, s, pkt, id)
            then Welcomed(s, t, id) && (StateAt(s, id) == Unknown ==> exists ep :: FirstPing(env, ep, id, now) in t.log)
            else NodeAt(t, id) == NodeAt(s, id)
  {
    var s, d := Run(env, self, ins), Meeting(Run(env, self, ins), pkt);
    RunInv(env, self, ins);
    AnswerEffect(env, s, pkt, now);
    HeedsIsTaken(env, s, pkt, id);
    assert NodeAt(d, id) == NodeAt(s, id) && NodeOk(env, s, id, {});
    if HeedsId(env, s, pkt, id) {
      var u := MeetNeighbours(env, d, pkt.ip, pkt.body.nodes, now).0;
      assert Welcomed(d, u, id);
      KeepsObject(env, u, pkt, s, now, id);
      if StateAt(s, id) == Unknown {
        var ep := TakenArePinged(env, d, pkt.ip, pkt.body.nodes, now, id);
        assert FirstPing(env, ep, id, now) in Step(env, s, Receive(pkt), now).log;
      }
    }
  }

  lemma KeepsObject(env: Env, u: Net, pkt: Packet, s: Net, now: nat, id: NodeID)
    requires Inv(env, s, {}) && Hashing(env) && IsAnswer(s, pkt) && id in u.nodes
    requires u == MeetNeighbours(env, Meeting(s, pkt), pkt.ip, pkt.body.nodes, now).0
    ensures id in Step(env, s, Receive(pkt), now).nodes
  {
    var a, q := pkt.remoteID, NodeAt(s, pkt.remoteID).pending.value;
    var answer := MeetNeighbours(env, Meeting(s, pkt), pkt.ip, pkt.body.nodes, now).1;
    AnswerShape(env, s, pkt, now);
    var v := Put(Reply(u, q, answer), a, NodeAt(u, a).(pending := None));
    M.StartNextLater(env, v, a, now);
  }

  /** The address that goes with a heeded node that the packet names once, and where its first ping goes. */
  lemma NeighbourAddress(env: Env, self: NodeID, ins: Inputs, pkt: Packet, now: nat, i: nat)
    requires Hashing(env) && Legal(env, self, ins) && IsAnswer(Run(env, self, ins), pkt)
    requires i < |pkt.body.nodes| && NamedOnce(pkt.body.nodes, i) && pkt.body.nodes[i].id != pkt.remoteID
    requires Heeded(env, Run(env, self, ins), pkt, i)
    ensures var s, rn := Run(env, self, ins), pkt.body.nodes[i];
            var t := Step(env, s, Receive(pkt), now);
            && NodeAt(t, rn.id).ep == AddressGiven(s, rn)
            && (StateAt(s, rn.id) == Unknown ==> FirstPing(env, AddressGiven(s, rn), rn.id, now) in t.log)
  {
    var s, rn := Run(env, self, ins), pkt.body.nodes[i];
    RunInv(env, self, ins);
    AnswerEffect(env, s, pkt, now);
    HeededIsTaken(env, s, pkt, i);
    AddressTaken(env, Meeting(s, pkt), pkt.ip, pkt.body.nodes, now, i);
    assert NodeAt(Meeting(s, pkt), rn.id) == NodeAt(s, rn.id) && NodeOk(env, s, rn.id, {});
  }

  // ----- requests of others

  /** A queryable node that asks for neighbours, by ID or by hash, is sent one answer, which names the nodes in the slots
      of bucket 0 in their order; nobody else is sent any.  Nothing is different but the address of the sender. */
  lemma FindnodeAnswered(env: Env, self: NodeID, ins: Inputs, pkt: Packet, now: nat) returns (ids: seq<NodeID>)
    requires Hashing(env) && Legal(env, self, ins) && (pkt.body.Findnode? || pkt.body.FindnodeHash?)
    ensures var s := Run(env, self, ins);
            var t := Step(env, s, Receive(pkt), now);
            && |ids| == |Slots(s)| && (forall i :: 0 <= i < |ids| ==> ids[i] == Slots(s)[i].id)
            && t.log == s.log + (if StateAt(s, pkt.remoteID).CanQuery() then [SentNeighbours(pkt.remoteID, ids)] else [])
            && t.tab == s.tab && t.chans == s.chans && t.timers == s.timers
            && (forall j: NodeID ::
                  NodeAt(t, j) == if j == pkt.remoteID then NodeAt(s, j).(ep := NodeAt(t, j).ep) else NodeAt(s, j))
  {
    var s, a := Run(env, self, ins), pkt.remoteID;
    var v := InternNode(s, pkt);
    var target := if pkt.body.Findnode? then env.keccakID(pkt.body.targetID) else pkt.body.target;
    ids := Ids(Slots(s));
    ClosestIgnoresTarget(env, self, ins, target);
    assert ClosestIds(v, target) == ClosestIds(s, target);
    HandleChecked(env, v, a, PacketEvent(pkt), now);
    QueryDispatch(env, v, a, PacketEvent(pkt), now);
    StayPut(env, v, a, now);
    StayPut(env, AnswerFindnode(v, a, target), a, now);
  }

  /** A ping is answered at once with a pong that carries its hash and goes back where it came from, and the node then
      has that address and the TCP port of the ping. */
  lemma PingAnswered(env: Env, self: NodeID, ins: Inputs, pkt: Packet, now: nat)
    requires Hashing(env) && Legal(env, self, ins) && pkt.body.Ping?
    ensures var s := Run(env, self, ins);
            var t, id := Step(env, s, Receive(pkt), now), pkt.remoteID;
            var ep, to := NodeAt(t, id).ep, MakeEndpoint(pkt.ip, pkt.port, pkt.body.from.tcp);
            && s.log + [HandledPing(id, pkt.body, pkt.hash), SentPong(id, Pong(to, pkt.hash, now + 20))] <= t.log
            && ep.udp == pkt.port && ep.tcp == pkt.body.from.tcp && SameIP(ep.ip, pkt.ip)
  {
    var s, id := Run(env, self, ins), pkt.remoteID;
    RunInv(env, self, ins);
    W.InvAimed(env, s, id);
    PingHandledAt(s, pkt, now);
    PingStep(env, s, pkt, now);
  }

  lemma PingHandledAt(s: Net, pkt: Packet, now: nat)
    requires pkt.body.Ping?
    ensures var h, id := HandlePing(InternNode(s, pkt), pkt.remoteID, pkt, now), pkt.remoteID;
            var ep, to := NodeAt(h, id).ep, MakeEndpoint(pkt.ip, pkt.port, pkt.body.from.tcp);
            && h.log == s.log + [HandledPing(id, pkt.body, pkt.hash), SentPong(id, Pong(to, pkt.hash, now + 20))]
            && ep.udp == pkt.port && ep.tcp == pkt.body.from.tcp && SameIP(ep.ip, pkt.ip)
  {
    SameIPIsCanon(Canon(pkt.ip), pkt.ip);
    assert Canon(Canon(pkt.ip)) == Canon(pkt.ip);
  }

  /** Whatever else a ping leads to, it leaves the address and the log so far alone. */
  lemma PingStep(env: Env, s: Net, pkt: Packet, now: nat)
    requires W.Aimed(s, pkt.remoteID) && pkt.body.Ping?
    ensures var id, t := pkt.remoteID, Step(env, s, Receive(pkt), now);
            var h := HandlePing(InternNode(s, pkt), id, pkt, now);
            NodeAt(t, id).ep == NodeAt(h, id).ep && h.log <= t.log
  {
    var id, next := pkt.remoteID, OwnNext(NodeAt(s, pkt.remoteID), Receive(pkt));
    var u := PingShape(env, s, pkt, now);
    assert W.Aimed(u, id);
    if next == StateAt(u, id) {
      StayPut(env, u, id, now);
    } else if next == Known {
      KnownEffect(env, u, id, now);
    } else {
      QuietTransition(env, u, id, next, now);
    }
  }

  /** The wire form of an address: the same address, in 4 bytes if it is IPv4, with these ports. */
  lemma WireForm(ip: Bytes, port: nat, tcp: nat)
    ensures var e := MakeEndpoint(ip, port, tcp);
            && e.udp == port && e.tcp == tcp
            && (|ip| == 4 || |ip| == 16 ==> SameIP(e.ip, ip) && (Mapped(ip) ==> |e.ip| == 4))
  {
  }

  /** The first ping of an unknown node is answered with a ping of our own to where it came from. */
  lemma FirstPingReturned(env: Env, self: NodeID, ins: Inputs, pkt: Packet, now: nat)
    requires Hashing(env) && Legal(env, self, ins) && pkt.body.Ping? && pkt.remoteID != self
    requires StateAt(Run(env, self, ins), pkt.remoteID) == Unknown
    ensures var s := Run(env, self, ins);
            var t, id := Step(env, s, Receive(pkt), now), pkt.remoteID;
            var back := Ping(env.ourEndpoint, MakeEndpoint(pkt.ip, pkt.port, pkt.port), now + 20);
            && |t.log| == |s.log| + 3 && t.log[|s.log| + 2] == SentPing(id, back)
            && NodeAt(t, id).pingEcho == Some(env.hash(self, back)) && Timeout(PongTimeout, id) in t.timers
  {
    var s, id := Run(env, self, ins), pkt.remoteID;
    RunInv(env, self, ins);
    RunSelf(env, self, ins);
    assert NodeOk(env, s, id, {});
    var u := PingShape(env, s, pkt, now);
    assert Transition(env, u, id, VerifyWait, now) == SetState(u, id, VerifyWait);
  }

  // ----- refreshing

  /** Where a refresh has got to after its first k seeds. */
  function Refreshed(env: Env, s: Net, seeds: seq<RpcNode>, k: nat, now: nat): Net
    requires k <= |seeds|
  {
    Step(env, s, Refresh(seeds[..k]), now)
  }

  /** A seed gets an object unless it has one, with the address configured. */
  lemma SeedInterned(s: Net, seed: RpcNode)
    ensures var t, id := InternFromDB(s.(seeds := s.seeds + {seed.id}), seed), seed.id;
            && id in t.nodes && id in t.seeds && t.tab == s.tab && t.log == s.log && t.chans == s.chans
            && NodeAt(t, id) == NodeAt(s, id).(ep := NodeAt(t, id).ep)
            && NodeAt(t, id).ep == (if id in s.nodes then NodeAt(s, id).ep
                                    else Endpoint(Canon(seed.ep.ip), seed.ep.udp, seed.ep.tcp))
            && (forall j: NodeID :: j != id ==> NodeAt(t, j) == NodeAt(s, j))
  {
  }

  /** What its turn does to a seed: it has an object and is not unknown, having been pinged at its address if it was,
      and it is in the table.  Nobody else is different. */
  ghost predicate Configured(env: Env, s: Net, t: Net, seed: RpcNode, now: nat) {
    var id := seed.id;
    && id in t.nodes && id in t.seeds && Joined(s, t, id) && t.chans == s.chans
    && NodeAt(t, id).ep == (if id in s.nodes then NodeAt(s, id).ep
                            else Endpoint(Canon(seed.ep.ip), seed.ep.udp, seed.ep.tcp))
    && (if StateAt(s, id) == Unknown
        then StateAt(t, id) == VerifyInit && t.log == s.log + [FirstPing(env, NodeAt(t, id).ep, id, now)]
        else NodeAt(t, id) == NodeAt(s, id) && t.log == s.log)
    && forall j: NodeID :: j != id ==> NodeAt(t, j) == NodeAt(s, j)
  }

  lemma SeedEffect(env: Env, s: Net, seed: RpcNode, now: nat)
    requires Inv(env, s, {}) && seed.id != s.tab.self.id
    ensures Configured(env, s, RefreshOne(env, s, seed, now), seed, now)
  {
    var id, t := seed.id, InternFromDB(s.(seeds := s.seeds + {seed.id}), seed);
    SeedInterned(s, seed);
    assert NodeOk(env, s, id, {});
    if StateAt(t, id) == Unknown { VerifyOne(env, t, id, now); }
    var u := VerifyNew(env, t, id, now);
    assert u.tab == s.tab;
    AddJoins(u, id);
  }

  /** A refresh works through its seeds: each one is configured when its turn comes. */
  lemma EverySeedJoins(env: Env, self: NodeID, ins: Inputs, seeds: seq<RpcNode>, k: nat, now: nat)
    requires Hashing(env) && Legal(env, self, ins) && k < |seeds| && seeds[k].id != self
    ensures var s := Run(env, self, ins);
            Configured(env, Refreshed(env, s, seeds, k, now), Refreshed(env, s, seeds, k + 1, now), seeds[k], now)
  {
    var s := Run(env, self, ins);
    RunInv(env, self, ins);
    RunSelf(env, self, ins);
    RefreshInv(env, s, seeds[..k], now);
    M.StepLater(env, s, Refresh(seeds[..k]), now);
    assert seeds[..k + 1][..k] == seeds[..k];
    SeedEffect(env, Refreshed(env, s, seeds, k, now), seeds[k], now);
  }

  // ----- queries of our own

  /** A query to ourselves is answered at once with the nodes in the slots of bucket 0. */
  lemma LocalQueryAnswered(env: Env, self: NodeID, ins: Inputs, q: Query, now: nat) returns (a: Answer)
    requires Hashing(env) && Legal(env, self, ins) && q.remote == LocalNode
    ensures var s := Run(env, self, ins);
            var t := Step(env, s, Submit(q), now);
            && |a| == |Slots(s)| && (forall i :: 0 <= i < |a| ==> a[i] == Some(Slots(s)[i].id))
            && (forall c: nat :: Chan(t, c) == Chan(s, c) + if c == q.reply then [a] else [])
            && t.answered == s.answered + {q} && t.nodes == s.nodes && t.log == s.log && t.tab == s.tab
            && t.timers == s.timers
  {
    var s := Run(env, self, ins);
    ClosestIgnoresTarget(env, self, ins, env.keccakHash(q.target));
    a := AllFound(Ids(Slots(s)));
    forall i | 0 <= i < |a| ensures a[i] == Some(Slots(s)[i].id) { AllFoundAt(Ids(Slots(s)), i); }
    assert ClosestIds(s.(submitted := s.submitted + {q}), env.keccakHash(q.target)) == Ids(Slots(s));
  }

  /** Started at once. */
  lemma QuerySent(env: Env, s: Net, q: Query, now: nat, id: NodeID)
    requires q.remote == RemoteNode(id) && StateAt(s, id).CanQuery() && NodeAt(s, id).pending == None
    ensures var t := SubmitQuery(env, s, q, now);
            && t.chans == s.chans && t.answered == s.answered
            && (forall j: NodeID :: j != id ==> NodeAt(t, j) == NodeAt(s, j))
            && NodeAt(t, id) == NodeAt(s, id).(pending := Some(q)) && t.log == s.log + [SentFindnodeHash(id, q.target)]
            && t.timers == s.timers + {Timeout(NeighboursTimeout, id)}
  {
    var u := s.(submitted := s.submitted + {q});
    assert SubmitQuery(env, s, q, now) == SendQuery(u, id, q);
  }

  /** Last in line. */
  lemma QueryDeferred(env: Env, s: Net, q: Query, now: nat, id: NodeID)
    requires q.remote == RemoteNode(id) && id != s.tab.self.id && W.Busy(s, id)
    requires StateAt(s, id) == Unknown ==> NodeAt(s, id).pingEcho == None
    ensures var t := SubmitQuery(env, s, q, now);
            && t.chans == s.chans && t.answered == s.answered
            && (forall j: NodeID :: j != id ==> NodeAt(t, j) == NodeAt(s, j))
            && NodeAt(t, id).pending == NodeAt(s, id).pending && NodeAt(t, id).deferred == NodeAt(s, id).deferred + [q]
            && t.log == s.log + if StateAt(s, id) == Unknown then [FirstPing(env, NodeAt(s, id).ep, id, now)] else []
  {
    var u := s.(submitted := s.submitted + {q});
    if StateAt(s, id) == Unknown {
      var t := Transition(env, u, id, VerifyInit, now);
      VerifyOne(env, u, id, now);
      assert SubmitQuery(env, s, q, now) == DeferQuery(t, id, q);
    } else {
      assert SubmitQuery(env, s, q, now) == DeferQuery(u, id, q);
    }
  }

  /** A query to another node: sent if the node is free and queryable, else last in its line; an unknown node is
      pinged. */
  lemma RemoteQueryTaken(env: Env, self: NodeID, ins: Inputs, q: Query, now: nat, id: NodeID)
    requires Hashing(env) && Legal(env, self, ins) && q.remote == RemoteNode(id) && id != self
    requires Enabled(Run(env, self, ins), Submit(q))
    ensures var s := Run(env, self, ins);
            var t := Step(env, s, Submit(q), now);
            var m, n := NodeAt(s, id), NodeAt(t, id);
            && t.chans == s.chans && t.answered == s.answered
            && (forall j: NodeID :: j != id ==> NodeAt(t, j) == NodeAt(s, j))
            && if m.state.CanQuery() && m.pending == None
               then n == m.(pending := Some(q)) && t.log == s.log + [SentFindnodeHash(id, q.target)]
                    && t.timers == s.timers + {Timeout(NeighboursTimeout, id)}
               else n.pending == m.pending && n.deferred == m.deferred + [q]
                    && t.log == s.log + if m.state == Unknown then [FirstPing(env, m.ep, id, now)] else []
  {
    var s := Run(env, self, ins);
    RunInv(env, self, ins);
    RunSelf(env, self, ins);
    assert NodeOk(env, s, id, {});
    if W.Busy(s, id) { QueryDeferred(env, s, q, now, id); } else { QuerySent(env, s, q, now, id); }
  }
}
