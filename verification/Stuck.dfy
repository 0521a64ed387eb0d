/** Runs in which something gets stuck, from every legal run that holds a node known and from the start: a
    contested node for which no pong timer is armed, and a query left behind at an idle node. */
module Stuck {
  import opened Slices
  import opened Distance
  import opened NodesByDistance
  import opened Protocol
  import opened Invariants
  import opened Runs
  import opened Theorems
  import W = Waiting

  /** Other than ourselves, contested, and with no pong timer. */
  predicate IsStuck(s: Net, id: NodeID) {
    id != s.tab.self.id && NodeAt(s, id).state == Contested && Timeout(PongTimeout, id) !in s.timers
  }

  /** What a failed query leaves of a known node. */
  predicate Failed(s: Net, t: Net, id: NodeID) {
    var m, n := NodeAt(s, id), NodeAt(t, id);
    if m.queryTimeouts < MAX_FINDNODE_FAILURES
    then n.state == Known && n.queryTimeouts == m.queryTimeouts + 1 && n.pingEcho == m.pingEcho
    else n.state == Contested && (Timeout(PongTimeout, id) in t.timers <==> m.pingEcho == None)
  }

  lemma {:induction false} SerialBound(qs: set<Query>) returns (n: nat)
    ensures forall q :: q in qs ==> q.serial < n
  {
    if qs == {} {
      n := 0;
    } else {
      var q :| q in qs;
      n := SerialBound(qs - {q});
      if q.serial >= n { n := q.serial + 1; }
    }
  }

  /** A lookup asks a known node that is free. */
  lemma AskKnown(env: Env, self: NodeID, ins: Inputs, id: NodeID) returns (more: Inputs)
    requires Hashing(env) && Legal(env, self, ins) && NodeAt(Run(env, self, ins), id).state == Known
    ensures Legal(env, self, ins + more)
    ensures var m, n := NodeAt(Run(env, self, ins), id), NodeAt(Run(env, self, ins + more), id);
            n.pending.Some? && n.state == m.state && n.pingEcho == m.pingEcho && n.queryTimeouts == m.queryTimeouts
  {
    var s := Run(env, self, ins);
    if NodeAt(s, id).pending.Some? {
      more := [];
      assert ins + more == ins;
    } else {
      var serial := SerialBound(s.submitted);
      var q := Query(serial, RemoteNode(id), ZERO_HASH, 0);
      more := [(Submit(q), 0)];
      RunStep(env, self, ins, Submit(q), 0);
      assert Step(env, s, Submit(q), 0) == SendQuery(s.(submitted := s.submitted + {q}), id, q);
    }
  }

  /** The query of a known node times out. */
  lemma QueryFails(env: Env, self: NodeID, ins: Inputs, id: NodeID) returns (more: Inputs)
    requires Hashing(env) && Legal(env, self, ins) && id != self
    requires NodeAt(Run(env, self, ins), id).state == Known && NodeAt(Run(env, self, ins), id).pending.Some?
    ensures more == [(Fire(Timeout(NeighboursTimeout, id)), 0)]
    ensures Legal(env, self, ins + more) && Failed(Run(env, self, ins), Run(env, self, ins + more), id)
  {
    var s, fire := Run(env, self, ins), Timeout(NeighboursTimeout, id);
    TimersAgree(env, self, ins, id);
    PendingAndFailures(env, self, ins, id);
    RunSelf(env, self, ins);
    more := [(Fire(fire), 0)];
    RunStep(env, self, ins, Fire(fire), 0);
    QueryTimeoutResult(env, Disarm(s, NeighboursTimeout, id), id, 0);
    FailedStep(env, s, id);
  }

  lemma FailedStep(env: Env, s: Net, id: NodeID)
    requires NodeAt(s, id).state == Known && NodeAt(s, id).pending.Some? && id != s.tab.self.id
    requires NodeAt(s, id).queryTimeouts <= MAX_FINDNODE_FAILURES && Timeout(PongTimeout, id) !in s.timers
    requires Timeout(NeighboursTimeout, id) in s.timers
    ensures Failed(s, Step(env, s, Fire(Timeout(NeighboursTimeout, id)), 0), id)
  {
    var u := Disarm(s, NeighboursTimeout, id);
    QueryTimeoutResult(env, u, id, 0);
  }

  lemma Concat(env: Env, self: NodeID, ins: Inputs, a: Inputs, b: Inputs)
    ensures Run(env, self, ins + a + b) == Run(env, self, ins + (a + b))
    ensures Legal(env, self, ins + a + b) == Legal(env, self, ins + (a + b))
  {
    assert ins + a + b == ins + (a + b);
  }

  lemma OneFailure(env: Env, self: NodeID, ins: Inputs, id: NodeID) returns (more: Inputs)
    requires Hashing(env) && Legal(env, self, ins) && id != self && NodeAt(Run(env, self, ins), id).state == Known
    ensures Legal(env, self, ins + more) && Failed(Run(env, self, ins), Run(env, self, ins + more), id)
  {
    var asked := AskKnown(env, self, ins, id);
    var failed := QueryFails(env, self, ins + asked, id);
    more := asked + failed;
    Concat(env, self, ins, asked, failed);
  }

  /** Contested in the end, with a timer if no ping was outstanding at the start. */
  predicate Contests(s: Net, t: Net, id: NodeID) {
    NodeAt(t, id).state == Contested && (Timeout(PongTimeout, id) in t.timers <==> NodeAt(s, id).pingEcho == None)
  }

  /** Six failures in a row. */
  lemma {:induction false} FailUntilContested(env: Env, self: NodeID, ins: Inputs, id: NodeID, left: nat)
    returns (more: Inputs)
    requires Hashing(env) && Legal(env, self, ins) && id != self && NodeAt(Run(env, self, ins), id).state == Known
    requires NodeAt(Run(env, self, ins), id).queryTimeouts + left == MAX_FINDNODE_FAILURES
    ensures Legal(env, self, ins + more) && Contests(Run(env, self, ins), Run(env, self, ins + more), id)
    decreases left
  {
    more := OneFailure(env, self, ins, id);
    if left > 0 {
      var rest := FailUntilContested(env, self, ins + more, id, left - 1);
      Concat(env, self, ins, more, rest);
      more := more + rest;
    }
  }

  lemma Contest(env: Env, self: NodeID, ins: Inputs, id: NodeID) returns (more: Inputs)
    requires Hashing(env) && Legal(env, self, ins) && id != self && NodeAt(Run(env, self, ins), id).state == Known
    ensures Legal(env, self, ins + more) && Contests(Run(env, self, ins), Run(env, self, ins + more), id)
  {
    PendingAndFailures(env, self, ins, id);
    more := FailUntilContested(env, self, ins, id, MAX_FINDNODE_FAILURES - NodeAt(Run(env, self, ins), id).queryTimeouts);
  }

  /** A contested node that does not answer in time. */
  lemma Unanswered(env: Env, self: NodeID, ins: Inputs, id: NodeID) returns (more: Inputs)
    requires Hashing(env) && Legal(env, self, ins) && NodeAt(Run(env, self, ins), id).state == Contested
    requires Timeout(PongTimeout, id) in Run(env, self, ins).timers
    ensures Legal(env, self, ins + more) && NodeAt(Run(env, self, ins + more), id).state == Unresponsive
  {
    var fire := Timeout(PongTimeout, id);
    more := [(Fire(fire), 0)];
    RunStep(env, self, ins, Fire(fire), 0);
    UnansweredStep(env, Run(env, self, ins), id);
  }

  lemma UnansweredStep(env: Env, s: Net, id: NodeID)
    requires NodeAt(s, id).state == Contested
    ensures NodeAt(Step(env, s, Fire(Timeout(PongTimeout, id)), 0), id).state == Unresponsive
  {
    var u := TabDeleteReplace(Disarm(s, PongTimeout, id), id);
    assert Step(env, s, Fire(Timeout(PongTimeout, id)), 0) == Transition(env, u, id, Unresponsive, 0);
    assert Transition(env, u, id, Unresponsive, 0) == SetState(u, id, Unresponsive);
  }

  /** A silent contested node becomes unresponsive, and known again when it pings us: its old ping is still
      outstanding. */
  lemma BackWithOldPing(env: Env, self: NodeID, ins: Inputs, id: NodeID) returns (more: Inputs)
    requires Hashing(env) && Legal(env, self, ins) && id != self && NodeAt(Run(env, self, ins), id).state == Contested
    requires Timeout(PongTimeout, id) in Run(env, self, ins).timers
    ensures Legal(env, self, ins + more)
    ensures var n := NodeAt(Run(env, self, ins + more), id); n.state == Known && n.pingEcho.Some?
  {
    var silent := Unanswered(env, self, ins, id);
    var ping := Packet(id, [], 0, [], Ping(Endpoint([], 0, 0), Endpoint([], 0, 0), 0));
    PingAfterUnresponsive(env, self, ins + silent, ping, 0);
    more := silent + [(Receive(ping), 0)];
    Concat(env, self, ins, silent, [(Receive(ping), 0)]);
  }

  /** Contested once more, this time without a new ping. */
  lemma SecondContest(env: Env, self: NodeID, ins: Inputs, id: NodeID) returns (more: Inputs)
    requires Hashing(env) && Legal(env, self, ins) && id != self && NodeAt(Run(env, self, ins), id).state == Contested
    requires Timeout(PongTimeout, id) in Run(env, self, ins).timers
    ensures Legal(env, self, ins + more) && IsStuck(Run(env, self, ins + more), id)
  {
    var back := BackWithOldPing(env, self, ins, id);
    var again := Contest(env, self, ins + back, id);
    Concat(env, self, ins, back, again);
    more := back + again;
    RunSelf(env, self, ins + more);
  }

  /** Every legal run that holds a node known can go on until the node is stuck: failures make it contested, an
      unanswered ping unresponsive, its own ping known again, and failures contested again. */
  lemma KnownCanGetStuck(env: Env, self: NodeID, ins: Inputs, id: NodeID) returns (more: Inputs)
    requires Hashing(env) && Legal(env, self, ins) && id != self && NodeAt(Run(env, self, ins), id).state == Known
    ensures Legal(env, self, ins + more) && IsStuck(Run(env, self, ins + more), id)
  {
    more := Contest(env, self, ins, id);
    RunSelf(env, self, ins + more);
    if Timeout(PongTimeout, id) in Run(env, self, ins + more).timers {
      var second := SecondContest(env, self, ins + more, id);
      Concat(env, self, ins, more, second);
      more := more + second;
    }
  }

  /** A ping and a matching pong make any other node known. */
  lemma KnownFromStart(env: Env, self: NodeID, id: NodeID) returns (ins: Inputs)
    requires id != self
    ensures Legal(env, self, ins)
    ensures NodeAt(Run(env, self, ins), id).state == Known && NodeAt(Run(env, self, ins), id).queryTimeouts == 0
  {
    var ping := Packet(id, [], 0, [], Ping(Endpoint([], 0, 0), Endpoint([], 0, 0), 0));
    RunStep(env, self, [], Receive(ping), 0);
    var one: Inputs := [] + [(Receive(ping), 0)];
    var s := Run(env, self, one);
    assert NodeAt(s, id).state == VerifyWait;
    var pong := Packet(id, [], 0, [], Pong(Endpoint([], 0, 0), EchoBytes(NodeAt(s, id).pingEcho), 0));
    RunStep(env, self, one, Receive(pong), 0);
    ins := one + [(Receive(pong), 0)];
    PongMakesKnown(env, s, pong);
  }

  lemma PongMakesKnown(env: Env, s: Net, pong: Packet)
    requires pong.body.Pong? && NodeAt(s, pong.remoteID).state in {VerifyWait, Contested, Unresponsive}
    requires pong.body.replyTok == EchoBytes(NodeAt(s, pong.remoteID).pingEcho)
    ensures var n := NodeAt(Step(env, s, Receive(pong), 0), pong.remoteID); n.state == Known && n.queryTimeouts == 0
  {
    var id, t := pong.remoteID, InternNode(s, pong);
    var u := HandleKnownPong(Accepted(t, id, pong.body.replyTok), id);
    assert CheckPacket(t, id, pong) == (Accepted(t, id, pong.body.replyTok), None);
    assert Step(env, s, Receive(pong), 0) == Transition(env, u, id, Known, 0);
    KnownKeepsEcho(env, u, id, 0);
  }

  /** For any other node there is a legal run from the start that ends with it stuck. */
  lemma StuckIsReachable(env: Env, self: NodeID, id: NodeID) returns (ins: Inputs)
    requires Hashing(env) && id != self
    ensures Legal(env, self, ins) && IsStuck(Run(env, self, ins), id)
  {
    var known := KnownFromStart(env, self, id);
    var more := KnownCanGetStuck(env, self, known, id);
    ins := known + more;
  }

  // ----- a query left behind

  /** Another query for a node that has one under way goes into line. */
  lemma AskBusy(env: Env, self: NodeID, ins: Inputs, id: NodeID) returns (more: Inputs)
    requires Hashing(env) && Legal(env, self, ins)
    requires NodeAt(Run(env, self, ins), id).state == Known && NodeAt(Run(env, self, ins), id).pending.Some?
    ensures Legal(env, self, ins + more)
    ensures var m, n := NodeAt(Run(env, self, ins), id), NodeAt(Run(env, self, ins + more), id);
            n.deferred != [] && n == m.(deferred := n.deferred)
  {
    var s := Run(env, self, ins);
    var serial := SerialBound(s.submitted);
    var q := Query(serial, RemoteNode(id), ZERO_HASH, 0);
    more := [(Submit(q), 0)];
    RunStep(env, self, ins, Submit(q), 0);
    assert Step(env, s, Submit(q), 0) == DeferQuery(s.(submitted := s.submitted + {q}), id, q);
  }

  /** Idle, with nothing armed that could change that. */
  ghost predicate LeftBehind(s: Net, id: NodeID) {
    W.Idle(s, id) && forall ev :: Timeout(ev, id) !in s.timers
  }

  /** The query under way times out; the one in line stays there, and no timer of the node is left. */
  lemma TimeoutLeavesBehind(env: Env, self: NodeID, ins: Inputs, id: NodeID) returns (more: Inputs)
    requires Hashing(env) && Legal(env, self, ins) && id != self
    requires var n := NodeAt(Run(env, self, ins), id);
             n.state == Known && n.pending.Some? && n.deferred != [] && n.queryTimeouts < MAX_FINDNODE_FAILURES
    ensures Legal(env, self, ins + more) && LeftBehind(Run(env, self, ins + more), id)
  {
    TimersAgree(env, self, ins, id);
    TimeoutLeavesLine(env, self, ins, id, 0);
    more := QueryFails(env, self, ins, id);
    RunStep(env, self, ins, Fire(Timeout(NeighboursTimeout, id)), 0);
    NoTimers(env, self, ins + more, id);
  }

  lemma NoTimers(env: Env, self: NodeID, ins: Inputs, id: NodeID)
    requires Hashing(env) && Legal(env, self, ins)
    requires NodeAt(Run(env, self, ins), id).state == Known && NodeAt(Run(env, self, ins), id).pending == None
    ensures forall ev :: Timeout(ev, id) !in Run(env, self, ins).timers
  {
    TimersAgree(env, self, ins, id);
    forall ev ensures Timeout(ev, id) !in Run(env, self, ins).timers {
      match ev
      case PongTimeout =>
      case PingTimeout =>
      case NeighboursTimeout =>
    }
  }

  lemma BusyCanLeaveBehind(env: Env, self: NodeID, ins: Inputs, id: NodeID) returns (more: Inputs)
    requires Hashing(env) && Legal(env, self, ins) && id != self
    requires var n := NodeAt(Run(env, self, ins), id);
             n.state == Known && n.pending.Some? && n.queryTimeouts < MAX_FINDNODE_FAILURES
    ensures Legal(env, self, ins + more) && LeftBehind(Run(env, self, ins + more), id)
  {
    var second := AskBusy(env, self, ins, id);
    var timeout := TimeoutLeavesBehind(env, self, ins + second, id);
    Concat(env, self, ins, second, timeout);
    more := second + timeout;
  }

  lemma KnownCanLeaveBehind(env: Env, self: NodeID, ins: Inputs, id: NodeID) returns (more: Inputs)
    requires Hashing(env) && Legal(env, self, ins) && id != self
    requires var n := NodeAt(Run(env, self, ins), id); n.state == Known && n.queryTimeouts < MAX_FINDNODE_FAILURES
    ensures Legal(env, self, ins + more) && LeftBehind(Run(env, self, ins + more), id)
  {
    var first := AskKnown(env, self, ins, id);
    var rest := BusyCanLeaveBehind(env, self, ins + first, id);
    Concat(env, self, ins, first, rest);
    more := first + rest;
  }

  /** A pong that echoes what is remembered makes a contested or unresponsive node known, without failures. */
  lemma PongResets(env: Env, self: NodeID, ins: Inputs, id: NodeID) returns (more: Inputs)
    requires Legal(env, self, ins) && NodeAt(Run(env, self, ins), id).state in {Contested, Unresponsive}
    ensures Legal(env, self, ins + more)
    ensures var n := NodeAt(Run(env, self, ins + more), id); n.state == Known && n.queryTimeouts == 0
  {
    var s := Run(env, self, ins);
    var pong := Packet(id, [], 0, [], Pong(Endpoint([], 0, 0), EchoBytes(NodeAt(s, id).pingEcho), 0));
    more := [(Receive(pong), 0)];
    RunStep(env, self, ins, Receive(pong), 0);
    PongMakesKnown(env, s, pong);
  }

  /** From a contested or unresponsive node to one that is known and can fail again. */
  lemma ResetCanLeaveBehind(env: Env, self: NodeID, ins: Inputs, id: NodeID) returns (more: Inputs)
    requires Hashing(env) && Legal(env, self, ins) && id != self
    requires NodeAt(Run(env, self, ins), id).state in {Contested, Unresponsive}
    ensures Legal(env, self, ins + more) && LeftBehind(Run(env, self, ins + more), id)
  {
    var known := PongResets(env, self, ins, id);
    var rest := KnownCanLeaveBehind(env, self, ins + known, id);
    Concat(env, self, ins, known, rest);
    more := known + rest;
  }

  /** Every legal run that holds a node queryable can go on until a query is left behind there. */
  lemma QueryableCanLeaveBehind(env: Env, self: NodeID, ins: Inputs, id: NodeID) returns (more: Inputs)
    requires Hashing(env) && Legal(env, self, ins) && id != self && NodeAt(Run(env, self, ins), id).state.CanQuery()
    ensures Legal(env, self, ins + more) && LeftBehind(Run(env, self, ins + more), id)
  {
    var n := NodeAt(Run(env, self, ins), id);
    if n.state != Known {
      more := ResetCanLeaveBehind(env, self, ins, id);
    } else if n.queryTimeouts < MAX_FINDNODE_FAILURES {
      more := KnownCanLeaveBehind(env, self, ins, id);
    } else {
      var contest := Contest(env, self, ins, id);
      var rest := ResetCanLeaveBehind(env, self, ins + contest, id);
      Concat(env, self, ins, contest, rest);
      more := contest + rest;
    }
  }

  /** For any other node there is a legal run from the start that leaves a query behind there. */
  lemma LeftBehindIsReachable(env: Env, self: NodeID, id: NodeID) returns (ins: Inputs)
    requires Hashing(env) && id != self
    ensures Legal(env, self, ins) && LeftBehind(Run(env, self, ins), id)
  {
    var known := KnownFromStart(env, self, id);
    var more := KnownCanLeaveBehind(env, self, known, id);
    ins := known + more;
  }
}
