/** The main results about every run of the event loop, stated without the invariant behind them. */
module Theorems {
  import opened Slices
  import opened Distance
  import opened NodesByDistance
  import T = Table
  import opened Protocol
  import opened Invariants
  import opened Preservation
  import opened Runs
  import opened Monotone

  /** A verified node other than ourselves has, earlier in the run, delivered a pong that echoes the
      non-empty hash of a ping that we had sent to it before. */
  lemma VerifiedNodesAnswered(env: Env, self: NodeID, ins: Inputs, id: NodeID)
    requires Hashing(env) && Legal(env, self, ins) && id != self
    requires Verified(NodeAt(Run(env, self, ins), id).state)
    ensures var log := Run(env, self, ins).log;
            exists i: nat, j: nat, ping, tok ::
              && i < j < |log|
              && log[i] == SentPing(id, ping) && ping.Ping? && env.hash(self, ping) == tok != []
              && log[j] == AcceptedPong(id, tok)
  {
    var s := Run(env, self, ins);
    RunInv(env, self, ins);
    RunSelf(env, self, ins);
    assert NodeOk(env, s, id, {});
    var i, j, ping, tok := ProvedPing(env, s, id);
  }

  lemma {:induction false} RunSelf(env: Env, self: NodeID, ins: Inputs)
    ensures Run(env, self, ins).tab.self.id == self
  {
    if ins != [] {
      var last := ins[|ins| - 1];
      RunSelf(env, self, ins[..|ins| - 1]);
      StepLater(env, Run(env, self, ins[..|ins| - 1]), last.0, last.1);
    }
  }

  /** Timers agree with node states between steps, so no verification and no query waits without one. */
  lemma TimersAgree(env: Env, self: NodeID, ins: Inputs, id: NodeID)
    requires Hashing(env) && Legal(env, self, ins)
    ensures var s := Run(env, self, ins);
            var n := NodeAt(s, id);
            && (Timeout(NeighboursTimeout, id) in s.timers <==> n.pending.Some?)
            && (Timeout(PingTimeout, id) in s.timers <==> n.state == RemoteVerifyWait)
            && (Timeout(PongTimeout, id) in s.timers ==> n.state in {VerifyInit, VerifyWait, Contested})
            && (id != self && n.state in {VerifyInit, VerifyWait} ==> Timeout(PongTimeout, id) in s.timers)
  {
    RunInv(env, self, ins);
    RunSelf(env, self, ins);
    assert NodeOk(env, Run(env, self, ins), id, {});
  }

  function Count(qs: seq<Query>, q: Query): nat {
    if qs == [] then 0 else (if qs[|qs| - 1] == q then 1 else 0) + Count(qs[..|qs| - 1], q)
  }

  lemma {:induction false} CountOnce(qs: seq<Query>, q: Query)
    requires NoRepeats(qs)
    ensures Count(qs, q) == if q in qs then 1 else 0
  {
    if qs != [] {
      var p := qs[..|qs| - 1];
      CountOnce(p, q);
      assert qs == p + [qs[|qs| - 1]];
    }
  }

  /** Each submitted query is in exactly one place: answered, under way at its node, or once in its
      node's line.  Nothing else is in those places. */
  lemma QueriesConserved(env: Env, self: NodeID, ins: Inputs, q: Query)
    requires Hashing(env) && Legal(env, self, ins)
    ensures var s := Run(env, self, ins);
            && (q in s.submitted ==>
                  (if q in s.answered then 1 else 0)
                  + (match q.remote
                     case LocalNode => 0
                     case RemoteNode(id) =>
                       (if NodeAt(s, id).pending == Some(q) then 1 else 0) + Count(NodeAt(s, id).deferred, q)) == 1)
            && (q in s.answered ==> q in s.submitted)
            && (forall id: NodeID :: Holds(NodeAt(s, id), q) ==> q in s.submitted && q.remote == RemoteNode(id))
  {
    var s := Run(env, self, ins);
    RunInv(env, self, ins);
    forall id: NodeID | Holds(NodeAt(s, id), q) ensures q in s.submitted && q.remote == RemoteNode(id) {
      assert NodeOk(env, s, id, {});
    }
    if q in s.submitted && q.remote.RemoteNode? {
      assert NodeOk(env, s, q.remote.id, {});
      CountOnce(NodeAt(s, q.remote.id).deferred, q);
    }
  }

  /** Whatever any lookup is told names interned nodes other than ourselves, and a channel carries
      exactly one value for each of its answered queries. */
  lemma RepliesAreSound(env: Env, self: NodeID, ins: Inputs, c: nat)
    requires Hashing(env) && Legal(env, self, ins)
    ensures var s := Run(env, self, ins);
            && |Chan(s, c)| == |AnsweredOn(s.answered, c)|
            && (forall a: Answer, i :: a in Chan(s, c) && 0 <= i < |a| && a[i].Some? ==> a[i].value != self && a[i].value in s.nodes)
  {
    var s := Run(env, self, ins);
    RunInv(env, self, ins);
    RunSelf(env, self, ins);
    forall a: Answer, i | a in Chan(s, c) && 0 <= i < |a| && a[i].Some? ensures a[i].value != self && a[i].value in s.nodes {
      assert GoodAnswer(s, a);
    }
  }

  /** Every stored node is interned, is not us, and is verified or was configured; the table is well
      formed, and the hash that selects its bucket is in range. */
  lemma TableProvenance(env: Env, self: NodeID, ins: Inputs, p: Peer)
    requires Hashing(env) && Legal(env, self, ins)
    ensures var s := Run(env, self, ins);
            && T.TableOk(s.tab)
            && (T.Stores(s.tab, p) ==>
                  && p.id != self && p.id in s.nodes && T.InRange(s.tab, p)
                  && (NodeAt(s, p.id).state.CanQuery() || p.id in s.seeds))
  {
    var s := Run(env, self, ins);
    RunInv(env, self, ins);
    RunSelf(env, self, ins);
    if T.Stores(s.tab, p) {
      assert GoodPeer(s, p);
      BucketZero(s.tab, p.id);
    }
  }

  /** The only step that sends neighbours is the answer to a findnode packet, and it names nodes that are in the
      table at that moment. */
  lemma AnswerStep(env: Env, s: Net, pkt: Packet, now: nat, to: NodeID, ids: seq<NodeID>, i: nat)
    requires Inv(env, s, {}) && AsksForNeighbours(pkt) && i < |ids|
    requires SentNeighbours(to, ids) in Step(env, s, Receive(pkt), now).log && SentNeighbours(to, ids) !in s.log
    ensures ids[i] != s.tab.self.id && (ids[i] in s.seeds || Proved(env, s, ids[i]))
  {
    var id, t := pkt.remoteID, InternNode(s, pkt);
    var target := if pkt.body.Findnode? then env.keccakID(pkt.body.targetID) else pkt.body.target;
    InternNodeInv(env, s, pkt);
    HandleChecked(env, t, id, PacketEvent(pkt), now);
    QueryDispatch(env, t, id, PacketEvent(pkt), now);
    StayPut(env, AnswerFindnode(t, id, target), id, now);
    StayPut(env, t, id, now);
    assert ids == ClosestIds(t, target);
    FoundStored(t, target, i);
    assert NodeAt(t, ids[i]).state == NodeAt(s, ids[i]).state;
    assert NodeOk(env, s, ids[i], {});
  }

  /** After the first k inputs, and before the m-th effect, this node was configured or had proved itself. */
  ghost predicate KnownBefore(env: Env, self: NodeID, ins: Inputs, k: nat, m: nat, id: NodeID) {
    && k < |ins| && |Run(env, self, ins[..k]).log| <= m
    && (id in Run(env, self, ins[..k]).seeds || Proved(env, Run(env, self, ins[..k]), id))
  }

  /** Every neighbours packet ever sent names only nodes that, before it was sent, were configured or had proved
      themselves. */
  lemma {:induction false} NeighboursProvenance(env: Env, self: NodeID, ins: Inputs, m: nat, to: NodeID,
                                                ids: seq<NodeID>, i: nat)
    requires Hashing(env) && Legal(env, self, ins) && m < |Run(env, self, ins).log| && i < |ids|
    requires Run(env, self, ins).log[m] == SentNeighbours(to, ids)
    ensures ids[i] != self && exists k: nat :: KnownBefore(env, self, ins, k, m, ids[i])
  {
    if ins != [] {
      var n := |ins| - 1;
      var s, input, now := Run(env, self, ins[..n]), ins[n].0, ins[n].1;
      StepLater(env, s, input, now);
      if SentNeighbours(to, ids) in s.log {
        var earlier := FirstIn(s.log, Run(env, self, ins).log, m);
        NeighboursProvenance(env, self, ins[..n], earlier, to, ids, i);
        var k: nat :| KnownBefore(env, self, ins[..n], k, earlier, ids[i]);
        assert ins[..n][..k] == ins[..k];
        assert KnownBefore(env, self, ins, k, m, ids[i]);
      } else {
        SentInLastStep(env, self, ins, to, ids, i);
        assert KnownBefore(env, self, ins, n, m, ids[i]);
      }
    }
  }

  lemma SentInLastStep(env: Env, self: NodeID, ins: Inputs, to: NodeID, ids: seq<NodeID>, i: nat)
    requires Hashing(env) && Legal(env, self, ins) && ins != [] && i < |ids|
    requires SentNeighbours(to, ids) in Run(env, self, ins).log
    requires SentNeighbours(to, ids) !in Run(env, self, ins[..|ins| - 1]).log
    ensures var s := Run(env, self, ins[..|ins| - 1]); ids[i] != self && (ids[i] in s.seeds || Proved(env, s, ids[i]))
  {
    var n := |ins| - 1;
    var s, input, now := Run(env, self, ins[..n]), ins[n].0, ins[n].1;
    RunInv(env, self, ins[..n]);
    RunSelf(env, self, ins[..n]);
    StepLater(env, s, input, now);
    assert Hears(if input.Receive? then Some(input.pkt) else None, SentNeighbours(to, ids));
    AnswerStep(env, s, input.pkt, now, to, ids, i);
  }

  /** A place of an effect in an earlier log that is no later than its place in the longer one. */
  lemma FirstIn(log: seq<Effect>, longer: seq<Effect>, m: nat) returns (i: nat)
    requires log <= longer && m < |longer| && longer[m] in log
    ensures i < |log| && i <= m && log[i] == longer[m]
  {
    if m < |log| {
      i := m;
    } else {
      i :| 0 <= i < |log| && log[i] == longer[m];
    }
  }

  /** A verified, queryable node never goes back to an earlier state. */
  lemma {:induction false} VerifiedForGood(env: Env, self: NodeID, ins: Inputs, k: nat, id: NodeID)
    requires k <= |ins| && NodeAt(Run(env, self, ins[..k]), id).state.CanQuery()
    ensures NodeAt(Run(env, self, ins), id).state.CanQuery()
  {
    if k == |ins| {
      assert ins[..k] == ins;
    } else {
      var shorter, last := ins[..|ins| - 1], ins[|ins| - 1];
      assert shorter[..k] == ins[..k];
      VerifiedForGood(env, self, shorter, k, id);
      StepLater(env, Run(env, self, shorter), last.0, last.1);
    }
  }

  /** Queries are under way only with queryable nodes that were sent the target, and a known node has
      at most five timeouts on record. */
  lemma PendingAndFailures(env: Env, self: NodeID, ins: Inputs, id: NodeID)
    requires Hashing(env) && Legal(env, self, ins)
    ensures var s := Run(env, self, ins);
            var n := NodeAt(s, id);
            && (n.pending.Some? ==> n.state.CanQuery() && SentFindnodeHash(id, n.pending.value.target) in s.log)
            && (n.state == Known ==> n.queryTimeouts <= 5)
  {
    RunInv(env, self, ins);
    assert NodeOk(env, Run(env, self, ins), id, {});
  }

  // ----- where progress stops

  /** What a timeout leaves of a node: the query answered with nil, one more failure, the line as it was. */
  ghost predicate TimedOut(s: Net, t: Net, id: NodeID, q: Query) {
    var m, n := NodeAt(s, id), NodeAt(t, id);
    && n.pending == None && n.deferred == m.deferred && n.queryTimeouts == m.queryTimeouts + 1 && t.tab == s.tab
    && (forall c: nat :: Chan(t, c) == Chan(s, c) + if c == q.reply then [[]] else [])
    && t.answered == s.answered + {q}
  }

  lemma TimedOutFirst(s: Net, id: NodeID)
    requires NodeAt(s, id).pending.Some?
    ensures TimedOut(s, QueryTimedOut(Disarm(s, NeighboursTimeout, id), id), id, NodeAt(s, id).pending.value)
  {
  }

  lemma ContestedKeeps(env: Env, s: Net, u: Net, id: NodeID, q: Query, now: nat)
    requires TimedOut(s, u, id, q)
    ensures TimedOut(s, Transition(env, u, id, Contested, now), id, q)
  {
    var v, t := SetState(u, id, Contested), Transition(env, u, id, Contested, now);
    assert NodeAt(u, id).state != Contested ==>
             t == Enter(env, v, id, Contested, now) == SendPing(env, v, id, OwnAddress(NodeAt(v, id)), now);
    assert t.chans == u.chans;
  }

  /** A neighbours timeout answers the query under way with nil, counts one more failure, and then leaves the line
      alone: unlike a neighbours packet, it does not start the next query. */
  lemma TimeoutLeavesLine(env: Env, self: NodeID, ins: Inputs, id: NodeID, now: nat)
    requires Hashing(env) && Legal(env, self, ins)
    requires Timeout(NeighboursTimeout, id) in Run(env, self, ins).timers
    ensures var s := Run(env, self, ins);
            && NodeAt(s, id).pending.Some?
            && TimedOut(s, Step(env, s, Fire(Timeout(NeighboursTimeout, id)), now), id, NodeAt(s, id).pending.value)
  {
    var s := Run(env, self, ins);
    RunInv(env, self, ins);
    assert NodeOk(env, s, id, {});
    var d := Disarm(s, NeighboursTimeout, id);
    QueryTimeoutResult(env, d, id, now);
    TimedOutFirst(s, id);
    ContestedKeeps(env, s, QueryTimedOut(d, id), id, NodeAt(s, id).pending.value, now);
  }

  predicate SameLiveness(m: Node, n: Node) {
    m.state == n.state && m.pingEcho == n.pingEcho && m.queryTimeouts == n.queryTimeouts
  }

  /** Pinging another node. */
  lemma OtherPinged(env: Env, s: Net, j: NodeID, next: NodeState, now: nat, id: NodeID)
    requires j != id && (next == VerifyInit || next == Contested)
    ensures NodeAt(Transition(env, s, j, next, now), id) == NodeAt(s, id)
  {
    var t := SetState(s, j, next);
    assert NodeAt(s, j).state != next ==>
             Transition(env, s, j, next, now) == Enter(env, t, j, next, now)
             == SendPing(env, t, j, OwnAddress(NodeAt(t, j)), now);
  }

  lemma StartNextKeepsEcho(env: Env, s: Net, id: NodeID, now: nat)
    requires NodeAt(s, id).state == Known
    ensures SameLiveness(NodeAt(s, id), NodeAt(StartNextQuery(env, s, id, now), id))
  {
    var n := NodeAt(s, id);
    if n.deferred != [] && n.deferred[0].remote.RemoteNode? {
      var j := n.deferred[0].remote.id;
      if j != id { OtherPinged(env, s, j, VerifyInit, now, id); }
    }
  }

  lemma InsertKeepsEcho(env: Env, s: Net, id: NodeID, now: nat)
    ensures SameLiveness(NodeAt(s, id), NodeAt(InsertKnown(env, s, id, now), id))
  {
    BucketZero(s.tab, id);
    var last := TabChallenges(s, id);
    if last.Some? && id != s.tab.self.id {
      T.ChallengedOther(T.BucketOf(s.tab, PeerOf(id)), PeerOf(id));
      OtherPinged(env, TabAdd(s, id), last.value.id, Contested, now, id);
    }
  }

  /** Becoming known does not touch the outstanding ping of the node itself. */
  lemma KnownKeepsEcho(env: Env, s: Net, id: NodeID, now: nat)
    requires NodeAt(s, id).state != Known
    ensures SameLiveness(NodeAt(s, id).(state := Known, queryTimeouts := 0), NodeAt(Transition(env, s, id, Known, now), id))
  {
    var s1 := SetState(s, id, Known);
    var s2 := ResetFailures(s1, id);
    var s3 := StartNextQuery(env, s2, id, now);
    assert Transition(env, s, id, Known, now) == Enter(env, s1, id, Known, now) == EnterKnown(env, s1, id, now)
           == InsertKnown(env, s3, id, now);
    StartNextKeepsEcho(env, s2, id, now);
    InsertKeepsEcho(env, s3, id, now);
  }

  /** An unresponsive node that pings us becomes known with its old ping still outstanding. */
  lemma PingAfterUnresponsive(env: Env, self: NodeID, ins: Inputs, pkt: Packet, now: nat)
    requires Hashing(env) && Legal(env, self, ins) && pkt.remoteID != self
    requires pkt.body.Ping? && NodeAt(Run(env, self, ins), pkt.remoteID).state == Unresponsive
    ensures var s := Run(env, self, ins + [(Receive(pkt), now)]);
            && Legal(env, self, ins + [(Receive(pkt), now)])
            && NodeAt(s, pkt.remoteID).state == Known && NodeAt(s, pkt.remoteID).pingEcho.Some?
  {
    var id, s := pkt.remoteID, Run(env, self, ins);
    RunStep(env, self, ins, Receive(pkt), now);
    RunInv(env, self, ins);
    RunSelf(env, self, ins);
    assert NodeOk(env, s, id, {});
    var u := HandlePing(InternNode(s, pkt), id, pkt, now);
    assert NodeAt(u, id).pingEcho.Some? && NodeAt(u, id).state == Unresponsive;
    assert Step(env, s, Receive(pkt), now) == Transition(env, u, id, Known, now);
    KnownKeepsEcho(env, u, id, now);
  }

  lemma RunStep(env: Env, self: NodeID, ins: Inputs, i: Input, now: nat)
    ensures Run(env, self, ins + [(i, now)]) == Step(env, Run(env, self, ins), i, now)
    ensures Legal(env, self, ins + [(i, now)]) <==> Legal(env, self, ins) && Enabled(Run(env, self, ins), i)
  {
    assert (ins + [(i, now)])[..|ins|] == ins;
  }

  // ----- the consequence of never setting a node's hash

  lemma {:induction false} EqualDistancesUnsorted(target: Hash, s: seq<Peer>, d: nat)
    requires forall i :: 0 <= i < |s| ==> Dist(s[i].sha, target) == d
    ensures StableSort(target, s) == s
  {
    if s != [] {
      var t, p := s[..|s| - 1], s[|s| - 1];
      EqualDistancesUnsorted(target, t, d);
      SplitIsInsert(target, t, p, |t|);
      assert t[..|t|] + [p] + t[|t|..] == s;
    }
  }

  lemma {:induction false} OnlyFirstBucket(bs: seq<T.BucketV>)
    requires bs != [] && forall i :: 0 < i < |bs| ==> bs[i].entries == []
    ensures T.AllEntries(bs) == bs[0].entries
  {
    if |bs| == 1 {
      assert bs[..0] == [];
    } else {
      OnlyFirstBucket(bs[..|bs| - 1]);
    }
  }

  /** The hash of a node is never set in a running network, so every node lives in bucket 0 and the
      nodes found closest to a target are simply that bucket, whatever the target. */
  lemma ClosestIgnoresTarget(env: Env, self: NodeID, ins: Inputs, target: Hash)
    requires Hashing(env) && Legal(env, self, ins)
    ensures var s := Run(env, self, ins);
            && (forall k :: 0 < k < 16 ==> s.tab.buckets[k].entries == s.tab.buckets[k].replacements == [])
            && ClosestIds(s, target) == Ids(s.tab.buckets[0].entries)
  {
    var s := Run(env, self, ins);
    RunInv(env, self, ins);
    var bs := s.tab.buckets;
    forall k | 0 < k < BUCKETS ensures bs[k].entries == bs[k].replacements == [] {
      EmptyBucket(s, k);
    }
    OnlyFirstBucket(bs);
    var es := bs[0].entries;
    forall i | 0 <= i < |es| ensures Dist(es[i].sha, target) == Dist(ZERO_HASH, target) {
      assert es[i] in bs[0].entries && T.Stores(s.tab, es[i]) && GoodPeer(s, es[i]);
    }
    EqualDistancesUnsorted(target, es, Dist(ZERO_HASH, target));
    assert T.BucketOk(s.tab, 0);
  }

  lemma EmptyBucket(s: Net, k: nat)
    requires TabOk(s) && 0 < k < BUCKETS
    ensures s.tab.buckets[k].entries == s.tab.buckets[k].replacements == []
  {
    var b := s.tab.buckets[k];
    assert T.BucketOk(s.tab, k);
    if b.entries != [] { NotStored(s, k, b.entries[0]); }
    if b.replacements != [] { NotStored(s, k, b.replacements[0]); }
  }

  lemma NotStored(s: Net, k: nat, p: Peer)
    requires TabOk(s) && 0 < k < BUCKETS
    ensures p !in s.tab.buckets[k].entries && p !in s.tab.buckets[k].replacements
  {
    if p in s.tab.buckets[k].entries || p in s.tab.buckets[k].replacements {
      assert T.BucketOk(s.tab, k);
      assert T.Stores(s.tab, p) && GoodPeer(s, p);
      BucketZero(s.tab, p.id);
    }
  }
}
