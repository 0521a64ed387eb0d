/** What meeting the nodes of a neighbours packet comes to (discovery/net.go, `handleNeighboursPacket` and
    `internNodeFromNeighbours`): which of them are taken, what becomes of them, and what the lookup is told. */
module Neighbours {
  import opened Slices
  import opened Words
  import opened Addresses
  import opened NodesByDistance
  import opened Protocol

  /** The i-th node of the packet is taken: another node than us with a port above 1024 that either has an object,
      whose address it repeats or may change, or gets one now or got one earlier in the packet. */
  ghost predicate Takes(env: Env, s: Net, ip: Bytes, rns: seq<RpcNode>, i: nat)
    requires i < |rns|
  {
    var rn := rns[i];
    && rn.id != s.tab.self.id && rn.ep.udp > 1024
    && if rn.id in s.nodes then s.nodes[rn.id].state != Known || SameEndpoint(s.nodes[rn.id].ep, rn.ep)
       else exists j :: 0 <= j <= i && Admits(env, ip, rns[j], rn.id)
  }

  predicate Admits(env: Env, ip: Bytes, rn: RpcNode, id: NodeID) {
    rn.id == id && rn.ep.udp > 1024 && env.acceptable(ip, rn)
  }

  ghost predicate Taken(env: Env, s: Net, ip: Bytes, rns: seq<RpcNode>, id: NodeID) {
    exists i :: 0 <= i < |rns| && rns[i].id == id && Takes(env, s, ip, rns, i)
  }

  /** A node that was taken: it has an object, is not unknown any more, and keeps what it had but its address. */
  predicate Welcomed(s: Net, t: Net, id: NodeID) {
    var m, n := NodeAt(s, id), NodeAt(t, id);
    && id in t.nodes && n.state == (if m.state == Unknown then VerifyInit else m.state)
    && n.pending == m.pending && n.deferred == m.deferred && n.queryTimeouts == m.queryTimeouts
    && (m.state == Known ==> n == m)
  }

  /** All but node, timers and log stays. */
  predicate NodesOnly(s: Net, t: Net) {
    && t.tab == s.tab && t.chans == s.chans && t.submitted == s.submitted && t.answered == s.answered
    && t.seeds == s.seeds
  }

  ghost predicate Met(env: Env, s: Net, ip: Bytes, rns: seq<RpcNode>, t: Net, a: Answer) {
    && NodesOnly(s, t) && |a| == |rns|
    && (forall i :: 0 <= i < |rns| ==> a[i] == if Takes(env, s, ip, rns, i) then Some(rns[i].id) else None)
    && (forall id: NodeID :: Taken(env, s, ip, rns, id) ==> Welcomed(s, t, id))
    && (forall id: NodeID :: !Taken(env, s, ip, rns, id) ==>
          NodeAt(t, id) == NodeAt(s, id) && (id in t.nodes <==> id in s.nodes))
  }

  lemma TakesPrefix(env: Env, s: Net, ip: Bytes, rns: seq<RpcNode>, n: nat, i: nat)
    requires i < n <= |rns|
    ensures Takes(env, s, ip, rns[..n], i) <==> Takes(env, s, ip, rns, i)
  {
    var id := rns[i].id;
    if j :| 0 <= j <= i && Admits(env, ip, rns[j], id) { assert Admits(env, ip, rns[..n][j], id); }
    if j :| 0 <= j <= i && Admits(env, ip, rns[..n][j], id) { assert Admits(env, ip, rns[j], id); }
  }

  lemma TakenSnoc(env: Env, s: Net, ip: Bytes, rns: seq<RpcNode>, id: NodeID)
    requires rns != []
    ensures var n := |rns| - 1;
            Taken(env, s, ip, rns, id)
            <==> Taken(env, s, ip, rns[..n], id) || (rns[n].id == id && Takes(env, s, ip, rns, n))
  {
    var n := |rns| - 1;
    forall i | 0 <= i < n ensures Takes(env, s, ip, rns[..n], i) <==> Takes(env, s, ip, rns, i) {
      TakesPrefix(env, s, ip, rns, n, i);
    }
    if i :| 0 <= i < n && rns[..n][i].id == id && Takes(env, s, ip, rns[..n], i) {
      assert rns[i].id == id && Takes(env, s, ip, rns, i);
    }
    if i :| 0 <= i < |rns| && rns[i].id == id && Takes(env, s, ip, rns, i) {
      if i < n { assert rns[..n][i].id == id && Takes(env, s, ip, rns[..n], i); }
    }
  }

  /** A node with no object of its own that was named acceptably before has been taken. */
  lemma AdmittedIsTaken(env: Env, s: Net, ip: Bytes, rns: seq<RpcNode>, id: NodeID, j: nat)
    requires j < |rns| && Admits(env, ip, rns[j], id) && id != s.tab.self.id && id !in s.nodes
    ensures Taken(env, s, ip, rns, id)
  {
    assert Takes(env, s, ip, rns, j);
  }

  lemma TakenIsAdmitted(env: Env, s: Net, ip: Bytes, rns: seq<RpcNode>, id: NodeID)
    requires Taken(env, s, ip, rns, id) && id !in s.nodes
    ensures exists j :: 0 <= j < |rns| && Admits(env, ip, rns[j], id)
  {
    var i :| 0 <= i < |rns| && rns[i].id == id && Takes(env, s, ip, rns, i);
    var j :| 0 <= j <= i && Admits(env, ip, rns[j], id);
  }

  /** A node without an object of its own: taken as the last one if named acceptably by then. */
  lemma NewIsAdmitted(env: Env, s: Net, ip: Bytes, rns: seq<RpcNode>)
    requires rns != [] && rns[|rns| - 1].id !in s.nodes && rns[|rns| - 1].id != s.tab.self.id
    ensures var n := |rns| - 1;
            Takes(env, s, ip, rns, n)
            <==> rns[n].ep.udp > 1024 && (Taken(env, s, ip, rns[..n], rns[n].id) || env.acceptable(ip, rns[n]))
  {
    var n := |rns| - 1;
    var id := rns[n].id;
    if Taken(env, s, ip, rns[..n], id) {
      TakenIsAdmitted(env, s, ip, rns[..n], id);
      var j :| 0 <= j < n && Admits(env, ip, rns[..n][j], id);
      assert Admits(env, ip, rns[j], id);
    }
    if rns[n].ep.udp > 1024 && env.acceptable(ip, rns[n]) { assert Admits(env, ip, rns[n], id); }
    if Takes(env, s, ip, rns, n) && !env.acceptable(ip, rns[n]) {
      var j :| 0 <= j <= n && Admits(env, ip, rns[j], id);
      assert rns[..n][j] == rns[j];
      AdmittedIsTaken(env, s, ip, rns[..n], id, j);
    }
  }

  /** Whether a node is taken, seen from where the others before it were met. */
  lemma TakenNow(env: Env, s: Net, ip: Bytes, rn: RpcNode, t: Net, before: bool)
    requires NodesOnly(s, t)
    requires if before then Welcomed(s, t, rn.id)
             else NodeAt(t, rn.id) == NodeAt(s, rn.id) && (rn.id in t.nodes <==> rn.id in s.nodes)
    ensures InternNeighbour(env, t, ip, rn).1
            == if rn.id != s.tab.self.id && rn.ep.udp > 1024
                  && (if rn.id in s.nodes then s.nodes[rn.id].state != Known || SameEndpoint(s.nodes[rn.id].ep, rn.ep)
                      else before || env.acceptable(ip, rn))
               then Some(rn.id) else None
  {
  }

  lemma LastTaken(env: Env, s: Net, ip: Bytes, rns: seq<RpcNode>, t: Net, a: Answer)
    requires rns != [] && Met(env, s, ip, rns[..|rns| - 1], t, a)
    ensures var rn := rns[|rns| - 1];
            InternNeighbour(env, t, ip, rn).1 == if Takes(env, s, ip, rns, |rns| - 1) then Some(rn.id) else None
  {
    var n := |rns| - 1;
    TakenNow(env, s, ip, rns[n], t, Taken(env, s, ip, rns[..n], rns[n].id));
    if rns[n].id !in s.nodes && rns[n].id != s.tab.self.id { NewIsAdmitted(env, s, ip, rns); }
  }

  /** Nobody but this node is different. */
  ghost predicate OthersSame(s: Net, t: Net, id: NodeID) {
    && NodesOnly(s, t) && s.log <= t.log
    && forall j: NodeID :: j != id ==> NodeAt(t, j) == NodeAt(s, j) && (j in t.nodes <==> j in s.nodes)
  }

  /** The ping that starts a verification, to the address of the node. */
  function FirstPing(env: Env, ep: Endpoint, id: NodeID, now: nat): Effect {
    SentPing(id, Ping(env.ourEndpoint, MakeEndpoint(ep.ip, ep.udp, ep.udp), now + 20))
  }

  /** Verification of a node touches nobody else. */
  lemma VerifyOne(env: Env, s: Net, id: NodeID, now: nat)
    requires NodeAt(s, id).state == Unknown
    ensures var t := Transition(env, s, id, VerifyInit, now);
            && OthersSame(s, t, id) && id in t.nodes
            && NodeAt(t, id) == NodeAt(s, id).(state := VerifyInit, pingEcho := NodeAt(t, id).pingEcho)
            && (NodeAt(s, id).pingEcho == None && id != s.tab.self.id ==>
                  t.log == s.log + [FirstPing(env, NodeAt(s, id).ep, id, now)])
  {
    var v := SetState(s, id, VerifyInit);
    assert Transition(env, s, id, VerifyInit, now) == Enter(env, v, id, VerifyInit, now)
        == SendPing(env, v, id, OwnAddress(NodeAt(v, id)), now);
  }

  /** Interning a node touches nobody else, and of it only the address. */
  lemma InternOne(env: Env, s: Net, ip: Bytes, rn: RpcNode)
    ensures var (t, nn) := InternNeighbour(env, s, ip, rn);
            && OthersSame(s, t, rn.id) && (nn == None ==> t == s)
            && (nn.Some? ==> nn == Some(rn.id) && rn.id in t.nodes)
            && NodeAt(t, rn.id) == NodeAt(s, rn.id).(ep := NodeAt(t, rn.id).ep)
            && (NodeAt(s, rn.id).state == Known ==> NodeAt(t, rn.id) == NodeAt(s, rn.id))
            && (nn.Some? ==> NodeAt(t, rn.id).ep == AddressGiven(s, rn))
  {
  }

  /** The address of a taken node: a new one gets the one named, with IPv4 in 4 bytes, and others a changed one. */
  function AddressGiven(s: Net, rn: RpcNode): Endpoint {
    if rn.id !in s.nodes then Endpoint(Canon(rn.ep.ip), rn.ep.udp, rn.ep.tcp)
    else if SameEndpoint(s.nodes[rn.id].ep, rn.ep) then s.nodes[rn.id].ep
    else rn.ep
  }

  /** An unknown node that is not being pinged. */
  predicate Fresh(s: Net, id: NodeID) {
    NodeAt(s, id).state == Unknown && NodeAt(s, id).pingEcho == None
  }

  lemma MeetOne(env: Env, s: Net, ip: Bytes, rn: RpcNode, now: nat)
    ensures var (t, nn) := MeetNeighbour(env, s, ip, rn, now);
            && OthersSame(s, t, rn.id) && nn == InternNeighbour(env, s, ip, rn).1
            && (if nn == None then t == s else nn == Some(rn.id) && Welcomed(s, t, rn.id))
            && (nn.Some? ==> NodeAt(t, rn.id).ep == AddressGiven(s, rn))
            && (nn.Some? && Fresh(s, rn.id) ==> FirstPing(env, AddressGiven(s, rn), rn.id, now) in t.log)
  {
    var (u, nn) := InternNeighbour(env, s, ip, rn);
    InternOne(env, s, ip, rn);
    if nn.Some? && NodeAt(u, rn.id).state == Unknown { VerifyOne(env, u, rn.id, now); }
  }

  /** What became of one node, after one more was met. */
  lemma MetNode(env: Env, s: Net, ip: Bytes, rns: seq<RpcNode>, t: Net, a: Answer, u: Net, id: NodeID)
    requires rns != [] && Met(env, s, ip, rns[..|rns| - 1], t, a)
    requires var n := |rns| - 1;
             && OthersSame(t, u, rns[n].id)
             && if Takes(env, s, ip, rns, n) then Welcomed(t, u, rns[n].id) else u == t
    ensures if Taken(env, s, ip, rns, id) then Welcomed(s, u, id)
            else NodeAt(u, id) == NodeAt(s, id) && (id in u.nodes <==> id in s.nodes)
  {
    TakenSnoc(env, s, ip, rns, id);
  }

  lemma MetSnoc(env: Env, s: Net, ip: Bytes, rns: seq<RpcNode>, t: Net, a: Answer, now: nat)
    requires rns != [] && Met(env, s, ip, rns[..|rns| - 1], t, a)
    ensures var (u, nn) := MeetNeighbour(env, t, ip, rns[|rns| - 1], now); Met(env, s, ip, rns, u, a + [nn])
  {
    var n := |rns| - 1;
    var (u, nn) := MeetNeighbour(env, t, ip, rns[n], now);
    LastTaken(env, s, ip, rns, t, a);
    MeetOne(env, t, ip, rns[n], now);
    forall i | 0 <= i < |rns| ensures (a + [nn])[i] == if Takes(env, s, ip, rns, i) then Some(rns[i].id) else None {
      if i < n { TakesPrefix(env, s, ip, rns, n, i); }
    }
    forall id: NodeID
      ensures if Taken(env, s, ip, rns, id) then Welcomed(s, u, id)
              else NodeAt(u, id) == NodeAt(s, id) && (id in u.nodes <==> id in s.nodes)
    {
      MetNode(env, s, ip, rns, t, a, u, id);
    }
  }

  lemma {:induction false} MeetEffect(env: Env, s: Net, ip: Bytes, rns: seq<RpcNode>, now: nat)
    ensures var (t, a) := MeetNeighbours(env, s, ip, rns, now); Met(env, s, ip, rns, t, a)
  {
    if rns != [] {
      var (t, a) := MeetNeighbours(env, s, ip, rns[..|rns| - 1], now);
      MeetEffect(env, s, ip, rns[..|rns| - 1], now);
      MetSnoc(env, s, ip, rns, t, a, now);
    }
  }

  // ----- addresses and pings

  ghost predicate NamedOnce(rns: seq<RpcNode>, i: nat)
    requires i < |rns|
  {
    forall k :: 0 <= k < |rns| && k != i ==> rns[k].id != rns[i].id
  }

  lemma NotNamed(env: Env, s: Net, ip: Bytes, rns: seq<RpcNode>, n: nat)
    requires n < |rns| && NamedOnce(rns, n)
    ensures !Taken(env, s, ip, rns[..n], rns[n].id)
  {
  }

  /** A taken node that the packet names once has the address that goes with it, and is pinged there if it was new. */
  lemma {:induction false} AddressTaken(env: Env, s: Net, ip: Bytes, rns: seq<RpcNode>, now: nat, i: nat)
    requires i < |rns| && NamedOnce(rns, i) && Takes(env, s, ip, rns, i)
    ensures var t, id := MeetNeighbours(env, s, ip, rns, now).0, rns[i].id;
            && NodeAt(t, id).ep == AddressGiven(s, rns[i])
            && (Fresh(s, id) ==> FirstPing(env, AddressGiven(s, rns[i]), id, now) in t.log)
  {
    var n := |rns| - 1;
    var (u, a) := MeetNeighbours(env, s, ip, rns[..n], now);
    MeetEffect(env, s, ip, rns[..n], now);
    MeetOne(env, u, ip, rns[n], now);
    if i == n {
      NotNamed(env, s, ip, rns, n);
      LastTaken(env, s, ip, rns, u, a);
    } else {
      TakesPrefix(env, s, ip, rns, n, i);
      assert rns[n].id != rns[i].id;
      assert rns[..n][i] == rns[i];
      AddressTaken(env, s, ip, rns[..n], now, i);
    }
  }

  /** The last node of a packet, if it is new and taken, is pinged. */
  lemma LastIsPinged(env: Env, s: Net, ip: Bytes, rns: seq<RpcNode>, now: nat)
    requires rns != [] && Takes(env, s, ip, rns, |rns| - 1) && Fresh(s, rns[|rns| - 1].id)
    requires !Taken(env, s, ip, rns[..|rns| - 1], rns[|rns| - 1].id)
    ensures var u, rn := MeetNeighbours(env, s, ip, rns[..|rns| - 1], now).0, rns[|rns| - 1];
            FirstPing(env, AddressGiven(u, rn), rn.id, now) in MeetNeighbours(env, s, ip, rns, now).0.log
  {
    var n := |rns| - 1;
    var (u, a) := MeetNeighbours(env, s, ip, rns[..n], now);
    MeetEffect(env, s, ip, rns[..n], now);
    LastTaken(env, s, ip, rns, u, a);
    MeetOne(env, u, ip, rns[n], now);
  }

  lemma PingsStay(env: Env, s: Net, ip: Bytes, rns: seq<RpcNode>, now: nat, e: Effect)
    requires rns != [] && e in MeetNeighbours(env, s, ip, rns[..|rns| - 1], now).0.log
    ensures e in MeetNeighbours(env, s, ip, rns, now).0.log
  {
    var n := |rns| - 1;
    MeetOne(env, MeetNeighbours(env, s, ip, rns[..n], now).0, ip, rns[n], now);
  }

  /** Every new node that is taken is pinged. */
  lemma {:induction false} TakenArePinged(env: Env, s: Net, ip: Bytes, rns: seq<RpcNode>, now: nat, id: NodeID)
    returns (ep: Endpoint)
    requires Taken(env, s, ip, rns, id) && Fresh(s, id)
    ensures FirstPing(env, ep, id, now) in MeetNeighbours(env, s, ip, rns, now).0.log
  {
    var n := |rns| - 1;
    TakenSnoc(env, s, ip, rns, id);
    if Taken(env, s, ip, rns[..n], id) {
      ep := TakenArePinged(env, s, ip, rns[..n], now, id);
      PingsStay(env, s, ip, rns, now, FirstPing(env, ep, id, now));
    } else {
      ep := AddressGiven(MeetNeighbours(env, s, ip, rns[..n], now).0, rns[n]);
      LastIsPinged(env, s, ip, rns, now);
    }
  }
}
