/** The network object of discovery/net.go: node objects changed in place, timers, table and channels.
    The ghost field `model` is the network as a value, `Valid` ties every real field to it, and each
    method is proved to change it by the function of the same name in module Protocol. */
module Network {
  import opened Slices
  import opened Words
  import opened Distance
  import opened NodesByDistance
  import T = Table
  import opened RoutingTable
  import P = Protocol
  import opened Invariants
  import opened Runs

  /** A node object: its ID, and the record of fields that the protocol updates in place. */
  class Node {
    const id: NodeID
    var v: P.Node

    constructor (id: NodeID, ep: P.Endpoint)
      ensures this.id == id && v == P.NewNode(ep)
    {
      this.id, v := id, P.NewNode(ep);
    }
  }

  /** What the table stores and what waiting queries point to is interned. */
  ghost predicate Refs(s: P.Net) {
    && (forall p :: T.Stores(s.tab, p) ==> p.id in s.nodes)
    && (forall id, q :: id in s.nodes && q in s.nodes[id].deferred && q.remote.RemoteNode? ==> q.remote.id in s.nodes)
  }

  /** Changing one node keeps the references when its line does not grow. */
  lemma RefsPut(s: P.Net, id: NodeID, n: P.Node)
    requires Refs(s)
    requires forall q :: q in n.deferred ==> q in P.NodeAt(s, id).deferred || (q.remote.RemoteNode? ==> q.remote.id in s.nodes)
    ensures Refs(P.Put(s, id, n))
  {
    var t := P.Put(s, id, n);
    forall i, q | i in t.nodes && q in t.nodes[i].deferred && q.remote.RemoteNode? ensures q.remote.id in t.nodes {
      if i != id || q in P.NodeAt(s, id).deferred { assert i in s.nodes && q in s.nodes[i].deferred; }
    }
  }

  class Network {
    const env: P.Env
    const tab: Table
    var nodes: map<NodeID, Node>
    var timeoutTimers: set<P.Timeout>
    var chans: map<nat, seq<P.Answer>>
    var log: seq<P.Effect>
    ghost var model: P.Net

    ghost function Repr(): set<object>
      reads this
    {
      {this, tab} + (set b | b in tab.buckets) + nodes.Values
    }

    ghost predicate Valid()
      reads this, Repr()
    {
      && timeoutTimers == model.timers && chans == model.chans && log == model.log
      && tab.Valid() && tab.model == model.tab
      && nodes.Keys == model.nodes.Keys
      && (forall id :: id in nodes ==> nodes[id].id == id && nodes[id].v == model.nodes[id])
      && Refs(model)
    }

    ghost predicate Has(n: Node)
      reads this
    {
      n.id in nodes && nodes[n.id] == n
    }

    constructor (env: P.Env, self: NodeID)
      ensures Valid() && fresh(Repr()) && this.env == env
      ensures model == P.Init(self)
    {
      this.env := env;
      this.tab := new Table(P.PeerOf(self), P.BUCKETS);
      nodes, timeoutTimers, chans, log := map[], {}, map[], [];
      model := P.Init(self);
    }

    // ----- timers and packets

    method TimedEvent(n: Node, ev: P.TimerEvent)
      requires Valid() && Has(n)
      modifies this
      ensures Valid() && nodes == old(nodes)
      ensures model == P.Arm(old(model), ev, n.id)
    {
      timeoutTimers := timeoutTimers + {P.Timeout(ev, n.id)};
      model := P.Arm(model, ev, n.id);
    }

    method AbortTimedEvent(n: Node, ev: P.TimerEvent)
      requires Valid() && Has(n)
      modifies this
      ensures Valid() && nodes == old(nodes)
      ensures model == P.Disarm(old(model), ev, n.id)
    {
      if P.Timeout(ev, n.id) in timeoutTimers {
        timeoutTimers := timeoutTimers - {P.Timeout(ev, n.id)};
      }
      model := P.Disarm(model, ev, n.id);
    }

    method Note(e: P.Effect)
      requires Valid()
      modifies this
      ensures Valid() && nodes == old(nodes)
      ensures model == P.Record(old(model), e)
    {
      log := log + [e];
      model := P.Record(model, e);
    }

    /** Assign to fields of a node object. */
    method Update(n: Node, v: P.Node)
      requires Valid() && Has(n)
      requires forall q :: q in v.deferred ==> q in n.v.deferred || (q.remote.RemoteNode? ==> q.remote.id in nodes)
      modifies n, `model
      ensures Valid() && nodes == old(nodes)
      ensures model == P.Put(old(model), n.id, v)
    {
      RefsPut(model, n.id, v);
      n.v := v;
      model := P.Put(model, n.id, v);
    }

    method Ping(n: Node, to: P.Endpoint, now: nat)
      requires Valid() && Has(n)
      modifies this, n
      ensures Valid() && nodes == old(nodes)
      ensures model == P.SendPing(env, old(model), n.id, to, now)
    {
      if n.v.pingEcho.Some? || n.id == tab.self.id {
        return;
      }
      var body := P.Ping(env.ourEndpoint, to, now + P.EXPIRATION);
      Update(n, n.v.(pingEcho := Some(env.hash(tab.self.id, body))));
      Note(P.SentPing(n.id, body));
      TimedEvent(n, P.PongTimeout);
    }

    method HandlePing(n: Node, pkt: P.Packet, now: nat)
      requires Valid() && Has(n) && pkt.body.Ping?
      modifies this, n
      ensures Valid() && nodes == old(nodes)
      ensures model == P.HandlePing(old(model), n.id, pkt, now)
    {
      Update(n, n.v.(ep := n.v.ep.(tcp := pkt.body.from.tcp)));
      var pong := P.Pong(P.MakeEndpoint(n.v.ep.ip, n.v.ep.udp, n.v.ep.tcp), pkt.hash, now + P.EXPIRATION);
      Note(P.HandledPing(n.id, pkt.body, pkt.hash));
      Note(P.SentPong(n.id, pong));
    }

    method HandleKnownPong(n: Node)
      requires Valid() && Has(n)
      modifies this, n
      ensures Valid() && nodes == old(nodes)
      ensures model == P.HandleKnownPong(old(model), n.id)
    {
      AbortTimedEvent(n, P.PongTimeout);
      Update(n, n.v.(pingEcho := None));
    }

    method CheckPacket(n: Node, pkt: P.Packet) returns (err: Option<P.Error>)
      requires Valid() && Has(n)
      modifies this, n
      ensures Valid() && nodes == old(nodes)
      ensures (model, err) == P.CheckPacket(old(model), n.id, pkt)
    {
      if pkt.body.Pong? {
        if pkt.body.replyTok != P.EchoBytes(n.v.pingEcho) {
          return Some(P.ReplyTokenMismatch);
        }
        Update(n, n.v.(pingEcho := None));
        Note(P.AcceptedPong(n.id, pkt.body.replyTok));
      }
      return None;
    }

    // ----- queries

    /** q.reply <- a */
    method Send(q: P.Query, a: P.Answer)
      requires Valid()
      modifies this
      ensures Valid() && nodes == old(nodes)
      ensures model == P.Reply(old(model), q, a)
    {
      chans := chans[q.reply := (if q.reply in chans then chans[q.reply] else []) + [a]];
      model := P.Reply(model, q, a);
    }

    method Start(q: P.Query, now: nat) returns (started: bool)
      requires Valid() && (q.remote.RemoteNode? ==> q.remote.id in nodes)
      modifies Repr()
      ensures Valid() && nodes == old(nodes)
      ensures (model, started) == P.Start(env, old(model), q, now)
      decreases 1, 0
    {
      if q.remote == P.LocalNode {
        AnswerLocally(q);
        return true;
      }
      var remote := nodes[q.remote.id];
      if remote.v.state.CanQuery() && remote.v.pending == None {
        SendQuery(remote, q);
        return true;
      }
      if remote.v.state == P.Unknown {
        Transition(remote, P.VerifyInit, now);
      }
      return false;
    }

    method AnswerLocally(q: P.Query)
      requires Valid()
      modifies this
      ensures Valid() && nodes == old(nodes)
      ensures model == P.Reply(old(model), q, P.AllFound(P.ClosestIds(old(model), env.keccakHash(q.target))))
    {
      var closest := tab.Closest(env.keccakHash(q.target), T.BUCKET_SIZE);
      Send(q, P.AllFound(P.Ids(closest.entries)));
    }

    method SendQuery(n: Node, q: P.Query)
      requires Valid() && Has(n)
      modifies this, n
      ensures Valid() && nodes == old(nodes)
      ensures model == P.SendQuery(old(model), n.id, q)
    {
      Note(P.SentFindnodeHash(n.id, q.target));
      TimedEvent(n, P.NeighboursTimeout);
      Update(n, n.v.(pending := Some(q)));
    }

    method DeferQuery(n: Node, q: P.Query)
      requires Valid() && Has(n) && (q.remote.RemoteNode? ==> q.remote.id in nodes)
      modifies n, `model
      ensures Valid() && nodes == old(nodes)
      ensures model == P.DeferQuery(old(model), n.id, q)
    {
      Update(n, n.v.(deferred := n.v.deferred + [q]));
    }

    method StartNextQuery(n: Node, now: nat)
      requires Valid() && Has(n)
      modifies Repr()
      ensures Valid() && nodes == old(nodes)
      ensures model == P.StartNextQuery(env, old(model), n.id, now)
      decreases 1, 1
    {
      if |n.v.deferred| == 0 {
        return;
      }
      ghost var was := model;
      var next := n.v.deferred[0];
      assert next in model.nodes[n.id].deferred;
      var started := Start(next, now);
      if started {
        P.StartKeepsLine(env, was, next, now, n.id);
        Update(n, n.v.(deferred := n.v.deferred[1..]));
      }
    }

    // ----- the table

    method TabDelete(n: Node)
      requires Valid() && Has(n)
      modifies tab, tab.buckets, `model
      ensures Valid() && nodes == old(nodes)
      ensures model == P.TabDelete(old(model), n.id)
    {
      RefsDelete(model, n.id);
      tab.Delete(P.PeerOf(n.id));
      model := model.(tab := tab.model);
    }

    method TabDeleteReplace(n: Node)
      requires Valid() && Has(n)
      modifies tab, tab.buckets, `model
      ensures Valid() && nodes == old(nodes)
      ensures model == P.TabDeleteReplace(old(model), n.id)
    {
      RefsDeleteReplace(model, n.id);
      tab.DeleteReplace(P.PeerOf(n.id));
      model := model.(tab := tab.model);
    }

    method TabAdd(n: Node) returns (contested: Option<Peer>)
      requires Valid() && Has(n)
      modifies tab, tab.buckets, `model
      ensures Valid() && nodes == old(nodes)
      ensures model == P.TabAdd(old(model), n.id) && contested == P.TabChallenges(old(model), n.id)
      ensures contested.Some? ==> contested.value.id in nodes
    {
      RefsAdd(model, n.id);
      contested := tab.Add(P.PeerOf(n.id));
      model := model.(tab := tab.model);
    }

    // ----- transitions

    /** Abort every waiting query, then the one under way. */
    method EnterUnknown(n: Node)
      requires Valid() && Has(n)
      modifies Repr()
      ensures Valid() && nodes == old(nodes)
      ensures model == P.EnterUnknown(old(model), n.id)
    {
      TabDelete(n);
      AbortQueries(n);
      Update(n, P.Forgotten(n.v));
    }

    method AbortQueries(n: Node)
      requires Valid() && Has(n)
      modifies this
      ensures Valid() && nodes == old(nodes)
      ensures model == P.AbortQueries(old(model), n.id)
    {
      ghost var was, line := model, n.v.deferred;
      for i := 0 to |n.v.deferred|
        invariant Valid() && nodes == old(nodes)
        invariant model == P.ReplyNil(was, line[..i])
      {
        assert line[..i + 1][..i] == line[..i];
        Send(n.v.deferred[i], []);
      }
      assert line[..|line|] == line;
      if n.v.pending != None {
        Send(n.v.pending.value, []);
      }
    }

    method InsertKnown(n: Node, now: nat)
      requires Valid() && Has(n)
      modifies Repr()
      ensures Valid() && nodes == old(nodes)
      ensures model == P.InsertKnown(env, old(model), n.id, now)
      decreases 1, 0
    {
      var last := TabAdd(n);
      if last.Some? && nodes[last.value.id].v.state == P.Known {
        Transition(nodes[last.value.id], P.Contested, now);
      }
    }

    method EnterKnown(n: Node, now: nat)
      requires Valid() && Has(n)
      modifies Repr()
      ensures Valid() && nodes == old(nodes)
      ensures model == P.EnterKnown(env, old(model), n.id, now)
      decreases 2, 0
    {
      Update(n, n.v.(queryTimeouts := 0));
      StartNextQuery(n, now);
      InsertKnown(n, now);
    }

    method Enter(n: Node, next: P.NodeState, now: nat)
      requires Valid() && Has(n)
      modifies Repr()
      ensures Valid() && nodes == old(nodes)
      ensures model == P.Enter(env, old(model), n.id, next, now)
      decreases P.Rank(next), 1
    {
      match next
      case Unknown => EnterUnknown(n);
      case VerifyInit => Ping(n, P.OwnAddress(n.v), now);
      case VerifyWait =>
      case RemoteVerifyWait => TimedEvent(n, P.PingTimeout);
      case Known => EnterKnown(n, now);
      case Contested => Ping(n, P.OwnAddress(n.v), now);
      case Unresponsive =>
    }

    method Transition(n: Node, next: P.NodeState, now: nat)
      requires Valid() && Has(n)
      modifies Repr()
      ensures Valid() && nodes == old(nodes)
      ensures model == P.Transition(env, old(model), n.id, next, now)
      decreases P.Rank(next), 2
    {
      if n.v.state != next {
        Update(n, n.v.(state := next));
        Enter(n, next, now);
      }
    }

    // ----- interning

    /** Node objects are never removed or replaced. */
    twostate predicate Keeps()
      reads this
    {
      forall id :: id in old(nodes) ==> id in nodes && nodes[id] == old(nodes)[id]
    }

    method Create(id: NodeID, ep: P.Endpoint) returns (n: Node)
      requires Valid() && id !in nodes
      modifies this
      ensures Valid() && Has(n) && fresh(n) && n.id == id && nodes == old(nodes)[id := n]
      ensures model == P.Put(old(model), id, P.NewNode(ep))
    {
      n := new Node(id, ep);
      nodes := nodes[id := n];
      RefsPut(model, id, P.NewNode(ep));
      model := P.Put(model, id, P.NewNode(ep));
    }

    method InternNode(pkt: P.Packet) returns (n: Node)
      requires Valid()
      modifies Repr()
      ensures Valid() && Has(n) && n.id == pkt.remoteID && Keeps() && fresh(Repr() - old(Repr()))
      ensures model == P.InternNode(old(model), pkt)
    {
      var ep := P.Endpoint(pkt.ip, pkt.port, pkt.port);
      if pkt.remoteID in nodes {
        n := nodes[pkt.remoteID];
        Update(n, n.v.(ep := ep));
      } else {
        n := Create(pkt.remoteID, ep);
      }
    }

    method InternFromDB(seed: P.RpcNode) returns (n: Node)
      requires Valid()
      modifies this
      ensures Valid() && Has(n) && n.id == seed.id && Keeps() && fresh(Repr() - old(Repr()))
      ensures model == P.InternFromDB(old(model), seed)
    {
      if seed.id in nodes {
        n := nodes[seed.id];
      } else {
        n := Create(seed.id, seed.ep);
      }
    }

    /** None where the source returns an error. */
    method InternNeighbour(ip: Bytes, rn: P.RpcNode) returns (n: Option<Node>)
      requires Valid()
      modifies Repr()
      ensures Valid() && Keeps() && fresh(Repr() - old(Repr()))
      ensures n.Some? ==> Has(n.value)
      ensures (model, IdOf(n)) == P.InternNeighbour(env, old(model), ip, rn)
    {
      if rn.id == tab.self.id || rn.ep.udp <= P.LOW_PORT {
        return None;
      }
      if rn.id !in nodes {
        if env.acceptable(ip, rn) {
          var created := Create(rn.id, rn.ep);
          return Some(created);
        }
        return None;
      }
      var known := nodes[rn.id];
      if !P.SameEndpoint(known.v.ep, rn.ep) {
        if known.v.state == P.Known {
          return None;
        }
        Update(known, known.v.(ep := rn.ep));
      }
      return Some(known);
    }

    /** Start verifying a node that is unknown. */
    method VerifyNew(n: Node, now: nat)
      requires Valid() && Has(n)
      modifies Repr()
      ensures Valid() && nodes == old(nodes)
      ensures model == P.VerifyNew(env, old(model), n.id, now)
    {
      if n.v.state == P.Unknown {
        Transition(n, P.VerifyInit, now);
      }
    }

    method MeetNeighbour(ip: Bytes, rn: P.RpcNode, now: nat) returns (n: Option<Node>)
      requires Valid()
      modifies Repr()
      ensures Valid() && Keeps() && fresh(Repr() - old(Repr()))
      ensures n.Some? ==> Has(n.value)
      ensures (model, IdOf(n)) == P.MeetNeighbour(env, old(model), ip, rn, now)
    {
      n := InternNeighbour(ip, rn);
      if n.Some? {
        VerifyNew(n.value, now);
      }
    }

    method MeetNeighbours(ip: Bytes, rns: seq<P.RpcNode>, now: nat) returns (a: P.Answer)
      requires Valid()
      modifies Repr()
      ensures Valid() && Keeps() && fresh(Repr() - old(Repr()))
      ensures (model, a) == P.MeetNeighbours(env, old(model), ip, rns, now)
    {
      a := [];
      for i := 0 to |rns|
        invariant Valid() && Keeps() && fresh(Repr() - old(Repr()))
        invariant (model, a) == P.MeetNeighbours(env, old(model), ip, rns[..i], now)
      {
        assert rns[..i + 1][..i] == rns[..i];
        var nn := MeetNeighbour(ip, rns[i], now);
        a := a + [IdOf(nn)];
      }
      assert rns[..|rns|] == rns;
    }

    // ----- handlers

    method HandleNeighbours(n: Node, pkt: P.Packet, now: nat) returns (err: Option<P.Error>)
      requires Valid() && Has(n) && pkt.body.Neighbors?
      modifies Repr()
      ensures Valid() && Keeps() && fresh(Repr() - old(Repr()))
      ensures (model, err) == P.HandleNeighbours(env, old(model), n.id, pkt, now)
    {
      if n.v.pending == None {
        return Some(P.NoQuery);
      }
      var pending := n.v.pending.value;
      AbortTimedEvent(n, P.NeighboursTimeout);
      var answer := MeetNeighbours(pkt.ip, pkt.body.nodes, now);
      FinishQuery(n, pending, answer, now);
      return None;
    }

    method FinishQuery(n: Node, q: P.Query, a: P.Answer, now: nat)
      requires Valid() && Has(n)
      modifies Repr()
      ensures Valid() && nodes == old(nodes)
      ensures model == P.FinishQuery(env, old(model), n.id, q, a, now)
    {
      Send(q, a);
      Update(n, n.v.(pending := None));
      StartNextQuery(n, now);
    }

    method AnswerFindnode(n: Node, target: Hash)
      requires Valid() && Has(n)
      modifies this
      ensures Valid() && nodes == old(nodes)
      ensures model == P.AnswerFindnode(old(model), n.id, target)
    {
      var results := tab.Closest(target, T.BUCKET_SIZE);
      Note(P.SentNeighbours(n.id, P.Ids(results.entries)));
    }

    method QueryTimedOut(n: Node)
      requires Valid() && Has(n)
      modifies this, n
      ensures Valid() && nodes == old(nodes)
      ensures model == P.QueryTimedOut(old(model), n.id)
    {
      if n.v.pending != None {
        Send(n.v.pending.value, []);
      }
      Update(n, n.v.(pending := None, queryTimeouts := n.v.queryTimeouts + 1));
    }

    method HandleQueryPacket(n: Node, pkt: P.Packet, now: nat) returns (next: P.NodeState, err: Option<P.Error>)
      requires Valid() && Has(n)
      modifies Repr()
      ensures Valid() && Keeps() && fresh(Repr() - old(Repr()))
      ensures P.Handled(model, next, err) == P.HandleQueryPacket(env, old(model), n.id, pkt, now)
    {
      next, err := n.v.state, None;
      if pkt.body.Neighbors? {
        err := HandleNeighbours(n, pkt, now);
      } else {
        err := AnswerPacket(n, pkt, now);
      }
    }

    method AnswerPacket(n: Node, pkt: P.Packet, now: nat) returns (err: Option<P.Error>)
      requires Valid() && Has(n) && !pkt.body.Neighbors?
      modifies this
      ensures Valid() && nodes == old(nodes)
      ensures P.Handled(model, n.v.state, err) == P.HandleQueryPacket(env, old(model), n.id, pkt, now)
    {
      match pkt.body
      case Findnode(target, _) => AnswerFindnode(n, env.keccakID(target)); return None;
      case FindnodeHash(target, _) => AnswerFindnode(n, target); return None;
      case _ => return Some(P.InvalidEvent);
    }

    method HandleQueryTimeout(n: Node) returns (next: P.NodeState, err: Option<P.Error>)
      requires Valid() && Has(n)
      modifies this, n
      ensures Valid() && nodes == old(nodes)
      ensures P.Handled(model, next, err) == P.HandleQueryTimeout(old(model), n.id)
    {
      next, err := n.v.state, None;
      QueryTimedOut(n);
      if n.v.queryTimeouts > P.MAX_FINDNODE_FAILURES && next == P.Known {
        next, err := P.Contested, Some(P.TooManyTimeouts);
      }
    }

    method HandleQueryEvent(n: Node, ev: P.Event, now: nat) returns (next: P.NodeState, err: Option<P.Error>)
      requires Valid() && Has(n)
      modifies Repr()
      ensures Valid() && Keeps() && fresh(Repr() - old(Repr()))
      ensures P.Handled(model, next, err) == P.HandleQueryEvent(env, old(model), n.id, ev, now)
    {
      match ev
      case PacketEvent(pkt) => next, err := HandleQueryPacket(n, pkt, now);
      case TimerFired(timer) =>
        if timer == P.NeighboursTimeout {
          next, err := HandleQueryTimeout(n);
        } else {
          next, err := n.v.state, Some(P.InvalidEvent);
        }
    }

    method HandleUnknown(n: Node, ev: P.Event, now: nat) returns (next: P.NodeState, err: Option<P.Error>)
      requires Valid() && Has(n) && n.v.state == P.Unknown
      modifies Repr()
      ensures Valid() && nodes == old(nodes)
      ensures P.Handled(model, next, err) == P.HandleUnknown(env, old(model), n.id, ev, now)
    {
      if P.IsPing(ev) {
        HandlePing(n, ev.pkt, now);
        Ping(n, P.MakeEndpoint(ev.pkt.ip, ev.pkt.port, ev.pkt.port), now);
        return P.VerifyWait, None;
      }
      return P.Unknown, Some(P.InvalidEvent);
    }

    method HandleVerifyInit(n: Node, ev: P.Event, now: nat) returns (next: P.NodeState, err: Option<P.Error>)
      requires Valid() && Has(n) && n.v.state == P.VerifyInit
      modifies Repr()
      ensures Valid() && nodes == old(nodes)
      ensures P.Handled(model, next, err) == P.HandleVerifyInit(old(model), n.id, ev, now)
    {
      if P.IsPing(ev) {
        HandlePing(n, ev.pkt, now);
        return P.VerifyWait, None;
      } else if P.IsPong(ev) {
        HandleKnownPong(n);
        return P.RemoteVerifyWait, None;
      } else if ev == P.TimerFired(P.PongTimeout) {
        return P.Unknown, None;
      }
      return P.VerifyInit, Some(P.InvalidEvent);
    }

    method HandleVerifyWait(n: Node, ev: P.Event, now: nat) returns (next: P.NodeState, err: Option<P.Error>)
      requires Valid() && Has(n) && n.v.state == P.VerifyWait
      modifies Repr()
      ensures Valid() && nodes == old(nodes)
      ensures P.Handled(model, next, err) == P.HandleVerifyWait(old(model), n.id, ev, now)
    {
      if P.IsPing(ev) {
        HandlePing(n, ev.pkt, now);
        return P.VerifyWait, None;
      } else if P.IsPong(ev) {
        HandleKnownPong(n);
        return P.Known, None;
      } else if ev == P.TimerFired(P.PongTimeout) {
        return P.Unknown, None;
      }
      return P.VerifyWait, Some(P.InvalidEvent);
    }

    method HandleRemoteVerifyWait(n: Node, ev: P.Event, now: nat) returns (next: P.NodeState, err: Option<P.Error>)
      requires Valid() && Has(n) && n.v.state == P.RemoteVerifyWait
      modifies Repr()
      ensures Valid() && nodes == old(nodes)
      ensures P.Handled(model, next, err) == P.HandleRemoteVerifyWait(old(model), n.id, ev, now)
    {
      if P.IsPing(ev) {
        HandlePing(n, ev.pkt, now);
        return P.RemoteVerifyWait, None;
      } else if ev == P.TimerFired(P.PingTimeout) {
        return P.Known, None;
      }
      return P.RemoteVerifyWait, Some(P.InvalidEvent);
    }

    method HandleKnown(n: Node, ev: P.Event, now: nat) returns (next: P.NodeState, err: Option<P.Error>)
      requires Valid() && Has(n) && n.v.state == P.Known
      modifies Repr()
      ensures Valid() && Keeps() && fresh(Repr() - old(Repr()))
      ensures P.Handled(model, next, err) == P.HandleKnown(env, old(model), n.id, ev, now)
    {
      if P.IsPing(ev) {
        HandlePing(n, ev.pkt, now);
        return P.Known, None;
      } else if P.IsPong(ev) {
        HandleKnownPong(n);
        return P.Known, None;
      }
      next, err := HandleQueryEvent(n, ev, now);
    }

    method HandleContested(n: Node, ev: P.Event, now: nat) returns (next: P.NodeState, err: Option<P.Error>)
      requires Valid() && Has(n) && n.v.state == P.Contested
      modifies Repr()
      ensures Valid() && Keeps() && fresh(Repr() - old(Repr()))
      ensures P.Handled(model, next, err) == P.HandleContested(env, old(model), n.id, ev, now)
    {
      if P.IsPong(ev) {
        HandleKnownPong(n);
        return P.Known, None;
      } else if ev == P.TimerFired(P.PongTimeout) {
        TabDeleteReplace(n);
        return P.Unresponsive, None;
      } else if P.IsPing(ev) {
        HandlePing(n, ev.pkt, now);
        return P.Contested, None;
      }
      next, err := HandleQueryEvent(n, ev, now);
    }

    method HandleUnresponsive(n: Node, ev: P.Event, now: nat) returns (next: P.NodeState, err: Option<P.Error>)
      requires Valid() && Has(n) && n.v.state == P.Unresponsive
      modifies Repr()
      ensures Valid() && Keeps() && fresh(Repr() - old(Repr()))
      ensures P.Handled(model, next, err) == P.HandleUnresponsive(env, old(model), n.id, ev, now)
    {
      if P.IsPing(ev) {
        HandlePing(n, ev.pkt, now);
        return P.Known, None;
      } else if P.IsPong(ev) {
        HandleKnownPong(n);
        return P.Known, None;
      }
      next, err := HandleQueryEvent(n, ev, now);
    }

    method HandleInState(n: Node, ev: P.Event, now: nat) returns (next: P.NodeState, err: Option<P.Error>)
      requires Valid() && Has(n)
      modifies Repr()
      ensures Valid() && Keeps() && fresh(Repr() - old(Repr()))
      ensures P.Handled(model, next, err) == P.HandleInState(env, old(model), n.id, ev, now)
    {
      match n.v.state
      case Unknown => next, err := HandleUnknown(n, ev, now);
      case VerifyInit => next, err := HandleVerifyInit(n, ev, now);
      case VerifyWait => next, err := HandleVerifyWait(n, ev, now);
      case RemoteVerifyWait => next, err := HandleRemoteVerifyWait(n, ev, now);
      case Known => next, err := HandleKnown(n, ev, now);
      case Contested => next, err := HandleContested(n, ev, now);
      case Unresponsive => next, err := HandleUnresponsive(n, ev, now);
    }

    method Handle(n: Node, ev: P.Event, now: nat) returns (err: Option<P.Error>)
      requires Valid() && Has(n)
      modifies Repr()
      ensures Valid() && Keeps() && fresh(Repr() - old(Repr()))
      ensures (model, err) == P.Handle(env, old(model), n.id, ev, now)
    {
      if ev.PacketEvent? {
        err := CheckPacket(n, ev.pkt);
        if err.Some? {
          return;
        }
      }
      var next;
      next, err := HandleInState(n, ev, now);
      Transition(n, next, now);
    }

    // ----- the arms of the event loop

    /** A packet from the read loop. */
    method ReadPacket(pkt: P.Packet, now: nat) returns (err: Option<P.Error>)
      requires Valid()
      modifies Repr()
      ensures Valid() && Keeps() && fresh(Repr() - old(Repr()))
      ensures model == P.Step(env, old(model), P.Receive(pkt), now)
    {
      var n := InternNode(pkt);
      err := Handle(n, P.PacketEvent(pkt), now);
    }

    /** A timer went off; one that was aborted in the meantime is ignored. */
    method TimerExpired(n: Node, ev: P.TimerEvent, now: nat)
      requires Valid() && Has(n)
      modifies Repr()
      ensures Valid() && Keeps() && fresh(Repr() - old(Repr()))
      ensures model == if P.Timeout(ev, n.id) in old(timeoutTimers)
                       then P.Step(env, old(model), P.Fire(P.Timeout(ev, n.id)), now) else old(model)
    {
      if P.Timeout(ev, n.id) !in timeoutTimers {
        return;
      }
      AbortTimedEvent(n, ev);
      var err := Handle(n, P.TimerFired(ev), now);
    }

    ghost method MarkSubmitted(q: P.Query)
      requires Valid()
      modifies `model
      ensures Valid() && model == old(model).(submitted := old(model).submitted + {q})
    {
      model := model.(submitted := model.submitted + {q});
    }

    ghost method MarkSeed(id: NodeID)
      requires Valid()
      modifies `model
      ensures Valid() && model == old(model).(seeds := old(model).seeds + {id})
    {
      model := model.(seeds := model.seeds + {id});
    }

    /** A lookup hands over a query. */
    method QueryRequested(q: P.Query, now: nat)
      requires Valid() && (q.remote.RemoteNode? ==> q.remote.id in nodes)
      modifies Repr()
      ensures Valid() && nodes == old(nodes)
      ensures model == P.SubmitQuery(env, old(model), q, now)
    {
      MarkSubmitted(q);
      var started := Start(q, now);
      if !started && q.remote.RemoteNode? {
        DeferQuery(nodes[q.remote.id], q);
      }
    }

    method RefreshOne(seed: P.RpcNode, now: nat)
      requires Valid()
      modifies Repr()
      ensures Valid() && Keeps() && fresh(Repr() - old(Repr()))
      ensures model == P.RefreshOne(env, old(model), seed, now)
    {
      MarkSeed(seed.id);
      var n := InternFromDB(seed);
      AddSeed(n, now);
    }

    method AddSeed(n: Node, now: nat)
      requires Valid() && Has(n)
      modifies Repr()
      ensures Valid() && nodes == old(nodes)
      ensures model == P.TabAdd(P.VerifyNew(env, old(model), n.id, now), n.id)
    {
      VerifyNew(n, now);
      var last := TabAdd(n);
    }

    method Refresh(seeds: seq<P.RpcNode>, now: nat)
      requires Valid()
      modifies Repr()
      ensures Valid() && Keeps() && fresh(Repr() - old(Repr()))
      ensures model == P.RefreshSeeds(env, old(model), seeds, now)
    {
      for i := 0 to |seeds|
        invariant Valid() && Keeps() && fresh(Repr() - old(Repr()))
        invariant model == P.RefreshSeeds(env, old(model), seeds[..i], now)
      {
        NextSeed(env, old(model), seeds, i, now);
        RefreshOne(seeds[i], now);
      }
      assert seeds[..|seeds|] == seeds;
    }

    /** One round of the select loop. */
    method Dispatch(input: P.Input, now: nat)
      requires Valid() && P.Enabled(model, input)
      requires input.Fire? ==> input.timeout.node in nodes
      modifies Repr()
      ensures Valid() && Keeps() && fresh(Repr() - old(Repr()))
      ensures model == P.Step(env, old(model), input, now)
    {
      match input
      case Receive(pkt) => var err := ReadPacket(pkt, now);
      case Fire(timeout) => TimerExpired(nodes[timeout.node], timeout.ev, now);
      case Submit(q) => QueryRequested(q, now);
      case Refresh(seeds) => Refresh(seeds, now);
    }

    /** A round from a reachable state: no timer refers to an unknown node, and the invariant is kept. */
    method Round(input: P.Input, now: nat)
      requires Valid() && P.Enabled(model, input) && Hashing(env) && Inv(env, model, {})
      modifies Repr()
      ensures Valid() && Keeps() && fresh(Repr() - old(Repr()))
      ensures model == P.Step(env, old(model), input, now) && Inv(env, model, {})
    {
      if input.Fire? { TimerOfInterned(env, model, input.timeout); }
      StepInv(env, model, input, now);
      Dispatch(input, now);
    }

    /** The event loop on any legal sequence of inputs reaches the state that the theorems are about. */
    method Loop(self: NodeID, ins: P.Inputs)
      requires Valid() && model == P.Init(self)
      requires Hashing(env) && P.Legal(env, self, ins)
      modifies Repr()
      ensures Valid() && Keeps() && fresh(Repr() - old(Repr()))
      ensures model == P.Run(env, self, ins) && Inv(env, model, {})
    {
      InitInv(env, self);
      for i := 0 to |ins|
        invariant Valid() && Keeps() && fresh(Repr() - old(Repr()))
        invariant model == P.Run(env, self, ins[..i]) && Inv(env, model, {})
      {
        var input, now := ins[i].0, ins[i].1;
        NextLegal(env, self, ins, i);
        Round(input, now);
      }
      assert ins[..|ins|] == ins;
    }
  }

  lemma NextSeed(env: P.Env, s: P.Net, seeds: seq<P.RpcNode>, i: nat, now: nat)
    requires i < |seeds|
    ensures P.RefreshSeeds(env, s, seeds[..i + 1], now) == P.RefreshOne(env, P.RefreshSeeds(env, s, seeds[..i], now), seeds[i], now)
  {
    assert seeds[..i + 1][..i] == seeds[..i];
  }

  /** Every prefix of a legal sequence is legal, and its next input is enabled. */
  lemma {:induction false} NextLegal(env: P.Env, self: NodeID, ins: P.Inputs, i: nat)
    requires P.Legal(env, self, ins) && i < |ins|
    ensures P.Legal(env, self, ins[..i]) && P.Enabled(P.Run(env, self, ins[..i]), ins[i].0)
    ensures P.Run(env, self, ins[..i + 1]) == P.Step(env, P.Run(env, self, ins[..i]), ins[i].0, ins[i].1)
  {
    assert ins[..i + 1][..i] == ins[..i];
    if i < |ins| - 1 {
      NextLegal(env, self, ins[..|ins| - 1], i);
      assert ins[..|ins| - 1][..i] == ins[..i] && ins[..|ins| - 1][..i + 1] == ins[..i + 1];
    }
  }

  function IdOf(n: Option<Node>): Option<NodeID> {
    match n case None => None case Some(node) => Some(node.id)
  }

  lemma RefsAdd(s: P.Net, id: NodeID)
    requires Refs(s) && id in s.nodes
    ensures T.InRange(s.tab, P.PeerOf(id)) && Refs(P.TabAdd(s, id))
    ensures P.TabChallenges(s, id).Some? ==> P.TabChallenges(s, id).value.id in s.nodes
  {
    var p := P.PeerOf(id);
    P.BucketZero(s.tab, id);
    forall q | T.Stores(T.Add(s.tab, p), q) ensures q.id in s.nodes {
      T.AddStores(s.tab, p, q);
    }
    if P.TabChallenges(s, id).Some? { T.ChallengedStored(s.tab, p); }
  }

  lemma RefsDelete(s: P.Net, id: NodeID)
    requires Refs(s)
    ensures T.InRange(s.tab, P.PeerOf(id)) && Refs(P.TabDelete(s, id))
  {
    P.BucketZero(s.tab, id);
    forall q | T.Stores(T.Delete(s.tab, P.PeerOf(id)), q) ensures q.id in s.nodes {
      T.DeleteStores(s.tab, P.PeerOf(id), q);
    }
  }

  lemma RefsDeleteReplace(s: P.Net, id: NodeID)
    requires Refs(s)
    ensures T.InRange(s.tab, P.PeerOf(id)) && Refs(P.TabDeleteReplace(s, id))
  {
    P.BucketZero(s.tab, id);
    forall q | T.Stores(T.DeleteReplace(s.tab, P.PeerOf(id)), q) ensures q.id in s.nodes {
      T.DeleteStores(s.tab, P.PeerOf(id), q);
    }
  }
}
