/** The peer-verification protocol of discovery/net.go as a function from states to states: node states
    with their handle and enter functions, queries, timers, interning, and the arms of the event loop.

    A node object is interned once per ID and never removed, so a pointer to it is written as its ID.
    Packets sent, pongs accepted, and queries submitted or answered are recorded in the state. */
module Protocol {
  import opened Slices
  import opened Words
  import opened Addresses
  import opened Distance
  import opened NodesByDistance
  import T = Table

  const MAX_FINDNODE_FAILURES := 5
  const LOW_PORT := 1024
  const EXPIRATION := 20
  const BUCKETS := 16

  // ----- data

  datatype NodeState = Unknown | VerifyInit | VerifyWait | RemoteVerifyWait | Known | Contested | Unresponsive
  {
    predicate CanQuery() { Known? || Contested? || Unresponsive? }
  }

  datatype Endpoint = Endpoint(ip: Bytes, udp: nat, tcp: nat)

  datatype RpcNode = RpcNode(id: NodeID, ep: Endpoint)

  datatype Body =
    | Ping(from: Endpoint, to: Endpoint, expiration: nat)
    | Pong(to: Endpoint, replyTok: Bytes, expiration: nat)
    | Findnode(targetID: NodeID, expiration: nat)
    | Neighbors(nodes: seq<RpcNode>, expiration: nat)
    | FindnodeHash(target: Hash, expiration: nat)

  /** A decoded packet: signer, sender address, frame hash, content. */
  datatype Packet = Packet(remoteID: NodeID, ip: Bytes, port: nat, hash: Bytes, body: Body)

  datatype TimerEvent = PongTimeout | PingTimeout | NeighboursTimeout

  datatype Timeout = Timeout(ev: TimerEvent, node: NodeID)

  datatype Event = PacketEvent(pkt: Packet) | TimerFired(ev: TimerEvent)

  /** The table's own node, or an interned node. */
  datatype Remote = LocalNode | RemoteNode(id: NodeID)

  /** serial stands for the identity of the query object, reply for its channel. */
  datatype Query = Query(serial: nat, remote: Remote, target: Hash, reply: nat)

  type Answer = seq<Option<NodeID>>

  datatype Node = Node(ep: Endpoint, state: NodeState, pingEcho: Option<Bytes>, pending: Option<Query>,
                       deferred: seq<Query>, queryTimeouts: nat)

  datatype Effect =
    | SentPing(to: NodeID, body: Body)
    | SentPong(to: NodeID, body: Body)
    | SentNeighbours(to: NodeID, nodes: seq<NodeID>)
    | SentFindnodeHash(to: NodeID, target: Hash)
    | HandledPing(from: NodeID, body: Body, hash: Bytes)
    | AcceptedPong(from: NodeID, replyTok: Bytes)

  datatype Error = InvalidEvent | ReplyTokenMismatch | NoQuery | TooManyTimeouts

  /** Every hash in the running network is zero: NewNode leaves it unset. */
  type NetTable = t: T.TableV | t.self.sha == ZERO_HASH && |t.buckets| == BUCKETS
    witness EmptyTable(0)

  function EmptyTable(self: NodeID): T.TableV {
    T.TableV(Peer(self, ZERO_HASH), seq(BUCKETS, _ => T.BucketV([], [])))
  }

  /** The unseen parts: our endpoint, the hash of a packet that a node signs and sends, Keccak, and the
      relay and completeness checks. */
  datatype Env = Env(
    ourEndpoint: Endpoint,
    hash: (NodeID, Body) -> Bytes,
    keccakID: NodeID -> Hash,
    keccakHash: Hash -> Hash,
    acceptable: (Bytes, RpcNode) -> bool)

  datatype Net = Net(
    nodes: map<NodeID, Node>,
    timers: set<Timeout>,
    tab: NetTable,
    chans: map<nat, seq<Answer>>,
    log: seq<Effect>,
    submitted: set<Query>,
    answered: set<Query>,
    seeds: set<NodeID>)

  function Init(self: NodeID): Net {
    Net(map[], {}, EmptyTable(self), map[], [], {}, {}, {})
  }

  // ----- small steps

  function PeerOf(id: NodeID): Peer {
    Peer(id, ZERO_HASH)
  }

  lemma BucketZero(t: NetTable, id: NodeID)
    ensures LogDist(t.self.sha, PeerOf(id).sha) == 0 && T.InRange(t, PeerOf(id))
  {
    SelfDist(ZERO_HASH);
  }

  function NewNode(ep: Endpoint): Node {
    Node(ep.(ip := Canon(ep.ip)), Unknown, None, None, [], 0)
  }

  /** The interned node, or a fresh one. */
  function NodeAt(s: Net, id: NodeID): Node {
    if id in s.nodes then s.nodes[id] else NewNode(Endpoint([], 0, 0))
  }

  function Put(s: Net, id: NodeID, n: Node): Net {
    s.(nodes := s.nodes[id := n])
  }

  function Record(s: Net, e: Effect): Net {
    s.(log := s.log + [e])
  }

  function Arm(s: Net, ev: TimerEvent, id: NodeID): Net {
    s.(timers := s.timers + {Timeout(ev, id)})
  }

  function Disarm(s: Net, ev: TimerEvent, id: NodeID): Net {
    s.(timers := s.timers - {Timeout(ev, id)})
  }

  function Chan(s: Net, c: nat): seq<Answer> {
    if c in s.chans then s.chans[c] else []
  }

  /** q.reply <- a */
  function Reply(s: Net, q: Query, a: Answer): Net {
    s.(chans := s.chans[q.reply := Chan(s, q.reply) + [a]], answered := s.answered + {q})
  }

  function ReplyNil(s: Net, qs: seq<Query>): Net {
    if qs == [] then s else Reply(ReplyNil(s, qs[..|qs| - 1]), qs[|qs| - 1], [])
  }

  function TabAdd(s: Net, id: NodeID): Net {
    BucketZero(s.tab, id);
    s.(tab := T.Add(s.tab, PeerOf(id)))
  }

  function TabChallenges(s: Net, id: NodeID): Option<Peer> {
    BucketZero(s.tab, id);
    T.AddChallenges(s.tab, PeerOf(id))
  }

  function TabDelete(s: Net, id: NodeID): Net {
    BucketZero(s.tab, id);
    s.(tab := T.Delete(s.tab, PeerOf(id)))
  }

  function TabDeleteReplace(s: Net, id: NodeID): Net {
    BucketZero(s.tab, id);
    s.(tab := T.DeleteReplace(s.tab, PeerOf(id)))
  }

  function Ids(ps: seq<Peer>): (ids: seq<NodeID>)
    ensures |ids| == |ps|
    ensures forall i :: 0 <= i < |ps| ==> ids[i] == ps[i].id
  {
    if ps == [] then [] else Ids(ps[..|ps| - 1]) + [ps[|ps| - 1].id]
  }

  function ClosestIds(s: Net, target: Hash): seq<NodeID> {
    Ids(T.Closest(s.tab, target, T.BUCKET_SIZE))
  }

  function AllFound(ids: seq<NodeID>): (a: Answer)
    ensures |a| == |ids|
  {
    if ids == [] then [] else AllFound(ids[..|ids| - 1]) + [Some(ids[|ids| - 1])]
  }

  // ----- packets to and from one node

  /** ping: nothing while a ping is outstanding or to ourselves. */
  function SendPing(env: Env, s: Net, id: NodeID, to: Endpoint, now: nat): Net {
    var n := NodeAt(s, id);
    if n.pingEcho.Some? || id == s.tab.self.id then s
    else
      var body := Ping(env.ourEndpoint, to, now + EXPIRATION);
      Arm(Record(Put(s, id, n.(pingEcho := Some(env.hash(s.tab.self.id, body)))), SentPing(id, body)), PongTimeout, id)
  }

  /** makeEndpoint: the wire form of an address. */
  function MakeEndpoint(ip: Bytes, port: nat, tcp: nat): Endpoint {
    Endpoint(match To4(ip) case Some(ip4) => ip4 case None => if |ip| == 16 then ip else [], port, tcp)
  }

  function OwnAddress(n: Node): Endpoint {
    MakeEndpoint(n.ep.ip, n.ep.udp, n.ep.udp)
  }

  predicate SameEndpoint(a: Endpoint, b: Endpoint) {
    SameIP(a.ip, b.ip) && a.udp == b.udp && a.tcp == b.tcp
  }

  function HandlePing(s: Net, id: NodeID, pkt: Packet, now: nat): Net
    requires pkt.body.Ping?
  {
    var n := NodeAt(s, id).(ep := NodeAt(s, id).ep.(tcp := pkt.body.from.tcp));
    var pong := Pong(MakeEndpoint(n.ep.ip, n.ep.udp, n.ep.tcp), pkt.hash, now + EXPIRATION);
    Record(Record(Put(s, id, n), HandledPing(id, pkt.body, pkt.hash)), SentPong(id, pong))
  }

  function HandleKnownPong(s: Net, id: NodeID): Net {
    Put(Disarm(s, PongTimeout, id), id, NodeAt(s, id).(pingEcho := None))
  }

  /** bytes.Equal treats a nil token as empty. */
  function EchoBytes(echo: Option<Bytes>): Bytes {
    match echo case None => [] case Some(h) => h
  }

  function CheckPacket(s: Net, id: NodeID, pkt: Packet): (r: (Net, Option<Error>)) {
    if !pkt.body.Pong? then (s, None)
    else if pkt.body.replyTok != EchoBytes(NodeAt(s, id).pingEcho) then (s, Some(ReplyTokenMismatch))
    else (Record(Put(s, id, NodeAt(s, id).(pingEcho := None)), AcceptedPong(id, pkt.body.replyTok)), None)
  }

  // ----- queries and transitions

  /** How deep the enter function of a state can call back into transition. */
  function Rank(state: NodeState): nat {
    if state == Known then 2 else 0
  }

  function SendQuery(s: Net, id: NodeID, q: Query): Net {
    Put(Arm(Record(s, SentFindnodeHash(id, q.target)), NeighboursTimeout, id), id, NodeAt(s, id).(pending := Some(q)))
  }

  /** findnodeQuery.start: answered locally, sent, or left to be deferred. */
  function Start(env: Env, s: Net, q: Query, now: nat): (r: (Net, bool))
    decreases 1, 0
  {
    match q.remote
    case LocalNode =>
      (Reply(s, q, AllFound(ClosestIds(s, env.keccakHash(q.target)))), true)
    case RemoteNode(id) =>
      var n := NodeAt(s, id);
      if n.state.CanQuery() && n.pending == None then (SendQuery(s, id, q), true)
      else if n.state == Unknown then (Transition(env, s, id, VerifyInit, now), false)
      else (s, false)
  }

  /** A started query does not change anybody's line. */
  lemma StartKeepsLine(env: Env, s: Net, q: Query, now: nat, id: NodeID)
    requires Start(env, s, q, now).1
    ensures NodeAt(Start(env, s, q, now).0, id).deferred == NodeAt(s, id).deferred
  {
  }

  function StartNextQuery(env: Env, s: Net, id: NodeID, now: nat): Net
    decreases 1, 1
  {
    var n := NodeAt(s, id);
    if n.deferred == [] then s
    else
      var (t, started) := Start(env, s, n.deferred[0], now);
      if started then SetDeferred(t, id, NodeAt(t, id).deferred[1..]) else t
  }

  function DeferQuery(s: Net, id: NodeID, q: Query): Net {
    Put(s, id, NodeAt(s, id).(deferred := NodeAt(s, id).deferred + [q]))
  }

  /** A nil reply to every waiting query and to the one under way. */
  function AbortQueries(s: Net, id: NodeID): Net {
    var n := NodeAt(s, id);
    var t := ReplyNil(s, n.deferred);
    if n.pending.Some? then Reply(t, n.pending.value, []) else t
  }

  function Forgotten(n: Node): Node {
    n.(pingEcho := None, deferred := [], pending := None, queryTimeouts := 0)
  }

  function Forget(s: Net, id: NodeID): Net {
    Put(s, id, Forgotten(NodeAt(s, id)))
  }

  function EnterUnknown(s: Net, id: NodeID): Net {
    Forget(AbortQueries(TabDelete(s, id), id), id)
  }

  function SetState(s: Net, id: NodeID, state: NodeState): Net {
    Put(s, id, NodeAt(s, id).(state := state))
  }

  function SetDeferred(s: Net, id: NodeID, qs: seq<Query>): Net {
    Put(s, id, NodeAt(s, id).(deferred := qs))
  }

  function ResetFailures(s: Net, id: NodeID): Net {
    Put(s, id, NodeAt(s, id).(queryTimeouts := 0))
  }

  /** Insert into the table, and start revalidation of the entry that is in the way. */
  function InsertKnown(env: Env, s: Net, id: NodeID, now: nat): Net
    decreases 1, 0
  {
    var last := TabChallenges(s, id);
    var u := TabAdd(s, id);
    if last.Some? && NodeAt(u, last.value.id).state == Known
    then Transition(env, u, last.value.id, Contested, now)
    else u
  }

  function EnterKnown(env: Env, s: Net, id: NodeID, now: nat): Net
    decreases 2, 0
  {
    InsertKnown(env, StartNextQuery(env, ResetFailures(s, id), id, now), id, now)
  }

  function Enter(env: Env, s: Net, id: NodeID, next: NodeState, now: nat): Net
    decreases Rank(next), 1
  {
    match next
    case Unknown => EnterUnknown(s, id)
    case VerifyInit => SendPing(env, s, id, OwnAddress(NodeAt(s, id)), now)
    case VerifyWait => s
    case RemoteVerifyWait => Arm(s, PingTimeout, id)
    case Known => EnterKnown(env, s, id, now)
    case Contested => SendPing(env, s, id, OwnAddress(NodeAt(s, id)), now)
    case Unresponsive => s
  }

  function Transition(env: Env, s: Net, id: NodeID, next: NodeState, now: nat): Net
    decreases Rank(next), 2
  {
    if NodeAt(s, id).state == next then s
    else Enter(env, SetState(s, id, next), id, next, now)
  }

  // ----- interning

  function InternNode(s: Net, pkt: Packet): Net {
    var ep := Endpoint(pkt.ip, pkt.port, pkt.port);
    Put(s, pkt.remoteID, if pkt.remoteID in s.nodes then s.nodes[pkt.remoteID].(ep := ep) else NewNode(ep))
  }

  function InternFromDB(s: Net, seed: RpcNode): Net {
    if seed.id in s.nodes then s else Put(s, seed.id, NewNode(seed.ep))
  }

  /** internNodeFromNeighbours: None where the source returns an error. */
  function InternNeighbour(env: Env, s: Net, ip: Bytes, rn: RpcNode): (r: (Net, Option<NodeID>)) {
    if rn.id == s.tab.self.id then (s, None)
    else if rn.ep.udp <= LOW_PORT then (s, None)
    else if rn.id !in s.nodes then
      if env.acceptable(ip, rn) then (Put(s, rn.id, NewNode(rn.ep)), Some(rn.id)) else (s, None)
    else if SameEndpoint(s.nodes[rn.id].ep, rn.ep) then (s, Some(rn.id))
    else if s.nodes[rn.id].state == Known then (s, None)
    else (Put(s, rn.id, s.nodes[rn.id].(ep := rn.ep)), Some(rn.id))
  }

  /** Start verifying a node that is unknown. */
  function VerifyNew(env: Env, s: Net, id: NodeID, now: nat): Net {
    if NodeAt(s, id).state == Unknown then Transition(env, s, id, VerifyInit, now) else s
  }

  /** One round of the loop over a neighbours packet. */
  function MeetNeighbour(env: Env, s: Net, ip: Bytes, rn: RpcNode, now: nat): (r: (Net, Option<NodeID>)) {
    var (t, nn) := InternNeighbour(env, s, ip, rn);
    (if nn.Some? then VerifyNew(env, t, nn.value, now) else t, nn)
  }

  function MeetNeighbours(env: Env, s: Net, ip: Bytes, rns: seq<RpcNode>, now: nat): (r: (Net, Answer))
    ensures |r.1| == |rns|
  {
    if rns == [] then (s, [])
    else
      var (t, a) := MeetNeighbours(env, s, ip, rns[..|rns| - 1], now);
      var (u, nn) := MeetNeighbour(env, t, ip, rns[|rns| - 1], now);
      (u, a + [nn])
  }

  // ----- handlers

  /** What a state's handle function returns: changed network, next state, error. */
  datatype Handled = Handled(net: Net, next: NodeState, err: Option<Error>)

  /** Hand the answer to the lookup and turn to the next query. */
  function FinishQuery(env: Env, s: Net, id: NodeID, q: Query, a: Answer, now: nat): Net {
    var u := Reply(s, q, a);
    StartNextQuery(env, Put(u, id, NodeAt(u, id).(pending := None)), id, now)
  }

  function HandleNeighbours(env: Env, s: Net, id: NodeID, pkt: Packet, now: nat): (r: (Net, Option<Error>))
    requires pkt.body.Neighbors?
  {
    var pending := NodeAt(s, id).pending;
    if pending == None then (s, Some(NoQuery))
    else
      var (t, answer) := MeetNeighbours(env, Disarm(s, NeighboursTimeout, id), pkt.ip, pkt.body.nodes, now);
      (FinishQuery(env, t, id, pending.value, answer, now), None)
  }

  predicate IsPing(ev: Event) {
    ev.PacketEvent? && ev.pkt.body.Ping?
  }

  predicate IsPong(ev: Event) {
    ev.PacketEvent? && ev.pkt.body.Pong?
  }

  function AnswerFindnode(s: Net, id: NodeID, target: Hash): Net {
    Record(s, SentNeighbours(id, ClosestIds(s, target)))
  }

  function QueryTimedOut(s: Net, id: NodeID): Net {
    var n := NodeAt(s, id);
    var t := if n.pending.Some? then Reply(s, n.pending.value, []) else s;
    Put(t, id, n.(pending := None, queryTimeouts := n.queryTimeouts + 1))
  }

  function HandleQueryPacket(env: Env, s: Net, id: NodeID, pkt: Packet, now: nat): Handled {
    var state := NodeAt(s, id).state;
    match pkt.body
    case Findnode(target, _) => Handled(AnswerFindnode(s, id, env.keccakID(target)), state, None)
    case FindnodeHash(target, _) => Handled(AnswerFindnode(s, id, target), state, None)
    case Neighbors(_, _) => var (t, err) := HandleNeighbours(env, s, id, pkt, now); Handled(t, state, err)
    case _ => Handled(s, state, Some(InvalidEvent))
  }

  function HandleQueryTimeout(s: Net, id: NodeID): Handled {
    var t, state := QueryTimedOut(s, id), NodeAt(s, id).state;
    if NodeAt(t, id).queryTimeouts > MAX_FINDNODE_FAILURES && state == Known
    then Handled(t, Contested, Some(TooManyTimeouts))
    else Handled(t, state, None)
  }

  function HandleQueryEvent(env: Env, s: Net, id: NodeID, ev: Event, now: nat): Handled {
    match ev
    case PacketEvent(pkt) => HandleQueryPacket(env, s, id, pkt, now)
    case TimerFired(timer) =>
      if timer == NeighboursTimeout then HandleQueryTimeout(s, id)
      else Handled(s, NodeAt(s, id).state, Some(InvalidEvent))
  }

  // one handle function for each state

  function HandleUnknown(env: Env, s: Net, id: NodeID, ev: Event, now: nat): Handled {
    if IsPing(ev) then
      var t := HandlePing(s, id, ev.pkt, now);
      Handled(SendPing(env, t, id, MakeEndpoint(ev.pkt.ip, ev.pkt.port, ev.pkt.port), now), VerifyWait, None)
    else Handled(s, Unknown, Some(InvalidEvent))
  }

  function HandleVerifyInit(s: Net, id: NodeID, ev: Event, now: nat): Handled {
    if IsPing(ev) then Handled(HandlePing(s, id, ev.pkt, now), VerifyWait, None)
    else if IsPong(ev) then Handled(HandleKnownPong(s, id), RemoteVerifyWait, None)
    else if ev == TimerFired(PongTimeout) then Handled(s, Unknown, None)
    else Handled(s, VerifyInit, Some(InvalidEvent))
  }

  function HandleVerifyWait(s: Net, id: NodeID, ev: Event, now: nat): Handled {
    if IsPing(ev) then Handled(HandlePing(s, id, ev.pkt, now), VerifyWait, None)
    else if IsPong(ev) then Handled(HandleKnownPong(s, id), Known, None)
    else if ev == TimerFired(PongTimeout) then Handled(s, Unknown, None)
    else Handled(s, VerifyWait, Some(InvalidEvent))
  }

  function HandleRemoteVerifyWait(s: Net, id: NodeID, ev: Event, now: nat): Handled {
    if IsPing(ev) then Handled(HandlePing(s, id, ev.pkt, now), RemoteVerifyWait, None)
    else if ev == TimerFired(PingTimeout) then Handled(s, Known, None)
    else Handled(s, RemoteVerifyWait, Some(InvalidEvent))
  }

  function HandleKnown(env: Env, s: Net, id: NodeID, ev: Event, now: nat): Handled {
    if IsPing(ev) then Handled(HandlePing(s, id, ev.pkt, now), Known, None)
    else if IsPong(ev) then Handled(HandleKnownPong(s, id), Known, None)
    else HandleQueryEvent(env, s, id, ev, now)
  }

  function HandleContested(env: Env, s: Net, id: NodeID, ev: Event, now: nat): Handled {
    if IsPong(ev) then Handled(HandleKnownPong(s, id), Known, None)
    else if ev == TimerFired(PongTimeout) then Handled(TabDeleteReplace(s, id), Unresponsive, None)
    else if IsPing(ev) then Handled(HandlePing(s, id, ev.pkt, now), Contested, None)
    else HandleQueryEvent(env, s, id, ev, now)
  }

  function HandleUnresponsive(env: Env, s: Net, id: NodeID, ev: Event, now: nat): Handled {
    if IsPing(ev) then Handled(HandlePing(s, id, ev.pkt, now), Known, None)
    else if IsPong(ev) then Handled(HandleKnownPong(s, id), Known, None)
    else HandleQueryEvent(env, s, id, ev, now)
  }

  function HandleInState(env: Env, s: Net, id: NodeID, ev: Event, now: nat): Handled {
    match NodeAt(s, id).state
    case Unknown => HandleUnknown(env, s, id, ev, now)
    case VerifyInit => HandleVerifyInit(s, id, ev, now)
    case VerifyWait => HandleVerifyWait(s, id, ev, now)
    case RemoteVerifyWait => HandleRemoteVerifyWait(s, id, ev, now)
    case Known => HandleKnown(env, s, id, ev, now)
    case Contested => HandleContested(env, s, id, ev, now)
    case Unresponsive => HandleUnresponsive(env, s, id, ev, now)
  }

  /** handle: check, dispatch on the state, move to the next state. */
  function Handle(env: Env, s: Net, id: NodeID, ev: Event, now: nat): (r: (Net, Option<Error>)) {
    var (t, err) := if ev.PacketEvent? then CheckPacket(s, id, ev.pkt) else (s, None);
    if err.Some? then (t, err)
    else
      var h := HandleInState(env, t, id, ev, now);
      (Transition(env, h.net, id, h.next, now), h.err)
  }

  // ----- the arms of the event loop

  datatype Input = Receive(pkt: Packet) | Fire(timeout: Timeout) | Submit(q: Query) | Refresh(seeds: seq<RpcNode>)

  /** Anything may be received; only armed timers fire; a query is a new object about a node object
      that exists. */
  predicate Enabled(s: Net, i: Input) {
    match i
    case Receive(_) => true
    case Fire(timeout) => timeout in s.timers
    case Submit(q) => q !in s.submitted && (q.remote.RemoteNode? ==> q.remote.id in s.nodes)
    case Refresh(_) => true
  }

  function SubmitQuery(env: Env, s: Net, q: Query, now: nat): Net {
    var (t, started) := Start(env, s.(submitted := s.submitted + {q}), q, now);
    if started || q.remote.LocalNode? then t else DeferQuery(t, q.remote.id, q)
  }

  function RefreshOne(env: Env, s: Net, seed: RpcNode, now: nat): Net {
    var t := InternFromDB(s.(seeds := s.seeds + {seed.id}), seed);
    TabAdd(VerifyNew(env, t, seed.id, now), seed.id)
  }

  function RefreshSeeds(env: Env, s: Net, seeds: seq<RpcNode>, now: nat): Net {
    if seeds == [] then s
    else RefreshOne(env, RefreshSeeds(env, s, seeds[..|seeds| - 1], now), seeds[|seeds| - 1], now)
  }

  function Step(env: Env, s: Net, i: Input, now: nat): Net {
    match i
    case Receive(pkt) => Handle(env, InternNode(s, pkt), pkt.remoteID, PacketEvent(pkt), now).0
    case Fire(timeout) => Handle(env, Disarm(s, timeout.ev, timeout.node), timeout.node, TimerFired(timeout.ev), now).0
    case Submit(q) => SubmitQuery(env, s, q, now)
    case Refresh(seeds) => RefreshSeeds(env, s, seeds, now)
  }

  /** A run of the event loop: inputs with the clock reading at which they are processed. */
  type Inputs = seq<(Input, nat)>

  function Run(env: Env, self: NodeID, ins: Inputs): Net {
    if ins == [] then Init(self)
    else
      var last := ins[|ins| - 1];
      Step(env, Run(env, self, ins[..|ins| - 1]), last.0, last.1)
  }

  /** A run in which every input was possible when it came. */
  predicate Legal(env: Env, self: NodeID, ins: Inputs) {
    ins != [] ==>
      Legal(env, self, ins[..|ins| - 1]) && Enabled(Run(env, self, ins[..|ins| - 1]), ins[|ins| - 1].0)
  }
}
