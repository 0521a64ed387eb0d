/** The iterative lookup of discovery/net.go, one call of it: whatever replies and timeouts arrive, it
    stops, asks nobody twice, keeps the nearest nodes it has heard of, and has asked all of those. */
module Lookup {
  import opened Slices
  import opened Distance
  import opened NodesByDistance
  import T = Table
  import S = LookupSystem
  import P = Protocol
  import I = Invariants
  import M = Monotone

  /** What the select statement gets: the nodes of a reply, nil ones included, or the timeout. */
  datatype Reaction = Reply(nodes: seq<Option<Peer>>) | Timeout

  /** What a lookup does to the world, in order. */
  datatype Move = Asked(id: NodeID) | Took | GaveUp

  // ----- the nodes heard of

  ghost predicate Knows(seen: seq<Peer>, id: NodeID) {
    exists i :: 0 <= i < |seen| && seen[i].id == id
  }

  /** The nearest of ourselves and the nodes heard of. */
  ghost function Ranked(self: Peer, target: Hash, heard: seq<Peer>): seq<Peer> {
    Nearest(target, [self] + heard, T.BUCKET_SIZE)
  }

  /** Append the nodes of a reply whose ID is new. */
  ghost function AddFresh(seen: seq<Peer>, nodes: seq<Option<Peer>>): seq<Peer> {
    if nodes == [] then seen
    else
      var r, n := AddFresh(seen, nodes[..|nodes| - 1]), nodes[|nodes| - 1];
      if n.Some? && !Knows(r, n.value.id) then r + [n.value] else r
  }

  /** Each ID once, nothing invented, nothing forgotten, and every node of the reply known. */
  lemma {:induction false} AddFreshCorrect(seen: seq<Peer>, nodes: seq<Option<Peer>>)
    ensures var r := AddFresh(seen, nodes);
            && (T.Distinct(seen) ==> T.Distinct(r))
            && (forall p :: p in r ==> p in seen || Some(p) in nodes)
            && (forall p :: p in seen ==> p in r)
            && (forall p :: Some(p) in nodes ==> Knows(r, p.id))
  {
    if nodes != [] {
      var r, n := AddFresh(seen, nodes[..|nodes| - 1]), nodes[|nodes| - 1];
      AddFreshCorrect(seen, nodes[..|nodes| - 1]);
      assert nodes == nodes[..|nodes| - 1] + [n];
      if n.Some? { Appended(r, n.value); }
    }
  }

  lemma Appended(r: seq<Peer>, p: Peer)
    ensures forall id :: Knows(r + [p], id) <==> Knows(r, id) || id == p.id
  {
    assert (r + [p])[|r|] == p;
    forall id | Knows(r, id) ensures Knows(r + [p], id) {
      var i :| 0 <= i < |r| && r[i].id == id;
      assert (r + [p])[i].id == id;
    }
  }

  lemma AddFreshStep(seen: seq<Peer>, nodes: seq<Option<Peer>>, i: nat)
    requires i < |nodes|
    ensures var r, n := AddFresh(seen, nodes[..i]), nodes[i];
            AddFresh(seen, nodes[..i + 1]) == if n.Some? && !Knows(r, n.value.id) then r + [n.value] else r
  {
    assert nodes[..i + 1][..i] == nodes[..i];
  }

  /** Everything heard of in the first k reactions, each ID once, in order of arrival. */
  ghost function Heard(reactions: nat -> Reaction, k: nat): seq<Peer> {
    if k == 0 then []
    else HeardNext(Heard(reactions, k - 1), reactions(k - 1))
  }

  ghost function HeardNext(seen: seq<Peer>, reaction: Reaction): seq<Peer> {
    match reaction case Reply(nodes) => AddFresh(seen, nodes) case Timeout => seen
  }

  /** Heard of in the first k reactions and the first j nodes of the next one. */
  ghost function HeardPart(reactions: nat -> Reaction, k: nat, j: nat): seq<Peer>
    requires reactions(k).Reply? && j <= |reactions(k).nodes|
  {
    AddFresh(Heard(reactions, k), reactions(k).nodes[..j])
  }

  /** The node heard of last is the target itself. */
  predicate Matches(heard: seq<Peer>, target: Hash) {
    heard != [] && heard[|heard| - 1].sha == target
  }

  /** None of these nodes is the target itself. */
  ghost predicate NoMatch(heard: seq<Peer>, target: Hash) {
    forall p :: p in heard ==> p.sha != target
  }

  /** A lookup that is to stop at a match has not passed one by. */
  ghost predicate StopsInTime(stopOnMatch: bool, matched: bool, heard: seq<Peer>, target: Hash) {
    stopOnMatch ==> NoMatch(if matched && heard != [] then heard[..|heard| - 1] else heard, target)
  }

  /** One more node: still in time if a match is noticed. */
  lemma StopsAfter(stopOnMatch: bool, matched: bool, before: seq<Peer>, n: Option<Peer>, after: seq<Peer>, target: Hash)
    requires var added := n.Some? && !Knows(before, n.value.id);
             && after == (if added then before + [n.value] else before)
             && (matched <==> added && stopOnMatch && n.value.sha == target)
    ensures StopsInTime(stopOnMatch, false, before, target) ==> StopsInTime(stopOnMatch, matched, after, target)
    ensures matched ==> Matches(after, target)
  {
    if matched { assert after[..|after| - 1] == before; }
  }

  /** No reply among the first k reactions names this node. */
  ghost predicate NoReplyNames(reactions: nat -> Reaction, k: nat, id: NodeID) {
    forall i: nat, p :: i < k && reactions(i).Reply? && Some(p) in reactions(i).nodes ==> p.id != id
  }

  lemma {:induction false} HeardCorrect(reactions: nat -> Reaction, k: nat, id: NodeID)
    ensures T.Distinct(Heard(reactions, k))
    ensures NoReplyNames(reactions, k, id) ==> forall p :: p in Heard(reactions, k) ==> p.id != id
  {
    if k > 0 {
      HeardCorrect(reactions, k - 1, id);
      match reactions(k - 1)
      case Reply(nodes) => AddFreshCorrect(Heard(reactions, k - 1), nodes);
      case Timeout =>
    }
  }

  lemma HeardPartCorrect(reactions: nat -> Reaction, k: nat, j: nat, id: NodeID)
    requires reactions(k).Reply? && j <= |reactions(k).nodes|
    ensures T.Distinct(HeardPart(reactions, k, j))
    ensures NoReplyNames(reactions, k + 1, id) ==> forall p :: p in HeardPart(reactions, k, j) ==> p.id != id
  {
    HeardCorrect(reactions, k, id);
    AddFreshCorrect(Heard(reactions, k), reactions(k).nodes[..j]);
    if NoReplyNames(reactions, k + 1, id) {
      forall p | p in HeardPart(reactions, k, j) ensures p.id != id {
        if p !in Heard(reactions, k) { assert Some(p) in reactions(k).nodes; }
      }
    }
  }

  // ----- the discipline that the event loop relies on

  ghost function Pending(moves: seq<Move>): int {
    if moves == [] then 0
    else
      match moves[|moves| - 1]
      case Asked(_) => Pending(moves[..|moves| - 1]) + 1
      case Took => Pending(moves[..|moves| - 1]) - 1
      case GaveUp => 0
  }

  /** Never more than alpha queries out, nobody asked twice, and replies taken only while some are due. */
  ghost predicate Disciplined(moves: seq<Move>) {
    moves != [] ==>
      var before, m := moves[..|moves| - 1], moves[|moves| - 1];
      && Disciplined(before)
      && (m.Asked? ==> Pending(before) < S.ALPHA && m !in before)
      && (m.Took? ==> Pending(before) > 0)
  }

  lemma {:induction false} PendingBounds(moves: seq<Move>)
    requires Disciplined(moves)
    ensures 0 <= Pending(moves) <= S.ALPHA
  {
    if moves != [] { PendingBounds(moves[..|moves| - 1]); }
  }

  lemma {:induction false} AskedOnce(moves: seq<Move>, i: nat, j: nat)
    requires Disciplined(moves) && i < j < |moves| && moves[i].Asked?
    ensures moves[i] != moves[j]
  {
    if j < |moves| - 1 {
      AskedOnce(moves[..|moves| - 1], i, j);
    } else {
      assert moves[i] in moves[..|moves| - 1];
    }
  }

  function RemoteOf(self: NodeID, id: NodeID): P.Remote {
    if id == self then P.LocalNode else P.RemoteNode(id)
  }

  /** The lookup as the event loop sees it after these moves. */
  ghost predicate Mirrors(self: NodeID, l: S.Lookup, moves: seq<Move>) {
    && l.pendingQueries == Pending(moves)
    && forall r :: r in l.asked <==> exists id :: Asked(id) in moves && r == RemoteOf(self, id)
  }

  /** The action of the shared system that a move of lookup l is. */
  function ActionOf(self: NodeID, l: nat, m: Move, now: nat): S.Action {
    match m
    case Asked(id) => S.Ask(l, RemoteOf(self, id), now)
    case Took => S.TakeReply(l)
    case GaveUp => S.ReplyTimeout(l)
  }

  lemma MirrorsNext(self: NodeID, l: S.Lookup, l': S.Lookup, moves: seq<Move>, m: Move)
    requires Mirrors(self, l, moves)
    requires l'.pendingQueries == match m case Asked(_) => l.pendingQueries + 1 case Took => l.pendingQueries - 1 case GaveUp => 0
    requires l'.asked == if m.Asked? then l.asked + {RemoteOf(self, m.id)} else l.asked
    ensures Mirrors(self, l', moves + [m])
  {
    assert (moves + [m])[..|moves|] == moves;
    forall r ensures r in l'.asked <==> exists id :: Asked(id) in moves + [m] && r == RemoteOf(self, id) {
      if r in l.asked {
        var id :| Asked(id) in moves && r == RemoteOf(self, id);
        assert Asked(id) in moves + [m];
      } else if m.Asked? && r == RemoteOf(self, m.id) {
        assert Asked(m.id) in moves + [m];
      }
    }
  }

  /** A disciplined lookup may take each of its moves in the shared system, as soon as a node to be asked is
      interned and a reply to be taken is there; and the system then agrees with the longer history. */
  lemma MovesAreActions(env: P.Env, s: S.System, self: NodeID, l: nat, moves: seq<Move>, m: Move, now: nat)
    requires l in s.lookups && Mirrors(self, s.lookups[l], moves) && Disciplined(moves + [m])
    requires m.Asked? && m.id != self ==> m.id in s.net.nodes
    requires m.Took? ==> S.Buffered(s, s.lookups[l].reply) > 0
    ensures var a := ActionOf(self, l, m, now);
            && S.CanAct(env, s, a) && l in S.Act(env, s, a).lookups
            && Mirrors(self, S.Act(env, s, a).lookups[l], moves + [m])
  {
    assert (moves + [m])[..|moves|] == moves;
    var a := ActionOf(self, l, m, now);
    if m.Asked? { NotAskedYet(self, s.lookups[l], moves, m.id); }
    assert S.CanAct(env, s, a);
    MirrorsNext(self, s.lookups[l], S.Act(env, s, a).lookups[l], moves, m);
  }

  lemma NotAskedYet(self: NodeID, l: S.Lookup, moves: seq<Move>, id: NodeID)
    requires Mirrors(self, l, moves) && Asked(id) !in moves
    ensures RemoteOf(self, id) !in l.asked
  {
  }

  // ----- whom a lookup in the shared system can ask

  /** Lookup l of the system has this history, and every other node that it was told of is interned. */
  ghost predicate Follows(s: S.System, l: nat, moves: seq<Move>, told: set<NodeID>) {
    && l in s.lookups && Mirrors(s.net.tab.self.id, s.lookups[l], moves)
    && forall id :: id in told ==> id in s.net.nodes && id != s.net.tab.self.id
  }

  /** The next value in the channel of a lookup, and the nodes that it names. */
  function NextReply(s: S.System, l: nat): P.Answer
    requires l in s.lookups && S.Buffered(s, s.lookups[l].reply) > 0
  {
    P.Chan(s.net, s.lookups[l].reply)[S.Received(s, s.lookups[l].reply)]
  }

  function Named(a: P.Answer): set<NodeID> {
    set n | n in a && n.Some? :: n.value
  }

  /** Nodes stay interned, and our own ID stays ours. */
  ghost predicate Keeps(s: S.System, t: S.System) {
    s.net.nodes.Keys <= t.net.nodes.Keys && t.net.tab.self == s.net.tab.self
  }

  lemma ActKeeps(env: P.Env, s: S.System, a: S.Action)
    requires S.CanAct(env, s, a)
    ensures Keeps(s, S.Act(env, s, a))
  {
    match a
    case Loop(input, now) => NodesStay(s.net, env, input, now);
    case Ask(k, remote, now) => NodesStay(s.net, env, P.Submit(S.NewQuery(s, k, remote)), now);
    case _ =>
  }

  lemma RepliesName(env: P.Env, s: S.System, l: nat)
    requires S.SysInv(env, s) && l in s.lookups && S.Buffered(s, s.lookups[l].reply) > 0
    ensures forall id :: id in Named(NextReply(s, l)) ==> id in s.net.nodes && id != s.net.tab.self.id
  {
    assert NextReply(s, l) in P.Chan(s.net, s.lookups[l].reply) && I.GoodAnswer(s.net, NextReply(s, l));
  }

  lemma StillFollows(s: S.System, t: S.System, l: nat, moves: seq<Move>, told: set<NodeID>)
    requires Keeps(s, t) && l in t.lookups && Mirrors(s.net.tab.self.id, t.lookups[l], moves)
    requires forall id :: id in told ==> id in s.net.nodes && id != s.net.tab.self.id
    ensures Follows(t, l, moves, told)
  {
  }

  /** A lookup that asks only ourselves and nodes it was told of can always go on: nodes named by replies are
      interned when the reply is taken, and stay so. */
  lemma OwnMove(env: P.Env, s: S.System, l: nat, moves: seq<Move>, told: set<NodeID>, m: Move, now: nat)
    requires S.SysInv(env, s) && Follows(s, l, moves, told) && Disciplined(moves + [m])
    requires m.Asked? ==> m.id == s.net.tab.self.id || m.id in told
    requires m.Took? ==> S.Buffered(s, s.lookups[l].reply) > 0
    ensures var a := ActionOf(s.net.tab.self.id, l, m, now);
            && S.CanAct(env, s, a)
            && Follows(S.Act(env, s, a), l, moves + [m], told + if m.Took? then Named(NextReply(s, l)) else {})
  {
    var a := ActionOf(s.net.tab.self.id, l, m, now);
    MovesAreActions(env, s, s.net.tab.self.id, l, moves, m, now);
    ActKeeps(env, s, a);
    if m.Took? { RepliesName(env, s, l); }
    StillFollows(s, S.Act(env, s, a), l, moves + [m], told + if m.Took? then Named(NextReply(s, l)) else {});
  }

  /** What everybody else does leaves the lookup and its choices alone. */
  lemma OtherAction(env: P.Env, s: S.System, l: nat, moves: seq<Move>, told: set<NodeID>, a: S.Action)
    requires Follows(s, l, moves, told) && S.CanAct(env, s, a) && (a.Loop? || a.l != l)
    ensures Follows(S.Act(env, s, a), l, moves, told)
  {
    ActKeeps(env, s, a);
    StillFollows(s, S.Act(env, s, a), l, moves, told);
  }

  lemma NodesStay(s: P.Net, env: P.Env, input: P.Input, now: nat)
    ensures s.nodes.Keys <= P.Step(env, s, input, now).nodes.Keys
    ensures P.Step(env, s, input, now).tab.self == s.tab.self
  {
    M.StepLater(env, s, input, now);
  }

  /** The nearest nodes not asked yet, as many as there may be more queries. */
  function NextAsks(entries: seq<Peer>, asked: set<NodeID>, budget: nat): seq<Move> {
    if entries == [] || budget == 0 then []
    else if entries[0].id in asked then NextAsks(entries[1..], asked, budget)
    else [Asked(entries[0].id)] + NextAsks(entries[1..], asked + {entries[0].id}, budget - 1)
  }

  /** The history once the closest nodes have been asked. */
  function AfterAsking(moves: seq<Move>, entries: seq<Peer>, asked: set<NodeID>, pending: int): seq<Move> {
    moves + NextAsks(entries, asked, if pending < S.ALPHA then S.ALPHA - pending else 0)
  }

  lemma AfterAskingStep(moves: seq<Move>, entries: seq<Peer>, i: nat, asked: set<NodeID>, pending: int)
    requires i < |entries| && pending < S.ALPHA
    ensures var id := entries[i].id;
            AfterAsking(moves, entries[i..], asked, pending)
            == AfterAsking(moves + (if id in asked then [] else [Asked(id)]), entries[i + 1..], asked + {id},
                         pending + if id in asked then 0 else 1)
  {
    var id := entries[i].id;
    assert entries[i..][1..] == entries[i + 1..];
    if id in asked { assert asked + {id} == asked && moves + [] == moves; }
  }

  predicate AllAsked(entries: seq<Peer>, n: nat, asked: set<NodeID>)
    requires n <= |entries|
  {
    forall j :: 0 <= j < n ==> entries[j].id in asked
  }

  lemma OneMoreAsked(entries: seq<Peer>, n: nat, asked: set<NodeID>)
    requires n < |entries| && AllAsked(entries, n, asked)
    ensures AllAsked(entries, n + 1, asked + {entries[n].id})
  {
  }

  // ----- the one history that a stream of reactions allows

  ghost function AskedIn(moves: seq<Move>): set<NodeID> {
    set m | m in moves && m.Asked? :: m.id
  }

  ghost function Turn(reaction: Reaction): Move {
    if reaction.Reply? then Took else GaveUp
  }

  /** The history after one more round of asking: the first entries that were not asked yet, as long as fewer
      than alpha queries are pending. */
  ghost function Asking(before: seq<Move>, entries: seq<Peer>): seq<Move> {
    AfterAsking(before, entries, AskedIn(before), Pending(before))
  }

  /** Everything done before the asking of round k, if entries(i) is the result list in round i. */
  ghost function Before(entries: nat -> seq<Peer>, reactions: nat -> Reaction, k: nat): seq<Move> {
    if k == 0 then [] else History(entries, reactions, k - 1) + [Turn(reactions(k - 1))]
  }

  /** Everything done up to the asking of round k. */
  ghost function History(entries: nat -> seq<Peer>, reactions: nat -> Reaction, k: nat): seq<Move> {
    if k == 0 then Asking([], entries(0))
    else Asking(History(entries, reactions, k - 1) + [Turn(reactions(k - 1))], entries(k))
  }

  /** In every round before this one somebody was still to answer. */
  ghost predicate Waited(entries: nat -> seq<Peer>, reactions: nat -> Reaction, k: nat) {
    k > 0 ==> Waited(entries, reactions, k - 1) && Pending(History(entries, reactions, k - 1)) > 0
  }

  lemma {:induction false} WaitedAt(entries: nat -> seq<Peer>, reactions: nat -> Reaction, k: nat, i: nat)
    requires Waited(entries, reactions, k) && i < k
    ensures Pending(History(entries, reactions, i)) > 0
  {
    if i < k - 1 { WaitedAt(entries, reactions, k - 1, i); }
  }

  lemma WaitedMore(entries: nat -> seq<Peer>, reactions: nat -> Reaction, k: nat)
    requires Waited(entries, reactions, k) && Pending(History(entries, reactions, k)) > 0
    ensures Waited(entries, reactions, k + 1)
  {
  }

  lemma NextRound(entries: nat -> seq<Peer>, reactions: nat -> Reaction, k: nat)
    ensures History(entries, reactions, k) == Asking(Before(entries, reactions, k), entries(k))
    ensures Before(entries, reactions, k + 1) == History(entries, reactions, k) + [Turn(reactions(k))]
  {
  }

  /** The result list in each round: the nearest of ourselves and the nodes heard of. */
  ghost function Ranks(self: Peer, target: Hash, reactions: nat -> Reaction): nat -> seq<Peer> {
    (k: nat) => Ranked(self, target, Heard(reactions, k))
  }

  lemma RankAt(self: Peer, target: Hash, reactions: nat -> Reaction, k: nat)
    ensures Ranks(self, target, reactions)(k) == Ranked(self, target, Heard(reactions, k))
  {
  }

  /** The reactions taken, without the asking in between. */
  ghost function Turns(moves: seq<Move>): seq<Move> {
    if moves == [] then []
    else Turns(moves[..|moves| - 1]) + if moves[|moves| - 1].Asked? then [] else [moves[|moves| - 1]]
  }

  ghost function Stream(reactions: nat -> Reaction, k: nat): seq<Move> {
    if k == 0 then [] else Stream(reactions, k - 1) + [Turn(reactions(k - 1))]
  }

  lemma {:induction false} TurnsAppend(a: seq<Move>, b: seq<Move>)
    ensures Turns(a + b) == Turns(a) + Turns(b)
  {
    if b == [] {
      assert a + b == a;
    } else {
      assert (a + b)[..|a + b| - 1] == a + b[..|b| - 1];
      TurnsAppend(a, b[..|b| - 1]);
    }
  }

  lemma {:induction false} NoTurnsInAsks(entries: seq<Peer>, asked: set<NodeID>, budget: nat)
    ensures Turns(NextAsks(entries, asked, budget)) == []
  {
    if entries != [] && budget > 0 {
      var id := entries[0].id;
      if id in asked {
        NoTurnsInAsks(entries[1..], asked, budget);
      } else {
        NoTurnsInAsks(entries[1..], asked + {id}, budget - 1);
        TurnsAppend([Asked(id)], NextAsks(entries[1..], asked + {id}, budget - 1));
        assert [Asked(id)][..0] == [];
      }
    }
  }

  lemma AskingTurns(before: seq<Move>, entries: seq<Peer>)
    ensures Turns(Asking(before, entries)) == Turns(before)
  {
    var budget := if Pending(before) < S.ALPHA then S.ALPHA - Pending(before) else 0;
    NoTurnsInAsks(entries, AskedIn(before), budget);
    TurnsAppend(before, NextAsks(entries, AskedIn(before), budget));
  }

  lemma OneTurn(moves: seq<Move>, reaction: Reaction)
    ensures Turns(moves + [Turn(reaction)]) == Turns(moves) + [Turn(reaction)]
  {
    assert (moves + [Turn(reaction)])[..|moves|] == moves;
  }

  lemma RoundTurns(before: seq<Move>, reaction: Reaction, entries: seq<Peer>)
    ensures Turns(Asking(before + [Turn(reaction)], entries)) == Turns(before) + [Turn(reaction)]
  {
    OneTurn(before, reaction);
    AskingTurns(before + [Turn(reaction)], entries);
  }

  /** Every reaction is taken, once and in order. */
  lemma {:induction false} HistoryTurns(entries: nat -> seq<Peer>, reactions: nat -> Reaction, k: nat)
    ensures Turns(History(entries, reactions, k)) == Stream(reactions, k)
  {
    if k == 0 {
      AskingTurns([], entries(0));
    } else {
      HistoryTurns(entries, reactions, k - 1);
      RoundTurns(History(entries, reactions, k - 1), reactions(k - 1), entries(k));
    }
  }

  // ----- finitely many IDs

  lemma {:induction false} BoundedSet(s: set<nat>, n: nat)
    requires forall x :: x in s ==> x < n
    ensures |s| <= n
  {
    if n > 0 {
      BoundedSet(s - {n - 1}, n - 1);
    } else {
      assert s == {};
    }
  }

  lemma IdsBounded(asked: set<NodeID>)
    ensures |asked| <= ID_SPACE
  {
    BoundedSet(asked, ID_SPACE);
  }

  // ----- distinct results

  lemma {:induction false} DistinctCount(s: seq<Peer>, p: Peer)
    requires T.Distinct(s)
    ensures multiset(s)[p] <= 1
  {
    if s != [] {
      var n := |s| - 1;
      assert s == s[..n] + [s[n]];
      DistinctCount(s[..n], p);
      if s[n] == p { assert p !in s[..n]; }
    }
  }

  lemma TwiceCount(s: seq<Peer>, i: nat, j: nat)
    requires i < j < |s| && s[i] == s[j]
    ensures multiset(s)[s[i]] >= 2
  {
    assert s == s[..j] + s[j..];
    assert s[i] in s[..j] && s[i] in s[j..];
  }

  /** Choosing from distinct nodes gives distinct nodes. */
  lemma NearestDistinct(target: Hash, s: seq<Peer>, k: nat)
    requires T.Distinct(s)
    ensures T.Distinct(Nearest(target, s, k))
  {
    var r := Nearest(target, s, k);
    NearestCorrect(target, s, k);
    forall i, j | 0 <= i < j < |r| ensures r[i].id != r[j].id {
      assert r[i] in multiset(s) && r[j] in multiset(s);
      var a :| 0 <= a < |s| && s[a] == r[i];
      var b :| 0 <= b < |s| && s[b] == r[j];
      if a == b {
        TwiceCount(r, i, j);
        DistinctCount(s, r[i]);
      }
    }
  }

  /** What pushing a new node does to the nearest nodes. */
  lemma OneMoreHeard(target: Hash, self: Peer, heard: seq<Peer>, p: Peer)
    ensures var r := Nearest(target, [self] + heard, T.BUCKET_SIZE);
            && Sorted(target, r) && |r| <= T.BUCKET_SIZE
            && Nearest(target, [self] + (heard + [p]), T.BUCKET_SIZE) == Take(Insert(target, r, p), T.BUCKET_SIZE)
  {
    assert [self] + (heard + [p]) == [self] + heard + [p];
    NearestStep(target, [self] + heard, p, T.BUCKET_SIZE);
    NearestBounded(target, [self] + heard, T.BUCKET_SIZE);
  }

  lemma ResultDistinct(target: Hash, self: Peer, heard: seq<Peer>)
    requires T.Distinct(heard) && forall p :: p in heard ==> p.id != self.id
    ensures T.Distinct(Nearest(target, [self] + heard, T.BUCKET_SIZE))
  {
    NearestDistinct(target, [self] + heard, T.BUCKET_SIZE);
  }

  // ----- the lookup

  class Lookup {
    const self: Peer
    const target: Hash
    const result: NodeList
    var asked: set<NodeID>
    var seen: set<NodeID>
    var pendingQueries: int
    ghost var moves: seq<Move>
    ghost var heard: seq<Peer>

    /** asked and pendingQueries agree with the history. */
    ghost predicate Books()
      reads this
    {
      Disciplined(moves) && pendingQueries == Pending(moves) && forall id :: id in asked <==> Asked(id) in moves
    }

    /** result is the nearest of all known nodes. */
    ghost predicate Ranking()
      reads this, result
    {
      && (forall id :: id in seen <==> Knows(heard, id))
      && result.target == target && result.entries == Ranked(self, target, heard)
    }

    ghost predicate Valid()
      reads this, result
    {
      Books() && Ranking()
    }

    constructor (self: Peer, target: Hash)
      ensures Valid() && moves == [] && heard == [] && fresh(result)
      ensures this.self == self && this.target == target
    {
      this.self, this.target := self, target;
      result := new NodeList(target);
      asked, seen, pendingQueries := {}, {}, 0;
      moves, heard := [], [];
      new;
      NearestStep(target, [], self, T.BUCKET_SIZE);
      assert [] + [self] == [self] + heard;
      result.Push(self, T.BUCKET_SIZE);
    }

    /** asked, as it can be read off the history. */
    lemma AskedFromHistory()
      requires Books()
      ensures asked == AskedIn(moves)
    {
    }

    /** Ask the alpha closest nodes that were not asked yet. */
    method AskClosest()
      requires Valid()
      modifies `asked, `pendingQueries, `moves
      ensures Valid()
      ensures 0 <= old(pendingQueries) <= 3 && 0 <= pendingQueries <= 3
      ensures moves == AfterAsking(old(moves), result.entries, old(asked), old(pendingQueries))
      ensures old(asked) <= asked && pendingQueries - old(pendingQueries) == |asked| - |old(asked)|
      ensures pendingQueries < 3 ==> forall p :: p in result.entries ==> p.id in asked
    {
      PendingBounds(moves);
      ghost var es := result.entries;
      var i := 0;
      while i < |result.entries| && pendingQueries < S.ALPHA
        invariant i <= |es| && es == result.entries
        invariant Books() && 0 <= pendingQueries <= S.ALPHA
        invariant old(asked) <= asked && pendingQueries - old(pendingQueries) == |asked| - |old(asked)|
        invariant AllAsked(es, i, asked)
        invariant AfterAsking(moves, es[i..], asked, pendingQueries) == AfterAsking(old(moves), es, old(asked), old(pendingQueries))
      {
        AfterAskingStep(moves, es, i, asked, pendingQueries);
        OneMoreAsked(es, i, asked);
        Ask(result.entries[i].id);
        i := i + 1;
      }
    }

    /** Hand over a query to a node, unless it was asked before. */
    method Ask(id: NodeID)
      requires Books() && 0 <= pendingQueries < S.ALPHA
      modifies `asked, `pendingQueries, `moves
      ensures Books() && asked == old(asked) + {id}
      ensures |asked| - |old(asked)| == pendingQueries - old(pendingQueries) == if id in old(asked) then 0 else 1
      ensures moves == old(moves) + if id in old(asked) then [] else [Asked(id)]
    {
      if id !in asked {
        assert (moves + [Asked(id)])[..|moves|] == moves;
        asked := asked + {id};
        pendingQueries := pendingQueries + 1;
        moves := moves + [Asked(id)];
      }
    }

    /** One node of a reply: kept if it is new, and a match if it is the target. */
    method Meet(n: Option<Peer>, stopOnMatch: bool) returns (matched: bool)
      requires Valid()
      modifies this, result
      ensures Valid() && moves == old(moves) && asked == old(asked) && pendingQueries == old(pendingQueries)
      ensures var added := n.Some? && !Knows(old(heard), n.value.id);
              && heard == (if added then old(heard) + [n.value] else old(heard))
              && (matched <==> added && stopOnMatch && n.value.sha == target)
    {
      if n == None || n.value.id in seen {
        return false;
      }
      var p := n.value;
      Appended(heard, p);
      OneMoreHeard(target, self, heard, p);
      seen := seen + {p.id};
      result.Push(p, T.BUCKET_SIZE);
      heard := heard + [p];
      return stopOnMatch && p.sha == target;
    }

    /** The nodes of a reply in turn; stops in the middle on a match. */
    method MeetAll(nodes: seq<Option<Peer>>, stopOnMatch: bool) returns (matched: bool, ghost j: nat)
      requires Valid()
      modifies this, result
      ensures Valid() && moves == old(moves) && asked == old(asked) && pendingQueries == old(pendingQueries)
      ensures !matched ==> heard == AddFresh(old(heard), nodes)
      ensures matched ==> stopOnMatch && Matches(heard, target) && j <= |nodes| && heard == AddFresh(old(heard), nodes[..j])
      ensures StopsInTime(stopOnMatch, false, old(heard), target) ==> StopsInTime(stopOnMatch, matched, heard, target)
    {
      for i := 0 to |nodes|
        invariant Valid() && moves == old(moves)
        invariant asked == old(asked) && pendingQueries == old(pendingQueries)
        invariant heard == AddFresh(old(heard), nodes[..i])
        invariant StopsInTime(stopOnMatch, false, old(heard), target) ==> StopsInTime(stopOnMatch, false, heard, target)
      {
        AddFreshStep(old(heard), nodes, i);
        ghost var before := heard;
        matched := Meet(nodes[i], stopOnMatch);
        StopsAfter(stopOnMatch, matched, before, nodes[i], heard, target);
        if matched {
          return true, i + 1;
        }
      }
      assert nodes[..|nodes|] == nodes;
      return false, 0;
    }

    /** A reply that did not end the lookup. */
    method CountReply()
      requires Valid() && pendingQueries > 0
      modifies this
      ensures Valid() && asked == old(asked) && heard == old(heard) && moves == old(moves) + [Took]
    {
      assert (moves + [Took])[..|moves|] == moves;
      pendingQueries := pendingQueries - 1;
      moves := moves + [Took];
    }

    /** Forget all pending requests. */
    method GiveUp()
      requires Valid()
      modifies this
      ensures Valid() && asked == old(asked) && heard == old(heard) && moves == old(moves) + [GaveUp]
    {
      assert (moves + [GaveUp])[..|moves|] == moves;
      pendingQueries := 0;
      moves := moves + [GaveUp];
    }

    /** One reply or timeout. */
    method React(reaction: Reaction, stopOnMatch: bool) returns (matched: bool, ghost j: nat)
      requires Valid() && pendingQueries > 0
      modifies this, result
      ensures Valid() && asked == old(asked)
      ensures !matched ==> heard == HeardNext(old(heard), reaction)
      ensures !matched ==> moves == old(moves) + [if reaction.Reply? then Took else GaveUp]
      ensures !matched ==> 0 <= pendingQueries < old(pendingQueries)
      ensures StopsInTime(stopOnMatch, false, old(heard), target) ==> StopsInTime(stopOnMatch, matched, heard, target)
      ensures matched ==>
                && stopOnMatch && Matches(heard, target) && reaction.Reply? && moves == old(moves)
                && j <= |reaction.nodes| && heard == AddFresh(old(heard), reaction.nodes[..j])
    {
      j := 0;
      match reaction {
        case Reply(nodes) =>
          matched, j := MeetAll(nodes, stopOnMatch);
          if !matched {
            CountReply();
          }
        case Timeout =>
          GiveUp();
          matched := false;
      }
    }

    /** Ask, and unless nobody is left to answer, wait for one reaction. */
    method Round(reaction: Reaction, stopOnMatch: bool) returns (done: bool, matched: bool, ghost j: nat)
      requires Valid()
      modifies this, result
      ensures Valid() && old(asked) <= asked && !(done && matched)
      ensures var asking := Asking(old(moves), Ranked(self, target, old(heard)));
              && (if done then Pending(asking) == 0 else Pending(asking) > 0)
              && (matched || done ==> moves == asking)
              && (!done && !matched ==> moves == asking + [Turn(reaction)])
      ensures done ==> heard == old(heard) && pendingQueries == 0 && forall p :: p in result.entries ==> p.id in asked
      ensures !done && !matched ==> heard == HeardNext(old(heard), reaction)
      ensures !done && !matched && asked == old(asked) ==> 0 <= pendingQueries < old(pendingQueries)
      ensures StopsInTime(stopOnMatch, false, old(heard), target) ==> StopsInTime(stopOnMatch, matched, heard, target)
      ensures matched ==>
                && stopOnMatch && Matches(heard, target) && reaction.Reply? && pendingQueries > 0
                && j <= |reaction.nodes| && heard == AddFresh(old(heard), reaction.nodes[..j])
    {
      AskedFromHistory();
      AskClosest();
      assert moves == Asking(old(moves), result.entries);
      if pendingQueries == 0 {
        return true, false, 0;
      }
      done := false;
      matched, j := React(reaction, stopOnMatch);
    }

    /** Stops for every stream of replies and timeouts, in the first round that leaves no query pending or
        in which a match is found.  The history is the one that the stream prescribes; the result is the
        sixteen nearest of ourselves and all nodes heard of, each of them asked unless there was a match. */
    method Run(reactions: nat -> Reaction, stopOnMatch: bool) returns (matched: bool, ghost k: nat, ghost j: nat)
      requires Valid() && moves == [] && heard == []
      modifies this, result
      ensures Valid() && moves == History(Ranks(self, target, reactions), reactions, k)
      ensures Waited(Ranks(self, target, reactions), reactions, k)
      ensures StopsInTime(stopOnMatch, matched, heard, target) && StopsInTime(stopOnMatch, false, Heard(reactions, k), target)
      ensures !matched ==> pendingQueries == 0 && heard == Heard(reactions, k)
      ensures !matched ==> forall p :: p in result.entries ==> p.id in asked
      ensures matched ==>
                && pendingQueries > 0 && stopOnMatch && Matches(heard, target) && reactions(k).Reply?
                && j <= |reactions(k).nodes| && heard == HeardPart(reactions, k, j)
    {
      ghost var ranks := Ranks(self, target, reactions);
      var round: nat := 0;
      while true
        invariant Valid() && heard == Heard(reactions, round) && moves == Before(ranks, reactions, round)
        invariant Waited(ranks, reactions, round) && StopsInTime(stopOnMatch, false, heard, target)
        decreases ID_SPACE - |asked|, pendingQueries
      {
        ghost var wasAsked := asked;
        RankAt(self, target, reactions, round);
        NextRound(ranks, reactions, round);
        var done;
        done, matched, j := Round(reactions(round), stopOnMatch);
        MoreAsked(wasAsked, asked);
        if done || matched {
          return matched, round, j;
        }
        WaitedMore(ranks, reactions, round);
        round := round + 1;
      }
    }
  }

  lemma MoreAsked(a: set<NodeID>, b: set<NodeID>)
    requires a <= b
    ensures |a| <= |b| <= ID_SPACE && (a != b ==> |a| < |b|)
  {
    IdsBounded(b);
    assert b == a + (b - a);
    if a != b {
      var x :| x in b - a;
    }
  }

  /** What a call of lookup may come to: it took the first k reactions and asked what they prescribe; then it
      had nobody left to wait for, or met the target as the last of the first j nodes of the next reply. */
  ghost predicate Outcome(self: Peer, target: Hash, stopOnMatch: bool, reactions: nat -> Reaction, entries: seq<Peer>,
                          queries: set<NodeID>, matched: bool, moves: seq<Move>, heard: seq<Peer>, k: nat, j: nat) {
    && moves == History(Ranks(self, target, reactions), reactions, k) && Waited(Ranks(self, target, reactions), reactions, k)
    && (forall id :: id in queries <==> Asked(id) in moves)
    && entries == Ranked(self, target, heard)
    && StopsInTime(stopOnMatch, matched, heard, target) && StopsInTime(stopOnMatch, false, Heard(reactions, k), target)
    && (!matched ==> Pending(moves) == 0 && heard == Heard(reactions, k))
    && (matched ==>
          && Pending(moves) > 0 && stopOnMatch && Matches(heard, target) && reactions(k).Reply?
          && j <= |reactions(k).nodes| && heard == HeardPart(reactions, k, j))
  }

  /** The contract of lookup as its callers see it: how many reactions it took, what it asked meanwhile, and
      what it returns. */
  method Perform(self: Peer, target: Hash, stopOnMatch: bool, reactions: nat -> Reaction)
    returns (entries: seq<Peer>, queries: set<NodeID>, matched: bool,
             ghost moves: seq<Move>, ghost heard: seq<Peer>, ghost k: nat, ghost j: nat)
    ensures Outcome(self, target, stopOnMatch, reactions, entries, queries, matched, moves, heard, k, j)
    ensures Disciplined(moves) && Turns(moves) == Stream(reactions, k)
    ensures Sorted(target, entries) && |entries| <= 16
    ensures !matched ==> forall p :: p in entries ==> p.id in queries
    ensures T.Distinct(heard) && (NoReplyNames(reactions, if matched then k + 1 else k, self.id) ==> T.Distinct(entries))
  {
    var l := new Lookup(self, target);
    matched, k, j := l.Run(reactions, stopOnMatch);
    entries := l.result.entries;
    queries := l.asked;
    moves, heard := l.moves, l.heard;
    HistoryTurns(Ranks(self, target, reactions), reactions, k);
    NearestCorrect(target, [self] + heard, T.BUCKET_SIZE);
    HeardCorrect(reactions, k, self.id);
    if matched { HeardPartCorrect(reactions, k, j, self.id); }
    if NoReplyNames(reactions, if matched then k + 1 else k, self.id) {
      ResultDistinct(target, self, heard);
    }
  }
}
