/** One call of lookup as the source runs it, interleaved in any way with the event loop and with other lookups
    (discovery/net.go, `lookup`).  It is never held up, what it does is what its contract prescribes for the
    replies that the loop really sends, and the nodes it returns are distinct. */
module Interleaving {
  import opened Slices
  import opened Distance
  import opened NodesByDistance
  import opened Lookup
  import T = Table
  import P = Protocol
  import I = Invariants
  import S = LookupSystem

  /** Lookup number l of the system.  The reactions are named in advance; a run is one in which they come true. */
  datatype Call = Call(l: nat, self: Peer, target: Hash, stopOnMatch: bool, reactions: nat -> Reaction)

  /** The system, what the lookup has done so far, and how many reactions it has got. */
  datatype Joint = Joint(sys: S.System, moves: seq<Move>, round: nat)

  /** Somebody else acts, or the lookup takes its next move. */
  datatype Doing = Other(a: S.Action) | Own(now: nat)

  /** The nodes of an answer. */
  function PeersOf(a: P.Answer): seq<Option<Peer>> {
    seq(|a|, i requires 0 <= i < |a| => if a[i].Some? then Some(P.PeerOf(a[i].value)) else None)
  }

  ghost function RanksOf(c: Call): nat -> seq<Peer> {
    Ranks(c.self, c.target, c.reactions)
  }

  /** Done before the asking of this round, and when it is over. */
  ghost function Earlier(c: Call, k: nat): seq<Move> {
    Before(RanksOf(c), c.reactions, k)
  }

  ghost function Wanted(c: Call, k: nat): seq<Move> {
    History(RanksOf(c), c.reactions, k)
  }

  /** The lookup was to stop at the target, and has met it. */
  ghost predicate Found(c: Call, k: nat) {
    !StopsInTime(c.stopOnMatch, false, Heard(c.reactions, k), c.target)
  }

  ghost function NextMove(c: Call, j: Joint): Move {
    if |j.moves| < |Wanted(c, j.round)| then Wanted(c, j.round)[|j.moves|] else Turn(c.reactions(j.round))
  }

  ghost function RoundAfter(c: Call, j: Joint): nat {
    if NextMove(c, j).Asked? then j.round else j.round + 1
  }

  /** A reply is there when it is the next value in the channel; a timeout may come at any time. */
  predicate Comes(s: S.System, l: nat, r: Reaction)
    requires l in s.lookups
  {
    r.Reply? ==> S.Buffered(s, s.lookups[l].reply) > 0 && r.nodes == PeersOf(NextReply(s, l))
  }

  /** The lookup has something left to do: to ask, or to wait for the reaction that comes. */
  ghost predicate Due(c: Call, j: Joint) {
    && !Found(c, j.round) && c.l in j.sys.lookups
    && (|j.moves| >= |Wanted(c, j.round)| ==> Pending(j.moves) > 0 && Comes(j.sys, c.l, c.reactions(j.round)))
  }

  ghost function OwnAction(c: Call, j: Joint, now: nat): S.Action {
    ActionOf(c.self.id, c.l, NextMove(c, j), now)
  }

  ghost predicate CanGo(env: P.Env, c: Call, j: Joint, d: Doing) {
    match d
    case Other(a) => S.CanAct(env, j.sys, a) && (a.Loop? || a.l != c.l)
    case Own(now) => Due(c, j) && S.CanAct(env, j.sys, OwnAction(c, j, now))
  }

  ghost function Go(env: P.Env, c: Call, j: Joint, d: Doing): Joint
    requires CanGo(env, c, j, d)
  {
    match d
    case Other(a) => j.(sys := S.Act(env, j.sys, a))
    case Own(now) =>
      Joint(S.Act(env, j.sys, OwnAction(c, j, now)), j.moves + [NextMove(c, j)], RoundAfter(c, j))
  }

  /** The call begins in a system that has not got a lookup of this number. */
  ghost predicate CanBegin(s: S.System, c: Call) {
    c.l !in s.lookups && s.net.tab.self == c.self
  }

  function Begin(env: P.Env, s: S.System, c: Call): Joint
    requires CanBegin(s, c)
  {
    Joint(S.Act(env, s, S.StartLookup(c.l, c.target)), [], 0)
  }

  /** After some doings, if each could be done. */
  ghost function Gone(env: P.Env, s: S.System, c: Call, doings: seq<Doing>): Option<Joint>
    requires CanBegin(s, c)
  {
    if doings == [] then Some(Begin(env, s, c))
    else
      var j := Gone(env, s, c, doings[..|doings| - 1]);
      if j.Some? && CanGo(env, c, j.value, doings[|doings| - 1])
      then Some(Go(env, c, j.value, doings[|doings| - 1]))
      else None
  }

  // ----- the prescribed history is disciplined

  lemma {:induction false} PrefixDisciplined(moves: seq<Move>, n: nat)
    requires Disciplined(moves) && n <= |moves|
    ensures Disciplined(moves[..n])
  {
    if n < |moves| {
      PrefixDisciplined(moves[..|moves| - 1], n);
      assert moves[..|moves| - 1][..n] == moves[..n];
    } else {
      assert moves[..n] == moves;
    }
  }

  lemma NextDisciplinedMove(all: seq<Move>, moves: seq<Move>)
    requires moves <= all && |moves| < |all| && Disciplined(all)
    ensures Disciplined(moves + [all[|moves|]]) && moves + [all[|moves|]] <= all
  {
    OneMorePrefix(all, moves);
    PrefixDisciplined(all, |moves| + 1);
  }

  lemma OneMorePrefix(all: seq<Move>, moves: seq<Move>)
    requires moves <= all && |moves| < |all|
    ensures moves + [all[|moves|]] == all[..|moves| + 1] <= all
  {
  }

  lemma OneMoreMove(moves: seq<Move>, m: Move)
    requires Disciplined(moves)
    requires m.Asked? ==> Pending(moves) < S.ALPHA && m !in moves
    requires m.Took? ==> Pending(moves) > 0
    ensures Disciplined(moves + [m])
    ensures m.Asked? ==> Pending(moves + [m]) == Pending(moves) + 1
  {
    assert (moves + [m])[..|moves|] == moves;
  }

  /** Asking entries that were not asked yet, within the budget. */
  lemma {:induction false} AsksDisciplined(moves: seq<Move>, entries: seq<Peer>, asked: set<NodeID>, budget: nat)
    requires Disciplined(moves) && budget + Pending(moves) <= S.ALPHA
    requires forall id :: Asked(id) in moves ==> id in asked
    ensures Disciplined(moves + NextAsks(entries, asked, budget))
    decreases |entries|
  {
    if entries == [] || budget == 0 {
      assert moves + [] == moves;
    } else if entries[0].id in asked {
      AsksDisciplined(moves, entries[1..], asked, budget);
    } else {
      var m := Asked(entries[0].id);
      OneMoreMove(moves, m);
      AsksDisciplined(moves + [m], entries[1..], asked + {m.id}, budget - 1);
      assert moves + ([m] + NextAsks(entries[1..], asked + {m.id}, budget - 1))
          == moves + [m] + NextAsks(entries[1..], asked + {m.id}, budget - 1);
    }
  }

  lemma AskingDisciplined(before: seq<Move>, entries: seq<Peer>)
    requires Disciplined(before)
    ensures Disciplined(Asking(before, entries)) && before <= Asking(before, entries)
  {
    PendingBounds(before);
    forall id | Asked(id) in before ensures id in AskedIn(before) {
      assert Asked(id).Asked?;
    }
    AsksDisciplined(before, entries, AskedIn(before), if Pending(before) < S.ALPHA then S.ALPHA - Pending(before) else 0);
  }

  lemma RoundDisciplined(c: Call, k: nat)
    requires Disciplined(Earlier(c, k))
    ensures Disciplined(Wanted(c, k)) && Earlier(c, k) <= Wanted(c, k)
  {
    NextRound(RanksOf(c), c.reactions, k);
    AskingDisciplined(Earlier(c, k), RanksOf(c)(k));
  }

  lemma TurnDisciplined(c: Call, k: nat)
    requires Disciplined(Wanted(c, k)) && Pending(Wanted(c, k)) > 0
    ensures Disciplined(Earlier(c, k + 1))
  {
    NextRound(RanksOf(c), c.reactions, k);
    OneMoreMove(Wanted(c, k), Turn(c.reactions(k)));
  }

  lemma {:induction false} HistoryDisciplined(c: Call, k: nat)
    requires Waited(RanksOf(c), c.reactions, k)
    ensures Disciplined(Earlier(c, k)) && Disciplined(Wanted(c, k)) && Earlier(c, k) <= Wanted(c, k)
  {
    if k > 0 {
      HistoryDisciplined(c, k - 1);
      TurnDisciplined(c, k - 1);
    }
    RoundDisciplined(c, k);
  }

  /** Only entries are asked in a round. */
  lemma {:induction false} AsksEntries(entries: seq<Peer>, asked: set<NodeID>, budget: nat, m: Move)
    requires m in NextAsks(entries, asked, budget)
    ensures m.Asked? && exists p :: p in entries && p.id == m.id
  {
    if entries[0].id in asked {
      AsksEntries(entries[1..], asked, budget, m);
    } else if m != Asked(entries[0].id) {
      AsksEntries(entries[1..], asked + {entries[0].id}, budget - 1, m);
    } else {
      assert entries[0] in entries;
    }
  }

  lemma RankedKnown(self: Peer, target: Hash, heard: seq<Peer>, p: Peer)
    requires p in Ranked(self, target, heard)
    ensures p == self || p in heard
  {
    NearestCorrect(target, [self] + heard, T.BUCKET_SIZE);
    assert p in multiset(Ranked(self, target, heard));
    assert p in multiset([self] + heard);
    assert p in [self] + heard;
  }

  ghost function Told(c: Call, k: nat): set<NodeID> {
    set p | p in Heard(c.reactions, k) :: p.id
  }

  lemma AskingEntries(before: seq<Move>, entries: seq<Peer>, n: nat)
    requires |before| <= n < |Asking(before, entries)|
    ensures var m := Asking(before, entries)[n]; m.Asked? && exists p :: p in entries && p.id == m.id
  {
    var budget := if Pending(before) < S.ALPHA then S.ALPHA - Pending(before) else 0;
    AsksEntries(entries, AskedIn(before), budget, Asking(before, entries)[n]);
  }

  /** Whatever is left to do in a round is to ask ourselves or a node heard of. */
  lemma AsksTold(c: Call, k: nat, n: nat)
    requires |Earlier(c, k)| <= n < |Wanted(c, k)|
    ensures var m := Wanted(c, k)[n]; m.Asked? && (m.id == c.self.id || m.id in Told(c, k))
  {
    NextRound(RanksOf(c), c.reactions, k);
    AskingEntries(Earlier(c, k), RanksOf(c)(k), n);
    RankAt(c.self, c.target, c.reactions, k);
    var p :| p in RanksOf(c)(k) && p.id == Wanted(c, k)[n].id;
    RankedKnown(c.self, c.target, Heard(c.reactions, k), p);
  }

  // ----- what the system tells the lookup

  lemma {:induction false} AddFreshKeeps(seen: seq<Peer>, nodes: seq<Option<Peer>>, j: nat)
    requires j <= |nodes|
    ensures forall p :: p in AddFresh(seen, nodes[..j]) ==> p in AddFresh(seen, nodes)
  {
    if j < |nodes| {
      AddFreshKeeps(seen, nodes[..|nodes| - 1], j);
      assert nodes[..|nodes| - 1][..j] == nodes[..j];
    } else {
      assert nodes[..j] == nodes;
    }
  }

  lemma {:induction false} HeardGrows(reactions: nat -> Reaction, k: nat, m: nat)
    requires k <= m
    ensures forall p :: p in Heard(reactions, k) ==> p in Heard(reactions, m)
  {
    if k < m {
      HeardGrows(reactions, k, m - 1);
      if reactions(m - 1).Reply? { AddFreshCorrect(Heard(reactions, m - 1), reactions(m - 1).nodes); }
    }
  }

  lemma PeersNamed(a: P.Answer, p: Peer)
    requires Some(p) in PeersOf(a)
    ensures p.id in Named(a)
  {
    var i :| 0 <= i < |a| && PeersOf(a)[i] == Some(p);
    assert a[i] in a;
  }

  /** One reaction that came: the nodes told of are those told of before and those the reply names. */
  lemma ToldNext(s: S.System, c: Call, k: nat)
    requires c.l in s.lookups && Comes(s, c.l, c.reactions(k))
    ensures Told(c, k + 1) <= Told(c, k) + if c.reactions(k).Reply? then Named(NextReply(s, c.l)) else {}
  {
    if c.reactions(k).Reply? {
      AddFreshCorrect(Heard(c.reactions, k), c.reactions(k).nodes);
      forall p | p in Heard(c.reactions, k + 1) && p !in Heard(c.reactions, k) ensures p.id in Named(NextReply(s, c.l)) {
        PeersNamed(NextReply(s, c.l), p);
      }
    }
  }

  /** The loop never tells a lookup of ourselves. */
  lemma NotNamed(env: P.Env, s: S.System, c: Call, k: nat)
    requires S.SysInv(env, s) && c.l in s.lookups && s.net.tab.self == c.self && Comes(s, c.l, c.reactions(k))
    requires NoReplyNames(c.reactions, k, c.self.id)
    ensures NoReplyNames(c.reactions, k + 1, c.self.id)
  {
    if c.reactions(k).Reply? {
      RepliesName(env, s, c.l);
      forall p | Some(p) in c.reactions(k).nodes ensures p.id != c.self.id {
        PeersNamed(NextReply(s, c.l), p);
      }
    }
  }

  // ----- the invariant

  /** How far the lookup has come: everything before this round, and some of what is to be asked in it. */
  ghost predicate OnTrack(c: Call, moves: seq<Move>, k: nat) {
    && Earlier(c, k) <= moves <= Wanted(c, k) && Waited(RanksOf(c), c.reactions, k)
    && (k > 0 ==> !Found(c, k - 1)) && (Found(c, k) ==> moves == Earlier(c, k))
    && NoReplyNames(c.reactions, k, c.self.id)
  }

  /** The books of the system are right, and it takes the lookup for what it is. */
  ghost predicate InSystem(env: P.Env, c: Call, j: Joint) {
    && S.SysInv(env, j.sys) && j.sys.net.tab.self == c.self
    && Follows(j.sys, c.l, j.moves, Told(c, j.round))
  }

  ghost predicate JointInv(env: P.Env, c: Call, j: Joint) {
    InSystem(env, c, j) && OnTrack(c, j.moves, j.round)
  }

  lemma ToldFewer(s: S.System, l: nat, moves: seq<Move>, fewer: set<NodeID>, told: set<NodeID>)
    requires Follows(s, l, moves, told) && fewer <= told
    ensures Follows(s, l, moves, fewer)
  {
  }

  lemma BeginInv(env: P.Env, s: S.System, c: Call)
    requires I.Hashing(env) && S.SysInv(env, s) && CanBegin(s, c)
    ensures JointInv(env, c, Begin(env, s, c))
  {
    S.ActKeeps(env, s, S.StartLookup(c.l, c.target));
    HistoryDisciplined(c, 0);
  }

  /** The next query of a lookup on track is allowed, and so is the next reaction once all are out. */
  lemma NextAsk(c: Call, moves: seq<Move>, k: nat)
    requires Earlier(c, k) <= moves <= Wanted(c, k) && |moves| < |Wanted(c, k)| && Disciplined(Wanted(c, k))
    ensures var m := Wanted(c, k)[|moves|];
            && Disciplined(moves + [m]) && moves + [m] <= Wanted(c, k)
            && m.Asked? && (m.id == c.self.id || m.id in Told(c, k))
  {
    NextDisciplinedMove(Wanted(c, k), moves);
    AsksTold(c, k, |moves|);
  }

  lemma NextTurn(c: Call, moves: seq<Move>, k: nat)
    requires moves <= Wanted(c, k) && |moves| >= |Wanted(c, k)| && Disciplined(Wanted(c, k)) && Pending(moves) > 0
    ensures moves == Wanted(c, k) && moves + [Turn(c.reactions(k))] == Earlier(c, k + 1)
    ensures Disciplined(moves + [Turn(c.reactions(k))])
  {
    assert moves == Wanted(c, k);
    NextRound(RanksOf(c), c.reactions, k);
    TurnDisciplined(c, k);
  }

  lemma NextDisciplined(c: Call, j: Joint)
    requires OnTrack(c, j.moves, j.round) && Due(c, j)
    ensures var m := NextMove(c, j);
            && Disciplined(j.moves + [m])
            && (m.Asked? ==> j.moves + [m] <= Wanted(c, j.round) && (m.id == c.self.id || m.id in Told(c, j.round)))
            && (!m.Asked? ==> j.moves == Wanted(c, j.round) && j.moves + [m] == Earlier(c, j.round + 1) && Pending(j.moves) > 0
                              && m == Turn(c.reactions(j.round)) && Comes(j.sys, c.l, c.reactions(j.round)))
  {
    HistoryDisciplined(c, j.round);
    if |j.moves| < |Wanted(c, j.round)| {
      NextAsk(c, j.moves, j.round);
    } else {
      NextTurn(c, j.moves, j.round);
    }
  }

  /** A lookup that has something to do can do it at once: whom it is to ask is known to the loop. */
  lemma NeverHeldUp(env: P.Env, c: Call, j: Joint, now: nat)
    requires JointInv(env, c, j) && Due(c, j)
    ensures CanGo(env, c, j, Own(now))
  {
    NextDisciplined(c, j);
    OwnMove(env, j.sys, c.l, j.moves, Told(c, j.round), NextMove(c, j), now);
  }

  /** One more reaction: the next round. */
  lemma TurnOnTrack(env: P.Env, c: Call, j: Joint)
    requires JointInv(env, c, j) && Due(c, j) && !NextMove(c, j).Asked?
    ensures OnTrack(c, j.moves + [NextMove(c, j)], RoundAfter(c, j))
  {
    assert RoundAfter(c, j) == j.round + 1;
    NextDisciplined(c, j);
    NotNamed(env, j.sys, c, j.round);
    WaitedMore(RanksOf(c), c.reactions, j.round);
    HistoryDisciplined(c, j.round + 1);
  }

  /** One more query: the same round. */
  lemma AskOnTrack(c: Call, j: Joint)
    requires OnTrack(c, j.moves, j.round) && Due(c, j) && NextMove(c, j).Asked?
    ensures OnTrack(c, j.moves + [NextMove(c, j)], RoundAfter(c, j))
  {
    assert RoundAfter(c, j) == j.round;
    NextDisciplined(c, j);
  }

  /** The nodes told of after the next move. */
  lemma ToldAfter(env: P.Env, c: Call, j: Joint)
    requires c.l in j.sys.lookups
    requires !NextMove(c, j).Asked? ==>
               NextMove(c, j) == Turn(c.reactions(j.round)) && Comes(j.sys, c.l, c.reactions(j.round))
    ensures var m := NextMove(c, j);
            && (m.Took? ==> S.Buffered(j.sys, j.sys.lookups[c.l].reply) > 0)
            && Told(c, RoundAfter(c, j)) <= Told(c, j.round) + if m.Took? then Named(NextReply(j.sys, c.l)) else {}
  {
    if !NextMove(c, j).Asked? { ToldNext(j.sys, c, j.round); }
  }

  /** What the system makes of the next move. */
  lemma OwnFollows(env: P.Env, c: Call, j: Joint, now: nat)
    requires I.Hashing(env) && JointInv(env, c, j) && CanGo(env, c, j, Own(now))
    ensures InSystem(env, c, Go(env, c, j, Own(now)))
  {
    var m, a, told := NextMove(c, j), OwnAction(c, j, now), Told(c, j.round);
    var t := S.Act(env, j.sys, a);
    NextDisciplined(c, j);
    ToldAfter(env, c, j);
    OwnMove(env, j.sys, c.l, j.moves, told, m, now);
    S.ActKeeps(env, j.sys, a);
    ActKeeps(env, j.sys, a);
    ToldFewer(t, c.l, j.moves + [m], Told(c, RoundAfter(c, j)), told + if m.Took? then Named(NextReply(j.sys, c.l)) else {});
  }

  lemma OwnOnTrack(env: P.Env, c: Call, j: Joint)
    requires JointInv(env, c, j) && Due(c, j)
    ensures OnTrack(c, j.moves + [NextMove(c, j)], RoundAfter(c, j))
  {
    if NextMove(c, j).Asked? {
      AskOnTrack(c, j);
    } else {
      TurnOnTrack(env, c, j);
    }
  }

  lemma OwnKeeps(env: P.Env, c: Call, j: Joint, now: nat)
    requires I.Hashing(env) && JointInv(env, c, j) && CanGo(env, c, j, Own(now))
    ensures JointInv(env, c, Go(env, c, j, Own(now)))
  {
    OwnFollows(env, c, j, now);
    OwnOnTrack(env, c, j);
  }

  lemma OtherKeeps(env: P.Env, c: Call, j: Joint, a: S.Action)
    requires I.Hashing(env) && JointInv(env, c, j) && CanGo(env, c, j, Other(a))
    ensures JointInv(env, c, Go(env, c, j, Other(a)))
  {
    S.ActKeeps(env, j.sys, a);
    ActKeeps(env, j.sys, a);
    OtherAction(env, j.sys, c.l, j.moves, Told(c, j.round), a);
  }

  lemma {:induction false} GoneInv(env: P.Env, s: S.System, c: Call, doings: seq<Doing>)
    requires I.Hashing(env) && S.SysInv(env, s) && CanBegin(s, c) && Gone(env, s, c, doings).Some?
    ensures JointInv(env, c, Gone(env, s, c, doings).value)
  {
    if doings == [] {
      BeginInv(env, s, c);
    } else {
      var j, d := Gone(env, s, c, doings[..|doings| - 1]).value, doings[|doings| - 1];
      GoneInv(env, s, c, doings[..|doings| - 1]);
      match d
      case Other(a) => OtherKeeps(env, c, j, a);
      case Own(now) => OwnKeeps(env, c, j, now);
    }
  }

  // ----- naming the reactions in advance leaves none out

  /** The same call, as far as the first k reactions go. */
  ghost predicate Agree(c: Call, d: Call, k: nat) {
    && d.l == c.l && d.self == c.self && d.target == c.target && d.stopOnMatch == c.stopOnMatch
    && forall i: nat :: i < k ==> d.reactions(i) == c.reactions(i)
  }

  lemma {:induction false} HeardAgree(c: Call, d: Call, k: nat)
    requires Agree(c, d, k)
    ensures Heard(d.reactions, k) == Heard(c.reactions, k)
  {
    if k > 0 {
      HeardAgree(c, d, k - 1);
      assert d.reactions(k - 1) == c.reactions(k - 1);
    }
  }

  lemma RanksAgree(c: Call, d: Call, k: nat)
    requires Agree(c, d, k)
    ensures RanksOf(d)(k) == RanksOf(c)(k)
  {
    HeardAgree(c, d, k);
    RankAt(c.self, c.target, c.reactions, k);
    RankAt(d.self, d.target, d.reactions, k);
  }

  lemma WantedFrom(c: Call, d: Call, k: nat)
    requires Earlier(d, k) == Earlier(c, k) && RanksOf(d)(k) == RanksOf(c)(k)
    ensures Wanted(d, k) == Wanted(c, k)
  {
    NextRound(RanksOf(c), c.reactions, k);
    NextRound(RanksOf(d), d.reactions, k);
  }

  lemma EarlierFrom(c: Call, d: Call, k: nat)
    requires k > 0 ==> Wanted(d, k - 1) == Wanted(c, k - 1) && d.reactions(k - 1) == c.reactions(k - 1)
    ensures Earlier(d, k) == Earlier(c, k)
  {
  }

  lemma WantedStep(c: Call, d: Call, k: nat)
    requires Agree(c, d, k) && (k > 0 ==> Wanted(d, k - 1) == Wanted(c, k - 1))
    ensures Wanted(d, k) == Wanted(c, k)
  {
    EarlierFrom(c, d, k);
    RanksAgree(c, d, k);
    WantedFrom(c, d, k);
  }

  lemma WantedAgree(c: Call, d: Call, k: nat)
    requires Agree(c, d, k)
    ensures Wanted(d, k) == Wanted(c, k)
  {
    WantedStep(c, d, 0);
    for i := 0 to k
      invariant Wanted(d, i) == Wanted(c, i)
    {
      WantedStep(c, d, i + 1);
    }
  }

  lemma SameMove(c: Call, d: Call, j: Joint)
    requires Agree(c, d, j.round)
    ensures Found(d, j.round) == Found(c, j.round) && Wanted(d, j.round) == Wanted(c, j.round)
    ensures NextMove(c, j).Asked? || d.reactions(j.round) == c.reactions(j.round) ==> NextMove(d, j) == NextMove(c, j)
  {
    HeardAgree(c, d, j.round);
    WantedAgree(c, d, j.round);
  }

  lemma SameGo(env: P.Env, c: Call, d: Call, j: Joint, doing: Doing)
    requires CanGo(env, c, j, doing) && Agree(c, d, Go(env, c, j, doing).round)
    ensures CanGo(env, d, j, doing) && Go(env, d, j, doing) == Go(env, c, j, doing)
  {
    if doing.Own? {
      assert Agree(c, d, j.round);
      SameMove(c, d, j);
      if !NextMove(c, j).Asked? { assert d.reactions(j.round) == c.reactions(j.round); }
    }
  }

  lemma {:induction false} SameGone(env: P.Env, s: S.System, c: Call, d: Call, doings: seq<Doing>, j: Joint)
    requires CanBegin(s, c) && Gone(env, s, c, doings) == Some(j) && Agree(c, d, j.round)
    ensures CanBegin(s, d) && Gone(env, s, d, doings) == Some(j)
  {
    if doings != [] {
      var i, doing := Gone(env, s, c, doings[..|doings| - 1]).value, doings[|doings| - 1];
      assert j == Go(env, c, i, doing);
      SameGone(env, s, c, d, doings[..|doings| - 1], i);
      SameGo(env, c, d, i, doing);
    }
  }

  /** The same call, but with this reaction in round k. */
  ghost function Instead(c: Call, k: nat, r: Reaction): Call {
    c.(reactions := (i: nat) => if i == k then r else c.reactions(i))
  }

  lemma InsteadAgrees(c: Call, k: nat, r: Reaction)
    ensures Agree(c, Instead(c, k, r), k) && Instead(c, k, r).reactions(k) == r
  {
  }

  // ----- the end

  /** The lookup returns: it has met the target, or has asked everybody and nobody is left to answer. */
  ghost predicate Over(c: Call, j: Joint) {
    Found(c, j.round) || (j.moves == Wanted(c, j.round) && Pending(j.moves) == 0)
  }

  /** An outcome with a match is about the first round that brought one. */
  lemma MatchRound(c: Call, heard: seq<Peer>, k: nat, n: nat)
    requires c.reactions(k).Reply? && n <= |c.reactions(k).nodes| && heard == HeardPart(c.reactions, k, n)
    requires c.stopOnMatch && Matches(heard, c.target)
    ensures Found(c, k + 1)
  {
    AddFreshKeeps(Heard(c.reactions, k), c.reactions(k).nodes, n);
    assert heard[|heard| - 1] in Heard(c.reactions, k + 1);
  }

  lemma FoundForGood(c: Call, k: nat, m: nat)
    requires Found(c, k) && k <= m
    ensures Found(c, m)
  {
    HeardGrows(c.reactions, k, m);
  }

  /** A match is met in one round only. */
  lemma FoundOnce(c: Call, r: nat, k: nat)
    requires !Found(c, k) && Found(c, k + 1) && (r > 0 ==> !Found(c, r - 1))
    ensures if Found(c, r) then r == k + 1 else r <= k
  {
    if r <= k && Found(c, r) { FoundForGood(c, r, k); }
    if k + 1 < r { FoundForGood(c, k + 1, r - 1); }
    if k + 1 <= r { FoundForGood(c, k + 1, r); }
  }

  /** There is one first round with nobody left to answer. */
  lemma QuietOnce(c: Call, r: nat, k: nat)
    requires Waited(RanksOf(c), c.reactions, r) && Pending(Wanted(c, r)) == 0 && Waited(RanksOf(c), c.reactions, k)
    ensures k < r ==> Pending(Wanted(c, k)) > 0
    ensures k > r ==> Pending(Wanted(c, r)) > 0
  {
    if k < r { WaitedAt(RanksOf(c), c.reactions, r, k); }
    if k > r { WaitedAt(RanksOf(c), c.reactions, k, r); }
  }

  /** The round of a match, and the round without one. */
  lemma MatchEnd(c: Call, r: nat, k: nat)
    requires Waited(RanksOf(c), c.reactions, r) && (r > 0 ==> !Found(c, r - 1)) && (Found(c, r) || Pending(Wanted(c, r)) == 0)
    requires !Found(c, k) && Found(c, k + 1) && Waited(RanksOf(c), c.reactions, k) && Pending(Wanted(c, k)) > 0
    ensures r == k + 1 && Found(c, r)
  {
    FoundOnce(c, r, k);
    if !Found(c, r) { QuietOnce(c, r, k); }
  }

  lemma QuietEnd(c: Call, r: nat, k: nat)
    requires Waited(RanksOf(c), c.reactions, r) && (Found(c, r) || Pending(Wanted(c, r)) == 0)
    requires !Found(c, k) && Waited(RanksOf(c), c.reactions, k) && Pending(Wanted(c, k)) == 0
    ensures r == k
  {
    if Found(c, r) && r <= k { FoundForGood(c, r, k); }
    QuietOnce(c, k, r);
  }

  /** What an outcome says about rounds. */
  lemma OutcomeEnd(c: Call, entries: seq<Peer>, queries: set<NodeID>, matched: bool, moves: seq<Move>,
                   heard: seq<Peer>, k: nat, n: nat)
    requires Outcome(c.self, c.target, c.stopOnMatch, c.reactions, entries, queries, matched, moves, heard, k, n)
    ensures Waited(RanksOf(c), c.reactions, k) && !Found(c, k)
    ensures matched ==> Found(c, k + 1) && Pending(Wanted(c, k)) > 0
    ensures !matched ==> Pending(Wanted(c, k)) == 0
  {
    if matched { MatchRound(c, heard, k, n); }
  }

  /** Both ends are in the same round, by the same way out. */
  lemma SameRound(c: Call, r: nat, matched: bool, k: nat)
    requires Waited(RanksOf(c), c.reactions, r) && (r > 0 ==> !Found(c, r - 1)) && (Found(c, r) || Pending(Wanted(c, r)) == 0)
    requires Waited(RanksOf(c), c.reactions, k) && !Found(c, k)
    requires if matched then Found(c, k + 1) && Pending(Wanted(c, k)) > 0 else Pending(Wanted(c, k)) == 0
    ensures if matched then Found(c, r) && r == k + 1 else !Found(c, r) && r == k
  {
    if matched {
      MatchEnd(c, r, k);
    } else {
      QuietEnd(c, r, k);
    }
  }

  lemma SameMoves(c: Call, j: Joint, matched: bool, k: nat)
    requires OnTrack(c, j.moves, j.round) && Over(c, j) && (matched <==> Found(c, j.round))
    requires j.round == (if matched then k + 1 else k) && (matched ==> c.reactions(k).Reply?)
    ensures j.moves == if matched then Wanted(c, k) + [Took] else Wanted(c, k)
  {
    NextRound(RanksOf(c), c.reactions, k);
  }

  /** A system that has run, and then one call of lookup with whatever went on around it. */
  ghost predicate Reaches(env: P.Env, self: NodeID, actions: seq<S.Action>, c: Call, doings: seq<Doing>, j: Joint) {
    && S.After(env, self, actions).Some? && CanBegin(S.After(env, self, actions).value, c)
    && Gone(env, S.After(env, self, actions).value, c, doings) == Some(j)
  }

  lemma ReachesInv(env: P.Env, self: NodeID, actions: seq<S.Action>, c: Call, doings: seq<Doing>, j: Joint)
    requires I.Hashing(env) && Reaches(env, self, actions, c, doings, j)
    ensures JointInv(env, c, j)
  {
    S.AfterInv(env, self, actions);
    GoneInv(env, S.After(env, self, actions).value, c, doings);
  }

  /** Whatever comes, a reply or a timeout, a lookup that waits takes it: some run has the same past and goes on
      with just this reaction. */
  lemma TakesWhatComes(env: P.Env, self: NodeID, actions: seq<S.Action>, c: Call, doings: seq<Doing>, j: Joint,
                       r: Reaction, now: nat)
    requires I.Hashing(env) && Reaches(env, self, actions, c, doings, j)
    requires !Over(c, j) && j.moves == Wanted(c, j.round) && c.l in j.sys.lookups && Comes(j.sys, c.l, r)
    ensures var d := Instead(c, j.round, r);
            && Reaches(env, self, actions, d, doings, j) && NextMove(d, j) == Turn(r) && CanGo(env, d, j, Own(now))
  {
    var d := Instead(c, j.round, r);
    InsteadAgrees(c, j.round, r);
    SameGone(env, S.After(env, self, actions).value, c, d, doings, j);
    SameMove(c, d, j);
    ReachesInv(env, self, actions, d, doings, j);
    StillPending(d, j);
    NeverHeldUp(env, d, j, now);
  }

  lemma StillPending(c: Call, j: Joint)
    requires OnTrack(c, j.moves, j.round) && j.moves == Wanted(c, j.round) && !Over(c, j)
    ensures Pending(j.moves) > 0
  {
    HistoryDisciplined(c, j.round);
    PendingBounds(j.moves);
  }

  lemma OutcomeDistinct(c: Call, entries: seq<Peer>, queries: set<NodeID>, matched: bool, moves: seq<Move>,
                        heard: seq<Peer>, k: nat, n: nat)
    requires Outcome(c.self, c.target, c.stopOnMatch, c.reactions, entries, queries, matched, moves, heard, k, n)
    requires NoReplyNames(c.reactions, if matched then k + 1 else k, c.self.id)
    ensures T.Distinct(entries)
  {
    HeardCorrect(c.reactions, k, c.self.id);
    if matched { HeardPartCorrect(c.reactions, k, n, c.self.id); }
    ResultDistinct(c.target, c.self, heard);
  }

  /** Whatever happens around it, a call of lookup that has come to its end has done, from its first query to its
      last, just what the contract of Perform prescribes for the replies and timeouts that it got; and the nodes
      it returns have different IDs. */
  lemma LookupAmongOthers(env: P.Env, self: NodeID, actions: seq<S.Action>, c: Call, doings: seq<Doing>, j: Joint,
                          entries: seq<Peer>, queries: set<NodeID>, matched: bool, moves: seq<Move>,
                          heard: seq<Peer>, k: nat, n: nat)
    requires I.Hashing(env) && Reaches(env, self, actions, c, doings, j) && Over(c, j)
    requires Outcome(c.self, c.target, c.stopOnMatch, c.reactions, entries, queries, matched, moves, heard, k, n)
    ensures j.round == (if matched then k + 1 else k) && j.moves == (if matched then moves + [Took] else moves)
    ensures c.l in j.sys.lookups
    ensures forall r :: r in j.sys.lookups[c.l].asked <==> exists id :: id in queries && r == RemoteOf(c.self.id, id)
    ensures T.Distinct(entries)
  {
    ReachesInv(env, self, actions, c, doings, j);
    OutcomeEnd(c, entries, queries, matched, moves, heard, k, n);
    SameRound(c, j.round, matched, k);
    SameMoves(c, j, matched, k);
    OutcomeDistinct(c, entries, queries, matched, moves, heard, k, n);
  }
}
