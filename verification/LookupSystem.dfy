/** The event loop together with any number of concurrent lookups (discovery/net.go, `lookup`): lookups
    hand queries to the loop, read replies from bounded channels, and drop a channel on a timeout.

    A lookup is reduced to what it shares with the loop: its current channel and its count of pending
    queries.  Any interleaving is a run, so the scheduler is unrestricted. */
module LookupSystem {
  import opened Slices
  import opened Protocol
  import opened Invariants
  import opened Runs
  import opened Monotone
  import opened NodesByDistance
  import opened Distance

  const ALPHA := 3

  datatype Lookup = Lookup(target: Hash, reply: nat, pendingQueries: int, asked: set<Remote>)

  /** received counts the values taken out of each channel; channels and queries are numbered. */
  datatype System = System(net: Net, lookups: map<nat, Lookup>, received: map<nat, nat>, nextChan: nat, nextQuery: nat)

  function Received(s: System, c: nat): nat {
    if c in s.received then s.received[c] else 0
  }

  /** What is in the channel: sent by the loop and not yet received. */
  function Buffered(s: System, c: nat): int {
    |Chan(s.net, c)| - Received(s, c)
  }

  datatype Action =
    | Loop(input: Input, now: nat)
    | StartLookup(l: nat, target: Hash)
    | Ask(l: nat, remote: Remote, now: nat)
    | TakeReply(l: nat)
    | ReplyTimeout(l: nat)
    | FinishLookup(l: nat)

  function NewQuery(s: System, l: nat, remote: Remote): Query
    requires l in s.lookups
  {
    Query(s.nextQuery, remote, s.lookups[l].target, s.lookups[l].reply)
  }

  /** The guards of the source: fewer than alpha pending queries before asking, and only nodes not yet
      asked; a receive needs a value in the channel. */
  predicate CanAct(env: Env, s: System, a: Action) {
    match a
    case Loop(input, _) => !input.Submit? && Enabled(s.net, input)
    case StartLookup(l, _) => l !in s.lookups
    case Ask(l, remote, _) =>
      && l in s.lookups && s.lookups[l].pendingQueries < ALPHA && remote !in s.lookups[l].asked
      && (remote.RemoteNode? ==> remote.id in s.net.nodes)
    case TakeReply(l) => l in s.lookups && Buffered(s, s.lookups[l].reply) > 0
    case ReplyTimeout(l) => l in s.lookups
    case FinishLookup(l) => l in s.lookups
  }

  function Act(env: Env, s: System, a: Action): System
    requires CanAct(env, s, a)
  {
    match a
    case Loop(input, now) => s.(net := Step(env, s.net, input, now))
    case StartLookup(l, target) =>
      s.(lookups := s.lookups[l := Lookup(target, s.nextChan, 0, {})], nextChan := s.nextChan + 1)
    case Ask(l, remote, now) =>
      var k := s.lookups[l];
      s.(net := Step(env, s.net, Submit(NewQuery(s, l, remote)), now),
         lookups := s.lookups[l := k.(pendingQueries := k.pendingQueries + 1, asked := k.asked + {remote})],
         nextQuery := s.nextQuery + 1)
    case TakeReply(l) =>
      var k := s.lookups[l];
      s.(lookups := s.lookups[l := k.(pendingQueries := k.pendingQueries - 1)],
         received := s.received[k.reply := Received(s, k.reply) + 1])
    case ReplyTimeout(l) =>
      s.(lookups := s.lookups[l := s.lookups[l].(pendingQueries := 0, reply := s.nextChan)], nextChan := s.nextChan + 1)
    case FinishLookup(l) => s.(lookups := s.lookups - {l})
  }

  function SubmittedOn(submitted: set<Query>, c: nat): set<Query> {
    set q | q in submitted && q.reply == c
  }

  /** Queries handed over on c minus replies taken from it. */
  function Owed(s: System, c: nat): int {
    |SubmittedOn(s.net.submitted, c)| - Received(s, c)
  }

  ghost predicate Numbered(s: System) {
    && (forall q :: q in s.net.submitted ==> q.serial < s.nextQuery && q.reply < s.nextChan)
    && (forall c: nat :: c in s.received ==> c < s.nextChan)
  }

  /** A lookup counts exactly what its current channel owes it, and no two lookups share a channel. */
  ghost predicate LookupsOk(s: System) {
    && (forall l :: l in s.lookups ==>
          && s.lookups[l].reply < s.nextChan
          && s.lookups[l].pendingQueries == Owed(s, s.lookups[l].reply))
    && (forall l, m :: l in s.lookups && m in s.lookups && l != m ==> s.lookups[l].reply != s.lookups[m].reply)
  }

  ghost predicate SysInv(env: Env, s: System) {
    && Inv(env, s.net, {}) && Numbered(s) && LookupsOk(s)
    && (forall c: nat :: 0 <= Owed(s, c) <= ALPHA)
    && (forall c: nat :: Received(s, c) <= |Chan(s.net, c)|)
  }

  // ----- channels owe at most what was submitted

  lemma {:induction false} SubsetSize(a: set<Query>, b: set<Query>)
    requires a <= b
    ensures |a| <= |b|
    ensures a != b ==> |a| < |b|
  {
    assert b == a + (b - a);
    if a != b {
      var q :| q in b - a;
    }
  }

  /** The buffer never holds more than is owed; an open query leaves room for its reply. */
  lemma BufferWithinOwed(env: Env, s: System, c: nat)
    requires Inv(env, s.net, {})
    ensures Buffered(s, c) <= Owed(s, c)
    ensures (exists q :: q in s.net.submitted && q !in s.net.answered && q.reply == c) ==> Buffered(s, c) < Owed(s, c)
  {
    var a, b := AnsweredOn(s.net.answered, c), SubmittedOn(s.net.submitted, c);
    assert |Chan(s.net, c)| == |a|;
    SubsetSize(a, b);
    if q :| q in s.net.submitted && q !in s.net.answered && q.reply == c {
      assert q in b && q !in a;
    }
  }

  // ----- preservation

  lemma LoopKeeps(env: Env, s: System, input: Input, now: nat)
    requires SysInv(env, s) && Hashing(env) && !input.Submit? && Enabled(s.net, input)
    ensures SysInv(env, s.(net := Step(env, s.net, input, now)))
  {
    var t := s.(net := Step(env, s.net, input, now));
    StepInv(env, s.net, input, now);
    StepLater(env, s.net, input, now);
    forall c: nat ensures 0 <= Owed(t, c) <= ALPHA && Received(t, c) <= |Chan(t.net, c)| {
      assert Owed(s, c) == Owed(t, c);
      assert Chan(s.net, c) <= Chan(t.net, c);
    }
  }

  lemma SubmittedOnAdd(submitted: set<Query>, q: Query, c: nat)
    requires q !in submitted
    ensures |SubmittedOn(submitted + {q}, c)| == |SubmittedOn(submitted, c)| + if q.reply == c then 1 else 0
  {
    if q.reply == c {
      assert SubmittedOn(submitted + {q}, c) == SubmittedOn(submitted, c) + {q};
    } else {
      assert SubmittedOn(submitted + {q}, c) == SubmittedOn(submitted, c);
    }
  }

  /** What asking does to the books. */
  predicate Asked(s: System, t: System, l: nat, q: Query)
    requires l in s.lookups
  {
    && t.lookups.Keys == s.lookups.Keys && (forall m :: m in s.lookups && m != l ==> t.lookups[m] == s.lookups[m])
    && t.lookups[l].reply == s.lookups[l].reply == q.reply
    && t.lookups[l].pendingQueries == s.lookups[l].pendingQueries + 1 <= ALPHA
    && t.net.submitted == s.net.submitted + {q} && q !in s.net.submitted && q.serial == s.nextQuery
    && t.received == s.received && t.nextChan == s.nextChan && t.nextQuery == s.nextQuery + 1
  }

  /** What asking does to the loop: one more query, and channels only grow. */
  lemma AskStep(env: Env, s: System, l: nat, remote: Remote, now: nat)
    requires SysInv(env, s) && Hashing(env) && CanAct(env, s, Ask(l, remote, now))
    ensures var t := Act(env, s, Ask(l, remote, now));
            && Inv(env, t.net, {}) && Asked(s, t, l, NewQuery(s, l, remote))
            && (forall c: nat :: Received(s, c) <= |Chan(t.net, c)|)
  {
    var q := NewQuery(s, l, remote);
    StepInv(env, s.net, Submit(q), now);
    StepLater(env, s.net, Submit(q), now);
    forall c: nat ensures Received(s, c) <= |Chan(Step(env, s.net, Submit(q), now), c)| {
      assert Chan(s.net.(submitted := s.net.submitted + {q}), c) == Chan(s.net, c);
    }
  }

  lemma AskedOwed(s: System, t: System, l: nat, q: Query)
    requires Numbered(s) && LookupsOk(s) && l in s.lookups && Asked(s, t, l, q)
    requires forall c: nat :: 0 <= Owed(s, c) <= ALPHA
    ensures Numbered(t) && LookupsOk(t)
    ensures forall c: nat :: 0 <= Owed(t, c) <= ALPHA
  {
    forall c: nat ensures Owed(t, c) == Owed(s, c) + if q.reply == c then 1 else 0 {
      SubmittedOnAdd(s.net.submitted, q, c);
    }
  }

  lemma AskedKeeps(env: Env, s: System, t: System, l: nat, q: Query)
    requires SysInv(env, s) && Inv(env, t.net, {}) && l in s.lookups && Asked(s, t, l, q)
    requires forall c: nat :: Received(s, c) <= |Chan(t.net, c)|
    ensures SysInv(env, t)
  {
    AskedOwed(s, t, l, q);
  }

  lemma AskKeeps(env: Env, s: System, l: nat, remote: Remote, now: nat)
    requires SysInv(env, s) && Hashing(env) && CanAct(env, s, Ask(l, remote, now))
    ensures SysInv(env, Act(env, s, Ask(l, remote, now)))
  {
    AskStep(env, s, l, remote, now);
    AskedKeeps(env, s, Act(env, s, Ask(l, remote, now)), l, NewQuery(s, l, remote));
  }

  lemma UnusedChannel(s: System, c: nat)
    requires Numbered(s) && c >= s.nextChan
    ensures Owed(s, c) == 0
  {
    assert SubmittedOn(s.net.submitted, c) == {};
  }

  lemma ChannelActionsKeep(env: Env, s: System, a: Action)
    requires SysInv(env, s) && CanAct(env, s, a) && !a.Loop? && !a.Ask? && !a.TakeReply?
    ensures SysInv(env, Act(env, s, a))
  {
    var t := Act(env, s, a);
    UnusedChannel(s, s.nextChan);
    forall c: nat ensures Owed(t, c) == Owed(s, c) && Received(t, c) == Received(s, c) {
    }
  }

  lemma TakeReplyKeeps(env: Env, s: System, l: nat)
    requires SysInv(env, s) && CanAct(env, s, TakeReply(l))
    ensures SysInv(env, Act(env, s, TakeReply(l)))
  {
    var r, t := s.lookups[l].reply, Act(env, s, TakeReply(l));
    BufferWithinOwed(env, s, r);
    forall c: nat ensures Owed(t, c) == Owed(s, c) - (if c == r then 1 else 0)
                          && Received(t, c) == Received(s, c) + (if c == r then 1 else 0) {
    }
    forall c: nat ensures 0 <= Owed(t, c) <= ALPHA && Received(t, c) <= |Chan(t.net, c)| {
      assert 0 <= Owed(s, c) <= ALPHA && Received(s, c) <= |Chan(s.net, c)|;
    }
  }

  lemma ActKeeps(env: Env, s: System, a: Action)
    requires SysInv(env, s) && Hashing(env) && CanAct(env, s, a)
    ensures SysInv(env, Act(env, s, a))
  {
    match a
    case Loop(input, now) => LoopKeeps(env, s, input, now);
    case Ask(l, remote, now) => AskKeeps(env, s, l, remote, now);
    case TakeReply(l) => TakeReplyKeeps(env, s, l);
    case _ => ChannelActionsKeep(env, s, a);
  }

  // ----- runs

  function Start(self: NodeID): System {
    System(Init(self), map[], map[], 0, 0)
  }

  /** The system after some actions, if each could be taken. */
  function After(env: Env, self: NodeID, actions: seq<Action>): Option<System> {
    if actions == [] then Some(Start(self))
    else
      var s := After(env, self, actions[..|actions| - 1]);
      if s.Some? && CanAct(env, s.value, actions[|actions| - 1])
      then Some(Act(env, s.value, actions[|actions| - 1]))
      else None
  }

  lemma {:induction false} AfterInv(env: Env, self: NodeID, actions: seq<Action>)
    requires Hashing(env) && After(env, self, actions).Some?
    ensures SysInv(env, After(env, self, actions).value)
  {
    if actions == [] {
      InitInv(env, self);
    } else {
      var s := After(env, self, actions[..|actions| - 1]).value;
      AfterInv(env, self, actions[..|actions| - 1]);
      ActKeeps(env, s, actions[|actions| - 1]);
    }
  }

  /** The event loop never blocks on a reply.  However lookups and loop interleave, no channel of
      capacity alpha ever holds more than alpha values, and every query still to be answered has room
      for its reply; a lookup's pending count stays within 0..alpha. */
  lemma LoopNeverBlocks(env: Env, self: NodeID, actions: seq<Action>, c: nat)
    requires Hashing(env) && After(env, self, actions).Some?
    ensures var s := After(env, self, actions).value;
            && 0 <= Buffered(s, c) <= 3
            && (forall q :: q in s.net.submitted && q !in s.net.answered && q.reply == c ==> Buffered(s, c) < 3)
            && (forall l :: l in s.lookups ==> 0 <= s.lookups[l].pendingQueries <= 3)
  {
    AfterInv(env, self, actions);
    BufferWithinOwed(env, After(env, self, actions).value, c);
  }

  /** Within one step the loop only adds to channels, so the bound after the step bounds every moment of it. */
  lemma ChannelsGrowWithinSteps(env: Env, s: Net, i: Input, now: nat, c: nat)
    ensures Chan(s, c) <= Chan(Step(env, s, i, now), c)
  {
    StepLater(env, s, i, now);
    assert Chan(if i.Submit? then s.(submitted := s.submitted + {i.q}) else s, c) == Chan(s, c);
  }
}
