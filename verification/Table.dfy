/** The routing table of discovery/table.go as a value, with one function per operation and the properties
    of each; module RoutingTable changes slices in place the way the source does and is proved against it.

    The table reads only the ID and the hash of a node, which never change, so a slot holds a `Peer`. */
module Table {
  import opened Slices
  import opened Distance
  import opened NodesByDistance

  const BUCKET_SIZE := 16

  datatype BucketV = BucketV(entries: seq<Peer>, replacements: seq<Peer>)

  datatype TableV = TableV(self: Peer, buckets: seq<BucketV>)

  /** The first slot with this ID, or the length. */
  function IndexOf(s: seq<Peer>, id: NodeID): (i: nat)
    ensures i <= |s|
    ensures i < |s| ==> s[i].id == id
    ensures forall j :: 0 <= j < i ==> s[j].id != id
  {
    if s == [] || s[0].id == id then 0 else 1 + IndexOf(s[1..], id)
  }

  predicate HasId(s: seq<Peer>, id: NodeID) {
    exists i :: 0 <= i < |s| && s[i].id == id
  }

  function RemoveId(s: seq<Peer>, id: NodeID): (r: seq<Peer>)
    ensures |r| <= |s|
  {
    if s == [] then []
    else if s[0].id == id then RemoveId(s[1..], id)
    else [s[0]] + RemoveId(s[1..], id)
  }

  // ----- operations on one bucket

  /** add: move to the front, or insert in front, or remember as a replacement. */
  function BucketAdd(b: BucketV, p: Peer): BucketV {
    var i := IndexOf(b.entries, p.id);
    if i < |b.entries| then b.(entries := [p] + Without(b.entries, i))
    else if |b.entries| < BUCKET_SIZE then b.(entries := [p] + b.entries)
    else b.(replacements := TakeLast(b.replacements + [p], BUCKET_SIZE))
  }

  /** The entry that must prove itself because add found the bucket full. */
  function Challenged(b: BucketV, p: Peer): Option<Peer> {
    if IndexOf(b.entries, p.id) == |b.entries| >= BUCKET_SIZE then Some(b.entries[|b.entries| - 1]) else None
  }

  function BucketStuff(b: BucketV, p: Peer): BucketV {
    if IndexOf(b.entries, p.id) == |b.entries| < BUCKET_SIZE then b.(entries := b.entries + [p]) else b
  }

  function BucketDelete(b: BucketV, id: NodeID): BucketV {
    var i := IndexOf(b.entries, id);
    if i < |b.entries| then b.(entries := Without(b.entries, i)) else b
  }

  /** deleteReplace: drop every slot with the ID, then promote the newest replacement. */
  function BucketDeleteReplace(b: BucketV, id: NodeID): BucketV {
    var kept, r := RemoveId(b.entries, id), b.replacements;
    if |kept| < BUCKET_SIZE && r != [] then BucketV([r[|r| - 1]] + kept, r[..|r| - 1]) else b.(entries := kept)
  }

  // ----- operations on the table

  /** The source indexes its bucket array with logdist and panics outside of it. */
  predicate InRange(t: TableV, p: Peer) {
    LogDist(t.self.sha, p.sha) < |t.buckets|
  }

  function BucketOf(t: TableV, p: Peer): BucketV
    requires InRange(t, p)
  {
    t.buckets[LogDist(t.self.sha, p.sha)]
  }

  function SetBucket(t: TableV, p: Peer, b: BucketV): (r: TableV)
    requires InRange(t, p)
    ensures r.self == t.self && |r.buckets| == |t.buckets|
  {
    t.(buckets := t.buckets[LogDist(t.self.sha, p.sha) := b])
  }

  function Add(t: TableV, p: Peer): (r: TableV)
    requires p.id != t.self.id ==> InRange(t, p)
    ensures r.self == t.self && |r.buckets| == |t.buckets|
  {
    if p.id == t.self.id then t else SetBucket(t, p, BucketAdd(BucketOf(t, p), p))
  }

  function AddChallenges(t: TableV, p: Peer): Option<Peer>
    requires p.id != t.self.id ==> InRange(t, p)
  {
    if p.id == t.self.id then None else Challenged(BucketOf(t, p), p)
  }

  function Stuff(t: TableV, ps: seq<Peer>): (r: TableV)
    requires forall i :: 0 <= i < |ps| ==> ps[i].id != t.self.id ==> InRange(t, ps[i])
    ensures r.self == t.self && |r.buckets| == |t.buckets|
  {
    if ps == [] then t
    else
      var u := Stuff(t, ps[..|ps| - 1]);
      var p := ps[|ps| - 1];
      assert p.id != t.self.id ==> InRange(t, p);
      if p.id == t.self.id then u else SetBucket(u, p, BucketStuff(BucketOf(u, p), p))
  }

  function Delete(t: TableV, p: Peer): (r: TableV)
    requires InRange(t, p)
    ensures r.self == t.self && |r.buckets| == |t.buckets|
  {
    SetBucket(t, p, BucketDelete(BucketOf(t, p), p.id))
  }

  function DeleteReplace(t: TableV, p: Peer): (r: TableV)
    requires InRange(t, p)
    ensures r.self == t.self && |r.buckets| == |t.buckets|
  {
    SetBucket(t, p, BucketDeleteReplace(BucketOf(t, p), p.id))
  }

  function AllEntries(bs: seq<BucketV>): seq<Peer> {
    if bs == [] then [] else AllEntries(bs[..|bs| - 1]) + bs[|bs| - 1].entries
  }

  /** closest: the nresults nearest of all entries, bucket by bucket. */
  function Closest(t: TableV, target: Hash, nresults: nat): seq<Peer> {
    Nearest(target, AllEntries(t.buckets), nresults)
  }

  // ----- what every operation keeps

  /** Within capacity, never self, and every peer in the bucket of its distance. */
  ghost predicate BucketOk(t: TableV, i: nat)
    requires i < |t.buckets|
  {
    var b := t.buckets[i];
    && |b.entries| <= BUCKET_SIZE && |b.replacements| <= BUCKET_SIZE
    && (forall p :: p in b.entries || p in b.replacements ==> p.id != t.self.id && LogDist(t.self.sha, p.sha) == i)
  }

  ghost predicate TableOk(t: TableV) {
    forall i :: 0 <= i < |t.buckets| ==> BucketOk(t, i)
  }

  ghost predicate Distinct(s: seq<Peer>) {
    forall i, j :: 0 <= i < j < |s| ==> s[i].id != s[j].id
  }

  lemma {:induction false} RemoveIdKeeps(s: seq<Peer>, id: NodeID)
    ensures forall p :: p in RemoveId(s, id) <==> p in s && p.id != id
    ensures Distinct(s) ==> Distinct(RemoveId(s, id))
  {
    if s != [] { RemoveIdKeeps(s[1..], id); }
  }

  /** Only p and peers of the old bucket b are in the new bucket c, which is within capacity. */
  ghost predicate GrownFrom(b: BucketV, c: BucketV, p: Peer) {
    && |c.entries| <= BUCKET_SIZE && |c.replacements| <= BUCKET_SIZE
    && (forall q :: q in c.entries || q in c.replacements ==> q == p || q in b.entries || q in b.replacements)
  }

  lemma SetBucketKeepsOk(t: TableV, p: Peer, c: BucketV)
    requires TableOk(t) && InRange(t, p) && GrownFrom(BucketOf(t, p), c, p)
    requires p.id == t.self.id ==> p !in c.entries && p !in c.replacements
    ensures TableOk(SetBucket(t, p, c))
  {
    var u := SetBucket(t, p, c);
    forall i | 0 <= i < |u.buckets| ensures BucketOk(u, i) {
      assert BucketOk(t, i);
    }
  }

  lemma AddKeepsOk(t: TableV, p: Peer)
    requires TableOk(t) && (p.id != t.self.id ==> InRange(t, p))
    ensures TableOk(Add(t, p))
  {
    if p.id != t.self.id {
      assert BucketOk(t, LogDist(t.self.sha, p.sha));
      SetBucketKeepsOk(t, p, BucketAdd(BucketOf(t, p), p));
    }
  }

  lemma BucketStuffKeepsOk(t: TableV, p: Peer)
    requires TableOk(t) && InRange(t, p) && p.id != t.self.id
    ensures TableOk(SetBucket(t, p, BucketStuff(BucketOf(t, p), p)))
  {
    assert BucketOk(t, LogDist(t.self.sha, p.sha));
    SetBucketKeepsOk(t, p, BucketStuff(BucketOf(t, p), p));
  }

  lemma {:induction false} StuffKeepsOk(t: TableV, ps: seq<Peer>)
    requires TableOk(t) && forall i :: 0 <= i < |ps| ==> ps[i].id != t.self.id ==> InRange(t, ps[i])
    ensures TableOk(Stuff(t, ps))
  {
    if ps != [] {
      var u, p := Stuff(t, ps[..|ps| - 1]), ps[|ps| - 1];
      StuffKeepsOk(t, ps[..|ps| - 1]);
      if p.id != t.self.id {
        assert InRange(t, p);
        BucketStuffKeepsOk(u, p);
      }
    }
  }

  lemma DeleteKeepsOk(t: TableV, p: Peer)
    requires TableOk(t) && InRange(t, p)
    ensures TableOk(Delete(t, p))
  {
    var k := LogDist(t.self.sha, p.sha);
    assert BucketOk(t, k);
    SetBucketKeepsOk(t, p, BucketDelete(BucketOf(t, p), p.id));
  }

  lemma DeleteReplaceKeepsOk(t: TableV, p: Peer)
    requires TableOk(t) && InRange(t, p)
    ensures TableOk(DeleteReplace(t, p))
  {
    assert BucketOk(t, LogDist(t.self.sha, p.sha));
    RemoveIdKeeps(BucketOf(t, p).entries, p.id);
    SetBucketKeepsOk(t, p, BucketDeleteReplace(BucketOf(t, p), p.id));
  }

  // ----- what is stored

  ghost predicate Stores(t: TableV, p: Peer) {
    exists i :: 0 <= i < |t.buckets| && (p in t.buckets[i].entries || p in t.buckets[i].replacements)
  }

  lemma SetBucketStores(t: TableV, p: Peer, c: BucketV, q: Peer)
    requires InRange(t, p) && Stores(SetBucket(t, p, c), q)
    ensures Stores(t, q) || q in c.entries || q in c.replacements
    ensures (q in BucketOf(t, p).entries || q in BucketOf(t, p).replacements) ==> Stores(t, q)
  {
    var u := SetBucket(t, p, c);
    var i :| 0 <= i < |u.buckets| && (q in u.buckets[i].entries || q in u.buckets[i].replacements);
    if i != LogDist(t.self.sha, p.sha) { assert u.buckets[i] == t.buckets[i]; }
  }

  /** No operation invents a node. */
  lemma AddStores(t: TableV, p: Peer, q: Peer)
    requires (p.id != t.self.id ==> InRange(t, p)) && Stores(Add(t, p), q)
    ensures q == p || Stores(t, q)
  {
    if p.id != t.self.id {
      SetBucketStores(t, p, BucketAdd(BucketOf(t, p), p), q);
    }
  }

  lemma DeleteStores(t: TableV, p: Peer, q: Peer)
    requires InRange(t, p)
    requires Stores(Delete(t, p), q) || Stores(DeleteReplace(t, p), q)
    ensures Stores(t, q)
  {
    RemoveIdKeeps(BucketOf(t, p).entries, p.id);
    if Stores(Delete(t, p), q) {
      SetBucketStores(t, p, BucketDelete(BucketOf(t, p), p.id), q);
    } else {
      SetBucketStores(t, p, BucketDeleteReplace(BucketOf(t, p), p.id), q);
    }
  }

  lemma ChallengedStored(t: TableV, p: Peer)
    requires (p.id != t.self.id ==> InRange(t, p)) && AddChallenges(t, p).Some?
    ensures Stores(t, AddChallenges(t, p).value)
  {
    var last := AddChallenges(t, p).value;
    assert last in BucketOf(t, p).entries;
  }

  lemma ChallengedOther(b: BucketV, p: Peer)
    requires Challenged(b, p).Some?
    ensures Challenged(b, p).value.id != p.id
  {
  }

  lemma {:induction false} AllEntriesStored(bs: seq<BucketV>, p: Peer)
    requires p in AllEntries(bs)
    ensures exists i :: 0 <= i < |bs| && p in bs[i].entries
  {
    if p !in bs[|bs| - 1].entries {
      AllEntriesStored(bs[..|bs| - 1], p);
      var i :| 0 <= i < |bs| - 1 && p in bs[..|bs| - 1][i].entries;
      assert p in bs[i].entries;
    }
  }

  lemma ClosestStored(t: TableV, target: Hash, k: nat, p: Peer)
    requires p in Closest(t, target, k)
    ensures Stores(t, p)
  {
    NearestCorrect(target, AllEntries(t.buckets), k);
    assert p in multiset(Closest(t, target, k));
    AllEntriesStored(t.buckets, p);
  }

  // ----- distinct slots

  lemma AddKeepsDistinct(b: BucketV, p: Peer)
    requires Distinct(b.entries)
    ensures Distinct(BucketAdd(b, p).entries)
  {
  }

  lemma StuffAndDeleteKeepDistinct(b: BucketV, p: Peer, id: NodeID)
    requires Distinct(b.entries)
    ensures Distinct(BucketStuff(b, p).entries)
    ensures Distinct(BucketDelete(b, id).entries)
  {
  }

  /** The replacement that deleteReplace would promote is not already in a slot. */
  predicate FreshPromotion(b: BucketV, id: NodeID) {
    var kept, r := RemoveId(b.entries, id), b.replacements;
    |kept| < BUCKET_SIZE && r != [] ==> !HasId(kept, r[|r| - 1].id)
  }

  /** deleteReplace does not look whether the promoted node already has a slot: slots stay
      distinct exactly when it has none. */
  lemma DeleteReplaceDistinctIff(b: BucketV, id: NodeID)
    requires Distinct(b.entries)
    ensures Distinct(BucketDeleteReplace(b, id).entries) <==> FreshPromotion(b, id)
  {
    RemoveIdKeeps(b.entries, id);
    var kept, r := RemoveId(b.entries, id), b.replacements;
    if |kept| < BUCKET_SIZE && r != [] && HasId(kept, r[|r| - 1].id) {
      var i :| 0 <= i < |kept| && kept[i].id == r[|r| - 1].id;
      var e := BucketDeleteReplace(b, id).entries;
      assert e[0].id == e[i + 1].id;
    }
  }

  /** The failing case is reachable from every full bucket: a newcomer is queued as a replacement,
      later gets a slot of its own, and stays queued; the next deleteReplace gives it a second slot. */
  lemma QueuedTwiceGetsTwoSlots(b: BucketV, x: Peer, a: Peer, c: Peer)
    requires |b.entries| == BUCKET_SIZE && Distinct(b.entries) && !HasId(b.entries, x.id)
    requires a in b.entries && c in b.entries && a != c
    ensures var b1 := BucketAdd(BucketDelete(BucketAdd(b, x), a.id), x);
            && Distinct(b1.entries)
            && !Distinct(BucketDeleteReplace(b1, c.id).entries)
  {
    var b0 := BucketDelete(BucketAdd(b, x), a.id);
    QueuedThenAdded(b, x, a, c);
    SecondSlot(b0, x, c);
  }

  /** The first half: x is still queued when a slot becomes free. */
  lemma QueuedThenAdded(b: BucketV, x: Peer, a: Peer, c: Peer)
    requires |b.entries| == BUCKET_SIZE && Distinct(b.entries) && !HasId(b.entries, x.id)
    requires a in b.entries && c in b.entries && a != c
    ensures var b0 := BucketDelete(BucketAdd(b, x), a.id);
            && |b0.entries| == BUCKET_SIZE - 1 && Distinct(b0.entries) && !HasId(b0.entries, x.id) && c in b0.entries
            && b0.replacements != [] && b0.replacements[|b0.replacements| - 1] == x
  {
    var q := TakeLast(b.replacements + [x], BUCKET_SIZE);
    assert BucketAdd(b, x) == b.(replacements := q);
    assert q[|q| - 1] == x;
    var i := IndexOf(b.entries, a.id);
    assert i < |b.entries| && b.entries[i] == a;
    var k :| 0 <= k < |b.entries| && b.entries[k] == c;
    var w := Without(b.entries, i);
    assert w[if k < i then k else k - 1] == c;
  }

  /** The second half: with x queued and in a slot, retiring c gives x another one. */
  lemma SecondSlot(b0: BucketV, x: Peer, c: Peer)
    requires |b0.entries| == BUCKET_SIZE - 1 && Distinct(b0.entries) && !HasId(b0.entries, x.id) && c in b0.entries
    requires b0.replacements != [] && b0.replacements[|b0.replacements| - 1] == x
    ensures var b1 := BucketAdd(b0, x); Distinct(b1.entries) && !Distinct(BucketDeleteReplace(b1, c.id).entries)
  {
    var b1 := BucketAdd(b0, x);
    assert b1 == b0.(entries := [x] + b0.entries);
    AddKeepsDistinct(b0, x);
    var k :| 0 <= k < |b0.entries| && b0.entries[k] == c;
    assert b1.entries[k + 1] == c && b1.entries[0] == x;
    RemoveIdKeeps(b1.entries, c.id);
    RemoveIdDrops(b1.entries, c.id);
    var kept := RemoveId(b1.entries, c.id);
    assert x in kept;
    var j :| 0 <= j < |kept| && kept[j] == x;
    assert HasId(kept, x.id);
    DeleteReplaceDistinctIff(b1, c.id);
  }

  lemma {:induction false} RemoveIdDrops(s: seq<Peer>, id: NodeID)
    requires HasId(s, id)
    ensures |RemoveId(s, id)| < |s|
  {
    if s[0].id != id {
      var i :| 0 <= i < |s| && s[i].id == id;
      assert s[1..][i - 1].id == id;
      RemoveIdDrops(s[1..], id);
    }
  }

  // ----- most recently touched first

  datatype BucketOp = Touch(p: Peer) | Drop(id: NodeID) | Retire(id: NodeID)

  /** A bucket with the time at which each node last got or renewed its slot. */
  datatype Clocked = Clocked(b: BucketV, touched: map<NodeID, nat>, now: nat)

  function Apply(c: Clocked, op: BucketOp): Clocked {
    match op
    case Touch(p) => Clocked(BucketAdd(c.b, p), c.touched[p.id := c.now], c.now + 1)
    case Drop(id) => Clocked(BucketDelete(c.b, id), c.touched, c.now + 1)
    case Retire(id) =>
      var kept, r := RemoveId(c.b.entries, id), c.b.replacements;
      var touched := if |kept| < BUCKET_SIZE && r != [] then c.touched[r[|r| - 1].id := c.now] else c.touched;
      Clocked(BucketDeleteReplace(c.b, id), touched, c.now + 1)
  }

  function Replay(ops: seq<BucketOp>): Clocked {
    Fold(Apply, Clocked(BucketV([], []), map[], 0), ops)
  }

  /** Every deleteReplace of the run promoted a node without a slot. */
  predicate FreshRun(ops: seq<BucketOp>) {
    ops != [] ==>
      && FreshRun(ops[..|ops| - 1])
      && var op := ops[|ops| - 1]; op.Retire? ==> FreshPromotion(Replay(ops[..|ops| - 1]).b, op.id)
  }

  ghost predicate MostRecentFirst(s: seq<Peer>, touched: map<NodeID, nat>, now: nat) {
    && (forall i :: 0 <= i < |s| ==> s[i].id in touched && touched[s[i].id] < now)
    && (forall i, j :: 0 <= i < j < |s| ==> touched[s[i].id] > touched[s[j].id])
  }

  lemma {:induction false} RemoveIdKeepsOrder(s: seq<Peer>, id: NodeID, touched: map<NodeID, nat>, now: nat)
    requires MostRecentFirst(s, touched, now)
    ensures MostRecentFirst(RemoveId(s, id), touched, now)
  {
    RemoveIdKeeps(s, id);
    if s != [] {
      RemoveIdKeepsOrder(s[1..], id, touched, now);
      RemoveIdKeeps(s[1..], id);
      var r := RemoveId(s[1..], id);
      forall j | 0 <= j < |r| ensures touched[s[0].id] > touched[r[j].id] {
        assert r[j] in r;
      }
    }
  }

  /** A touch elsewhere does not disturb the order of nodes that do not include p. */
  lemma TouchInFront(s: seq<Peer>, p: Peer, touched: map<NodeID, nat>, now: nat)
    requires MostRecentFirst(s, touched, now) && !HasId(s, p.id)
    ensures MostRecentFirst(s, touched[p.id := now], now + 1)
    ensures MostRecentFirst([p] + s, touched[p.id := now], now + 1)
  {
  }

  lemma WithoutKeepsOrder(s: seq<Peer>, i: nat, touched: map<NodeID, nat>, now: nat)
    requires MostRecentFirst(s, touched, now) && i < |s|
    ensures MostRecentFirst(Without(s, i), touched, now)
    ensures !HasId(Without(s, i), s[i].id)
  {
  }

  lemma TouchKeepsOrder(b: BucketV, p: Peer, touched: map<NodeID, nat>, now: nat)
    requires MostRecentFirst(b.entries, touched, now)
    ensures MostRecentFirst(BucketAdd(b, p).entries, touched[p.id := now], now + 1)
  {
    var i := IndexOf(b.entries, p.id);
    if i < |b.entries| {
      WithoutKeepsOrder(b.entries, i, touched, now);
      TouchInFront(Without(b.entries, i), p, touched, now);
    } else {
      TouchInFront(b.entries, p, touched, now);
    }
  }

  lemma RetireKeepsOrder(c: Clocked, id: NodeID)
    requires MostRecentFirst(c.b.entries, c.touched, c.now) && FreshPromotion(c.b, id)
    ensures var d := Apply(c, Retire(id)); MostRecentFirst(d.b.entries, d.touched, d.now)
  {
    RemoveIdKeepsOrder(c.b.entries, id, c.touched, c.now);
    var kept, r := RemoveId(c.b.entries, id), c.b.replacements;
    if |kept| < BUCKET_SIZE && r != [] { TouchInFront(kept, r[|r| - 1], c.touched, c.now); }
  }

  lemma ReplayStep(ops: seq<BucketOp>, op: BucketOp)
    ensures Replay(ops + [op]) == Apply(Replay(ops), op)
    ensures FreshRun(ops + [op]) <==> FreshRun(ops) && (op.Retire? ==> FreshPromotion(Replay(ops).b, op.id))
  {
    FoldSnoc(Apply, Clocked(BucketV([], []), map[], 0), ops, op);
    assert (ops + [op])[..|ops|] == ops;
  }

  lemma ReplayLast(ops: seq<BucketOp>)
    requires ops != []
    ensures Replay(ops) == Apply(Replay(ops[..|ops| - 1]), ops[|ops| - 1])
  {
  }

  ghost predicate InOrder(c: Clocked) {
    MostRecentFirst(c.b.entries, c.touched, c.now)
  }

  lemma ApplyKeepsOrder(c: Clocked, op: BucketOp)
    requires InOrder(c) && (op.Retire? ==> FreshPromotion(c.b, op.id))
    ensures InOrder(Apply(c, op))
  {
    match op
    case Touch(p) => TouchKeepsOrder(c.b, p, c.touched, c.now);
    case Drop(id) =>
      var i := IndexOf(c.b.entries, id);
      if i < |c.b.entries| { WithoutKeepsOrder(c.b.entries, i, c.touched, c.now); }
    case Retire(id) => RetireKeepsOrder(c, id);
  }

  lemma {:induction false} FreshRunInOrder(ops: seq<BucketOp>)
    requires FreshRun(ops)
    ensures InOrder(Replay(ops))
  {
    if ops != [] {
      FreshRunInOrder(ops[..|ops| - 1]);
      ReplayLast(ops);
      ApplyKeepsOrder(Replay(ops[..|ops| - 1]), ops[|ops| - 1]);
    }
  }

  lemma {:induction false} FreshPrefix(ops: seq<BucketOp>, k: nat)
    requires FreshRun(ops) && k <= |ops|
    ensures FreshRun(ops[..k])
  {
    if k < |ops| {
      FreshPrefix(ops[..|ops| - 1], k);
      assert ops[..|ops| - 1][..k] == ops[..k];
    } else {
      assert ops[..k] == ops;
    }
  }

  /** Nodes in order of their last touch have one slot each. */
  lemma InOrderIsDistinct(c: Clocked)
    requires InOrder(c)
    ensures Distinct(c.b.entries)
  {
  }

  ghost predicate AlwaysInOrder(ops: seq<BucketOp>) {
    forall k: nat :: k <= |ops| ==> InOrder(Replay(ops[..k]))
  }

  /** Slots are ordered by their last touch, newest first, throughout a run if and only if no deleteReplace of
      the run promotes a node that has a slot already. */
  lemma {:induction false} SlotsAreMostRecentFirst(ops: seq<BucketOp>)
    ensures AlwaysInOrder(ops) <==> FreshRun(ops)
  {
    if FreshRun(ops) {
      forall k: nat | k <= |ops| ensures InOrder(Replay(ops[..k])) {
        FreshPrefix(ops, k);
        FreshRunInOrder(ops[..k]);
      }
    }
    if AlwaysInOrder(ops) { OrderedRunIsFresh(ops); }
  }

  lemma {:induction false} OrderedRunIsFresh(ops: seq<BucketOp>)
    requires AlwaysInOrder(ops)
    ensures FreshRun(ops)
  {
    if ops != [] {
      var init := ops[..|ops| - 1];
      forall k: nat | k <= |init| ensures InOrder(Replay(init[..k])) {
        assert init[..k] == ops[..k];
      }
      OrderedRunIsFresh(init);
      assert ops[..|ops|] == ops && ops[..|ops| - 1] == init;
      ReplayLast(ops);
      if ops[|ops| - 1].Retire? { PromotedInOrder(Replay(init), ops[|ops| - 1]); }
    }
  }

  lemma PromotedInOrder(c: Clocked, op: BucketOp)
    requires InOrder(c) && InOrder(Apply(c, op)) && op.Retire?
    ensures FreshPromotion(c.b, op.id)
  {
    InOrderIsDistinct(c);
    InOrderIsDistinct(Apply(c, op));
    DeleteReplaceDistinctIff(c.b, op.id);
  }

  // ----- whom add challenges

  /** last has a slot, and no other slot went untouched for longer. */
  ghost predicate LeastRecent(s: seq<Peer>, touched: map<NodeID, nat>, last: Peer) {
    && last in s
    && forall e :: e in s ==> e.id in touched && last.id in touched && touched[last.id] <= touched[e.id]
  }

  lemma LastIsOldest(s: seq<Peer>, touched: map<NodeID, nat>, now: nat)
    requires MostRecentFirst(s, touched, now) && s != []
    ensures LeastRecent(s, touched, s[|s| - 1])
  {
  }

  lemma ChallengesOldest(c: Clocked, p: Peer)
    requires InOrder(c) && Challenged(c.b, p).Some?
    ensures LeastRecent(c.b.entries, c.touched, Challenged(c.b, p).value)
  {
    LastIsOldest(c.b.entries, c.touched, c.now);
  }

  /** add of this node would challenge another slot than the one untouched for longest. */
  ghost predicate Misplaced(c: Clocked, p: Peer) {
    Challenged(c.b, p).Some? && !LeastRecent(c.b.entries, c.touched, Challenged(c.b, p).value)
  }

  predicate NoRetire(ops: seq<BucketOp>) {
    forall i :: 0 <= i < |ops| ==> !ops[i].Retire?
  }

  /** However the run goes on without deleteReplace, add challenges the right node. */
  ghost predicate Harmless(ops: seq<BucketOp>) {
    forall more, p :: NoRetire(more) ==> !Misplaced(Replay(ops + more), p)
  }

  /** add challenges the node untouched for longest, after every prefix of a run and for all that can follow it
      without another deleteReplace, if and only if no deleteReplace of the run promoted a node that had a slot. */
  lemma ChallengesLeastRecent(ops: seq<BucketOp>)
    ensures (forall k: nat :: k <= |ops| ==> Harmless(ops[..k])) <==> FreshRun(ops)
  {
    if FreshRun(ops) {
      forall k: nat | k <= |ops| ensures Harmless(ops[..k]) {
        FreshPrefix(ops, k);
        FreshIsHarmless(ops[..k]);
      }
    }
    if forall k: nat :: k <= |ops| ==> Harmless(ops[..k]) { HarmlessIsFresh(ops); }
  }

  lemma FreshIsHarmless(ops: seq<BucketOp>)
    requires FreshRun(ops)
    ensures Harmless(ops)
  {
    forall more, p | NoRetire(more) ensures !Misplaced(Replay(ops + more), p) {
      FreshWithout(ops, more);
      FreshRunInOrder(ops + more);
      if Challenged(Replay(ops + more).b, p).Some? { ChallengesOldest(Replay(ops + more), p); }
    }
  }

  lemma {:induction false} FreshWithout(ops: seq<BucketOp>, more: seq<BucketOp>)
    requires FreshRun(ops) && NoRetire(more)
    ensures FreshRun(ops + more)
  {
    if more == [] {
      assert ops + more == ops;
    } else {
      var n := |more| - 1;
      assert more == more[..n] + [more[n]] && !more[n].Retire?;
      FreshWithout(ops, more[..n]);
      ReplayStep(ops + more[..n], more[n]);
      assert ops + more == ops + more[..n] + [more[n]];
    }
  }

  lemma {:induction false} HarmlessIsFresh(ops: seq<BucketOp>)
    requires forall k: nat :: k <= |ops| ==> Harmless(ops[..k])
    ensures FreshRun(ops)
  {
    if ops != [] {
      var init, op := ops[..|ops| - 1], ops[|ops| - 1];
      forall k: nat | k <= |init| ensures Harmless(init[..k]) {
        assert init[..k] == ops[..k];
      }
      HarmlessIsFresh(init);
      assert ops[..|ops|] == init + [op];
      if op.Retire? && !FreshPromotion(Replay(init).b, op.id) {
        StaleIsHarmful(init, op.id);
        assert false;
      }
    }
  }

  // how a second slot leads to a wrong challenge

  /** Slots i and j have one ID, all others differ. */
  ghost predicate Doubled(s: seq<Peer>, i: nat, j: nat) {
    && i < j < |s| && s[i].id == s[j].id
    && forall a, b :: 0 <= a < b < |s| && s[a].id == s[b].id ==> a == i && b == j
  }

  /** The promoted node is in front and where it was. */
  lemma DoubledByPromotion(b: BucketV, id: NodeID) returns (j: nat)
    requires Distinct(b.entries) && !FreshPromotion(b, id)
    ensures Doubled(BucketDeleteReplace(b, id).entries, 0, j)
  {
    RemoveIdKeeps(b.entries, id);
    var kept, x := RemoveId(b.entries, id), b.replacements[|b.replacements| - 1];
    var k :| 0 <= k < |kept| && kept[k].id == x.id;
    j := k + 1;
  }

  lemma FillStep(b: BucketV, f: Peer, i: nat, j: nat)
    requires Doubled(b.entries, i, j) && |b.entries| < BUCKET_SIZE && !HasId(b.entries, f.id)
    ensures BucketAdd(b, f).entries == [f] + b.entries && Doubled(BucketAdd(b, f).entries, i + 1, j + 1)
  {
  }

  /** Touching the last node, which has one slot, moves the others back by one. */
  lemma RotateStep(b: BucketV, i: nat, j: nat)
    requires Doubled(b.entries, i, j) && j < |b.entries| - 1
    ensures var n := |b.entries| - 1;
            && BucketAdd(b, b.entries[n]).entries == [b.entries[n]] + b.entries[..n]
            && Doubled(BucketAdd(b, b.entries[n]).entries, i + 1, j + 1)
  {
    var n := |b.entries| - 1;
    assert IndexOf(b.entries, b.entries[n].id) == n;
    assert Without(b.entries, n) == b.entries[..n];
  }

  /** Touching a node with a second slot at the end moves its first slot only. */
  lemma CloseStep(b: BucketV, i: nat, j: nat)
    requires Doubled(b.entries, i, j) && j == |b.entries| - 1
    ensures var c := BucketAdd(b, b.entries[j]);
            |c.entries| == |b.entries| && c.entries[j] == c.entries[0] == b.entries[j] && Doubled(c.entries, 0, j)
  {
    assert IndexOf(b.entries, b.entries[j].id) == i;
  }

  /** What holds of every run: capacity, and touches lie in the past. */
  ghost predicate Bounded(c: Clocked) {
    && |c.b.entries| <= BUCKET_SIZE
    && forall e :: e in c.b.entries ==> e.id in c.touched && c.touched[e.id] < c.now
  }

  lemma ApplyBounded(c: Clocked, op: BucketOp)
    requires Bounded(c)
    ensures Bounded(Apply(c, op))
  {
    if op.Retire? { RemoveIdKeeps(c.b.entries, op.id); }
  }

  lemma {:induction false} RunBounded(ops: seq<BucketOp>)
    ensures Bounded(Replay(ops))
  {
    if ops != [] {
      RunBounded(ops[..|ops| - 1]);
      ReplayLast(ops);
      ApplyBounded(Replay(ops[..|ops| - 1]), ops[|ops| - 1]);
    }
  }

  function ApplyAll(c: Clocked, more: seq<BucketOp>): Clocked {
    Fold(Apply, c, more)
  }

  lemma ReplayAppend(ops: seq<BucketOp>, more: seq<BucketOp>)
    ensures Replay(ops + more) == ApplyAll(Replay(ops), more)
  {
    FoldAppend(Apply, Clocked(BucketV([], []), map[], 0), ops, more);
  }

  lemma ApplyFirst(c: Clocked, op: BucketOp, rest: seq<BucketOp>)
    ensures ApplyAll(c, [op] + rest) == ApplyAll(Apply(c, op), rest)
  {
    FoldAppend(Apply, c, [op], rest);
    FoldSnoc(Apply, c, [], op);
    assert [] + [op] == [op];
  }

  lemma FreshPeer(s: seq<Peer>) returns (p: Peer)
    requires |s| <= BUCKET_SIZE
    ensures !HasId(s, p.id)
  {
    var id := FreshId(s, BUCKET_SIZE);
    p := Peer(id, ZERO_HASH);
  }

  /** Of n + 1 IDs at least one is not used by n slots. */
  lemma {:induction false} FreshId(s: seq<Peer>, n: nat) returns (id: NodeID)
    requires |s| <= n < 100
    ensures id <= n && !HasId(s, id)
    decreases n
  {
    if !HasId(s, n) {
      id := n;
    } else {
      RemoveIdDrops(s, n);
      RemoveIdKeeps(s, n);
      id := FreshId(RemoveId(s, n), n - 1);
      if HasId(s, id) {
        var i :| 0 <= i < |s| && s[i].id == id;
        InRemoved(RemoveId(s, n), s[i]);
      }
    }
  }

  lemma InRemoved(s: seq<Peer>, p: Peer)
    requires p in s
    ensures HasId(s, p.id)
  {
  }

  /** A node to touch while the bucket is not full or there are nodes behind the second slot. */
  lemma MoveOn(b: BucketV, i: nat, j: nat) returns (x: Peer)
    requires Doubled(b.entries, i, j) && |b.entries| <= BUCKET_SIZE
    requires |b.entries| < BUCKET_SIZE || j < |b.entries| - 1
    ensures var c := BucketAdd(b, x);
            Doubled(c.entries, i + 1, j + 1) && |c.entries| == if |b.entries| < BUCKET_SIZE then |b.entries| + 1 else BUCKET_SIZE
  {
    if |b.entries| < BUCKET_SIZE {
      x := FreshPeer(b.entries);
      FillStep(b, x, i, j);
    } else {
      x := b.entries[|b.entries| - 1];
      RotateStep(b, i, j);
    }
  }

  /** From two slots to a wrong challenge: fill the bucket, touch the nodes behind the second slot, and then the
      node itself. */
  lemma {:induction false} TwoSlotsFail(c: Clocked, i: nat, j: nat) returns (more: seq<BucketOp>, p: Peer)
    requires Bounded(c) && Doubled(c.b.entries, i, j)
    ensures NoRetire(more) && Misplaced(ApplyAll(c, more), p)
    decreases BUCKET_SIZE - |c.b.entries|, |c.b.entries| - j
  {
    var n := |c.b.entries| - 1;
    if n + 1 < BUCKET_SIZE || j < n {
      var x := MoveOn(c.b, i, j);
      var rest;
      ApplyBounded(c, Touch(x));
      rest, p := TwoSlotsFail(Apply(c, Touch(x)), i + 1, j + 1);
      more := [Touch(x)] + rest;
      ApplyFirst(c, Touch(x), rest);
    } else {
      more, p := LastTouchFails(c, i);
    }
  }

  /** Touching the node at the end moves its first slot to the front and leaves the other one where it is. */
  lemma LastTouchFails(c: Clocked, i: nat) returns (more: seq<BucketOp>, p: Peer)
    requires Bounded(c) && |c.b.entries| == BUCKET_SIZE && Doubled(c.b.entries, i, BUCKET_SIZE - 1)
    ensures NoRetire(more) && Misplaced(ApplyAll(c, more), p)
  {
    var x := c.b.entries[BUCKET_SIZE - 1];
    CloseStep(c.b, i, BUCKET_SIZE - 1);
    p := FreshPeer(BucketAdd(c.b, x).entries);
    more := [Touch(x)];
    LastJustTouched(c, x, p);
    ApplyFirst(c, Touch(x), []);
    assert more + [] == more;
  }

  /** The node that was touched last is also the last one. */
  lemma LastJustTouched(c: Clocked, x: Peer, p: Peer)
    requires Bounded(c)
    requires var es := BucketAdd(c.b, x).entries;
             |es| == BUCKET_SIZE && es[|es| - 1] == x && Doubled(es, 0, |es| - 1) && !HasId(es, p.id)
    ensures Misplaced(Apply(c, Touch(x)), p)
  {
    var es := BucketAdd(c.b, x).entries;
    assert es[1].id != x.id;
    OthersStay(c.b, x, es[1]);
    assert es[1] in es;
  }

  lemma OthersStay(b: BucketV, x: Peer, e: Peer)
    requires e in BucketAdd(b, x).entries && e.id != x.id
    ensures e in b.entries
  {
  }

  lemma StaleRunFails(ops: seq<BucketOp>, id: NodeID) returns (more: seq<BucketOp>, p: Peer)
    requires FreshRun(ops) && !FreshPromotion(Replay(ops).b, id)
    ensures NoRetire(more) && Misplaced(Replay(ops + [Retire(id)] + more), p)
  {
    FreshRunInOrder(ops);
    InOrderIsDistinct(Replay(ops));
    var j := DoubledByPromotion(Replay(ops).b, id);
    ReplayStep(ops, Retire(id));
    RunBounded(ops + [Retire(id)]);
    more, p := TwoSlotsFail(Replay(ops + [Retire(id)]), 0, j);
    ReplayAppend(ops + [Retire(id)], more);
  }

  lemma StaleIsHarmful(ops: seq<BucketOp>, id: NodeID)
    requires FreshRun(ops) && !FreshPromotion(Replay(ops).b, id)
    ensures !Harmless(ops + [Retire(id)])
  {
    var more, p := StaleRunFails(ops, id);
  }

  // a run that fails

  function Nth(n: nat): Peer
    requires n < 100
  {
    Peer(n, ZERO_HASH)
  }

  /** Touch nodes 0 to n - 1. */
  function FillOps(n: nat): seq<BucketOp>
    requires n < 100
  {
    if n == 0 then [] else FillOps(n - 1) + [Touch(Nth(n - 1))]
  }

  lemma {:induction false} Filled(n: nat)
    requires n <= BUCKET_SIZE
    ensures FreshRun(FillOps(n))
    ensures var b := Replay(FillOps(n)).b;
            && b.replacements == [] && |b.entries| == n
            && (forall i :: 0 <= i < n ==> b.entries[i] == Nth(n - 1 - i))
  {
    if n > 0 {
      Filled(n - 1);
      ReplayStep(FillOps(n - 1), Touch(Nth(n - 1)));
    }
  }

  /** Sixteen nodes, a newcomer that queues, gets a slot when one is free, and is promoted once more: the run up
      to the deleteReplace that breaks the order. */
  function StaleOps(): seq<BucketOp> {
    FillOps(BUCKET_SIZE) + [Touch(Nth(16))] + [Drop(Nth(0).id)] + [Touch(Nth(16))]
  }

  /** A run that starts in this way ends with a wrong challenge. */
  lemma WrongChallenge() returns (more: seq<BucketOp>, p: Peer)
    ensures NoRetire(more) && FreshRun(StaleOps())
    ensures Misplaced(Replay(StaleOps() + [Retire(Nth(1).id)] + more), p)
  {
    var fill := FillOps(BUCKET_SIZE);
    var b := Replay(fill).b;
    Filled(BUCKET_SIZE);
    assert b.entries[15] == Nth(0) && b.entries[14] == Nth(1);
    ReplayStep(fill, Touch(Nth(16)));
    ReplayStep(fill + [Touch(Nth(16))], Drop(Nth(0).id));
    ReplayStep(fill + [Touch(Nth(16))] + [Drop(Nth(0).id)], Touch(Nth(16)));
    QueuedTwiceGetsTwoSlots(b, Nth(16), Nth(0), Nth(1));
    DeleteReplaceDistinctIff(Replay(StaleOps()).b, Nth(1).id);
    more, p := StaleRunFails(StaleOps(), Nth(1).id);
  }
}
