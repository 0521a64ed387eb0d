/** What add, stuff, delete and deleteReplace of discovery/table.go do to the whole table: which bucket changes,
    and what is in its slots and in its queue afterwards, slot by slot. */
module TableEffects {
  import opened Slices
  import opened Distance
  import opened NodesByDistance
  import opened Table

  /** No bucket but the k-th has changed. */
  ghost predicate OnlyBucket(t: TableV, u: TableV, k: nat) {
    && u.self == t.self && |u.buckets| == |t.buckets|
    && forall i :: 0 <= i < |t.buckets| && i != k ==> u.buckets[i] == t.buckets[i]
  }

  ghost predicate FirstSlot(s: seq<Peer>, id: NodeID, i: nat) {
    i < |s| && s[i].id == id && forall j :: 0 <= j < i ==> s[j].id != id
  }

  // ----- add

  /** The slot of p moved to the front. */
  ghost predicate Bumped(b: BucketV, c: BucketV, p: Peer) {
    && c.replacements == b.replacements
    && exists i: nat :: FirstSlot(b.entries, p.id, i) && c.entries == [p] + b.entries[..i] + b.entries[i + 1..]
  }

  /** p got a new slot, in front. */
  ghost predicate Fronted(b: BucketV, c: BucketV, p: Peer) {
    !HasId(b.entries, p.id) && |b.entries| < 16 && c.entries == [p] + b.entries && c.replacements == b.replacements
  }

  /** All slots are taken by others: p is the newest of at most sixteen replacements. */
  ghost predicate Queued(b: BucketV, c: BucketV, p: Peer) {
    && !HasId(b.entries, p.id) && |b.entries| >= 16 && c.entries == b.entries
    && c.replacements == (if |b.replacements| < 16 then b.replacements else b.replacements[|b.replacements| - 15..]) + [p]
  }

  ghost predicate Inserted(b: BucketV, c: BucketV, p: Peer) {
    Bumped(b, c, p) || Fronted(b, c, p) || Queued(b, c, p)
  }

  lemma BucketAddEffect(b: BucketV, p: Peer)
    ensures Inserted(b, BucketAdd(b, p), p)
    ensures Challenged(b, p) == if Queued(b, BucketAdd(b, p), p) then Some(b.entries[|b.entries| - 1]) else None
  {
    var i, c := IndexOf(b.entries, p.id), BucketAdd(b, p);
    if i < |b.entries| {
      assert FirstSlot(b.entries, p.id, i);
      assert c.entries == [p] + b.entries[..i] + b.entries[i + 1..];
      assert HasId(b.entries, p.id);
    } else {
      assert !HasId(b.entries, p.id);
    }
  }

  /** add: nothing for our own node; else p is in front, or the newest replacement of a full bucket, whose last
      entry is then handed back. */
  lemma AddEffect(t: TableV, p: Peer)
    requires p.id != t.self.id ==> InRange(t, p)
    ensures p.id == t.self.id ==> Add(t, p) == t && AddChallenges(t, p) == None
    ensures p.id != t.self.id ==>
              var k := LogDist(t.self.sha, p.sha);
              var u, b := Add(t, p), t.buckets[k];
              && OnlyBucket(t, u, k) && Inserted(b, u.buckets[k], p)
              && AddChallenges(t, p) == if Queued(b, u.buckets[k], p) then Some(b.entries[|b.entries| - 1]) else None
  {
    if p.id != t.self.id { BucketAddEffect(BucketOf(t, p), p); }
  }

  // ----- stuff

  /** The k-th bucket got one more slot, at the end. */
  ghost predicate Appended(t: TableV, u: TableV, k: nat, p: Peer)
    requires k < |t.buckets|
  {
    && OnlyBucket(t, u, k)
    && u.buckets[k].entries == t.buckets[k].entries + [p] && u.buckets[k].replacements == t.buckets[k].replacements
  }

  /** stuff: one node more is appended to its bucket unless it is us, has a slot, or there is no room. */
  lemma StuffEffect(t: TableV, ps: seq<Peer>, p: Peer)
    requires forall i :: 0 <= i < |ps| ==> ps[i].id != t.self.id ==> InRange(t, ps[i])
    requires p.id != t.self.id ==> InRange(t, p)
    ensures Stuff(t, []) == t
    ensures var k := LogDist(t.self.sha, p.sha);
            var u, v := Stuff(t, ps), Stuff(t, ps + [p]);
            if p.id == t.self.id || HasId(u.buckets[k].entries, p.id) || |u.buckets[k].entries| >= 16 then v == u
            else Appended(u, v, k, p)
  {
    assert (ps + [p])[..|ps|] == ps;
    var u := Stuff(t, ps);
    if p.id != t.self.id {
      var b := BucketOf(u, p);
      assert HasId(b.entries, p.id) <==> IndexOf(b.entries, p.id) < |b.entries|;
      assert u.buckets == u.buckets[LogDist(t.self.sha, p.sha) := b];
    }
  }

  // ----- delete

  /** delete: the first slot with the ID is cut out. */
  lemma DeleteEffect(t: TableV, p: Peer)
    requires InRange(t, p)
    ensures var k := LogDist(t.self.sha, p.sha);
            var u, b := Delete(t, p), t.buckets[k];
            && (!HasId(b.entries, p.id) ==> u == t)
            && (HasId(b.entries, p.id) ==>
                  && OnlyBucket(t, u, k) && u.buckets[k].replacements == b.replacements
                  && exists i: nat ::
                       FirstSlot(b.entries, p.id, i) && u.buckets[k].entries == b.entries[..i] + b.entries[i + 1..])
  {
    var b := BucketOf(t, p);
    var i := IndexOf(b.entries, p.id);
    if i < |b.entries| {
      assert FirstSlot(b.entries, p.id, i);
    } else {
      assert t.buckets == t.buckets[LogDist(t.self.sha, p.sha) := b];
    }
  }

  // ----- deleteReplace

  /** r holds the slots of s with another ID, in their order: the i-th is slot ix[i]. */
  ghost predicate Others(s: seq<Peer>, id: NodeID, ix: seq<nat>, r: seq<Peer>) {
    && |r| == |ix| && (forall i :: 0 <= i < |ix| ==> ix[i] < |s| && r[i] == s[ix[i]])
    && (forall i, j :: 0 <= i < j < |ix| ==> ix[i] < ix[j])
    && (forall k: nat :: k < |s| ==> (k in ix <==> s[k].id != id))
  }

  lemma {:induction false} RemoveIdSnoc(s: seq<Peer>, p: Peer, id: NodeID)
    ensures RemoveId(s + [p], id) == RemoveId(s, id) + if p.id == id then [] else [p]
  {
    if s == [] {
      assert s + [p] == [p];
    } else {
      assert (s + [p])[1..] == s[1..] + [p];
      RemoveIdSnoc(s[1..], p, id);
    }
  }

  lemma OthersSnoc(s: seq<Peer>, p: Peer, id: NodeID, ix: seq<nat>, r: seq<Peer>)
    requires Others(s, id, ix, r)
    ensures if p.id == id then Others(s + [p], id, ix, r) else Others(s + [p], id, ix + [|s|], r + [p])
  {
    var all, now := s + [p], if p.id == id then ix else ix + [|s|];
    forall k: nat | k < |all| ensures k in now <==> all[k].id != id {
      if k < |s| { assert k in ix <==> s[k].id != id; }
    }
  }

  lemma RemoveIdEffect(s: seq<Peer>, id: NodeID) returns (ix: seq<nat>)
    ensures Others(s, id, ix, RemoveId(s, id))
  {
    ix := [];
    for n := 0 to |s|
      invariant Others(s[..n], id, ix, RemoveId(s[..n], id))
    {
      assert s[..n + 1] == s[..n] + [s[n]];
      RemoveIdSnoc(s[..n], s[n], id);
      OthersSnoc(s[..n], s[n], id, ix, RemoveId(s[..n], id));
      if s[n].id != id { ix := ix + [n]; }
    }
    assert s[..|s|] == s;
  }

  /** The newest replacement left the queue for the front slot. */
  ghost predicate Promoted(b: BucketV, c: BucketV, kept: seq<Peer>) {
    && b.replacements != [] && c.entries == [b.replacements[|b.replacements| - 1]] + kept
    && c.replacements == b.replacements[..|b.replacements| - 1]
  }

  /** c is b without the slots of an ID, at indices other than ix, refilled if there is room and a replacement. */
  ghost predicate Replaced(b: BucketV, c: BucketV, id: NodeID, ix: seq<nat>) {
    exists kept :: Others(b.entries, id, ix, kept) &&
      if |ix| < 16 && b.replacements != [] then Promoted(b, c, kept)
      else c.entries == kept && c.replacements == b.replacements
  }

  /** deleteReplace: the slots with another ID stay in their order; if that leaves room and a replacement is queued,
      the newest one, and only that, moves into the front slot. */
  lemma DeleteReplaceEffect(t: TableV, p: Peer) returns (ix: seq<nat>)
    requires InRange(t, p)
    ensures var k := LogDist(t.self.sha, p.sha);
            OnlyBucket(t, DeleteReplace(t, p), k) && Replaced(t.buckets[k], DeleteReplace(t, p).buckets[k], p.id, ix)
  {
    var b := BucketOf(t, p);
    ix := RemoveIdEffect(b.entries, p.id);
    assert Others(b.entries, p.id, ix, RemoveId(b.entries, p.id));
  }
}
