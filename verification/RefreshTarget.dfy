/** `chooseBucketRefreshTarget` of discovery/table.go: draw an entry uniformly, measure its distance on
    the first eight hash bytes, and pick a lookup target at a smaller distance.  The random draws are
    parameters; 64-bit arithmetic is written out. */
module RefreshTarget {
  import opened Words
  import opened Distance
  import opened NodesByDistance
  import T = Table
  import opened RoutingTable

  const TWO32: nat := 0x1_0000_0000
  const TWO64: nat := 0x1_0000_0000_0000_0000

  /** randUint and randUint64n, with the random word r. */
  function Rand(max: nat, r: nat): (x: nat)
    ensures x < max || x == 0
  {
    if max < 2 then 0 else r % max
  }

  /** The first eight bytes of a hash as a big-endian 64-bit number. */
  function Prefix(h: Hash): nat {
    Value(h[..8])
  }

  lemma PrefixBound(h: Hash)
    ensures Prefix(h) < TWO64
  {
    ValueBound(h[..8]);
    EightBytes();
  }

  lemma EightBytes()
    ensures Pow256(8) == TWO64 == Pow2(64)
  {
    Pow256IsPow2(8);
    assert Pow256(4) == TWO32;
    assert Pow256(8) == 0x1_0000_0000 * Pow256(4);
  }

  /** The concatenated buckets, read at bucket i, slot j. */
  lemma {:induction false} EntryAt(bs: seq<T.BucketV>, i: nat, j: nat)
    requires i < |bs| && j < |bs[i].entries|
    ensures |T.AllEntries(bs[..i])| + j < |T.AllEntries(bs)|
    ensures T.AllEntries(bs)[|T.AllEntries(bs[..i])| + j] == bs[i].entries[j]
  {
    if i < |bs| - 1 {
      EntryAt(bs[..|bs| - 1], i, j);
      assert bs[..|bs| - 1][..i] == bs[..i];
    }
  }

  /** The 64-bit distance of the entry with this number in the concatenated buckets; all ones when
      the draw hit none. */
  function DrawnDistance(self: Hash, all: seq<Peer>, entry: nat): nat {
    if entry < |all| then Xor(Prefix(all[entry].sha), Prefix(self)) else TWO64 - 1
  }

  /** dist + dist > dist in 64-bit arithmetic: false for zero and when doubling overflows. */
  lemma DoublingTest(dist: nat)
    requires dist < TWO64
    ensures (dist + dist) % TWO64 > dist <==> 0 < dist < TWO64 / 2
  {
  }

  method CountEntries(tab: Table) returns (entries: nat)
    requires tab.Valid()
    ensures entries == |T.AllEntries(tab.model.buckets)|
  {
    ghost var bs := tab.model.buckets;
    entries := 0;
    for i := 0 to |tab.buckets|
      invariant entries == |T.AllEntries(bs[..i])|
    {
      assert bs[..i + 1][..i] == bs[..i];
      entries := entries + |tab.buckets[i].entries|;
    }
    assert bs[..|tab.buckets|] == bs;
  }

  /** For every draw the subtracting walk selects exactly the entry at that position of the
      concatenated buckets, and none when the draw is past the end. */
  method WalkBuckets(tab: Table, draw: nat) returns (dist: nat)
    requires tab.Valid()
    ensures dist == DrawnDistance(tab.self.sha, T.AllEntries(tab.model.buckets), draw)
  {
    ghost var bs := tab.model.buckets;
    dist := TWO64 - 1;
    var entry: nat := draw;
    for i := 0 to |tab.buckets|
      invariant dist == TWO64 - 1
      invariant entry + |T.AllEntries(bs[..i])| == draw
    {
      var es := tab.buckets[i].entries;
      if entry < |es| {
        EntryAt(bs, i, entry);
        return Xor(Prefix(es[entry].sha), Prefix(tab.self.sha));
      }
      assert bs[..i + 1][..i] == bs[..i];
      entry := entry - |es|;
    }
    assert bs[..|tab.buckets|] == bs;
  }

  /** The target at a given 64-bit distance from us, completed with random bytes. */
  function TargetAt(self: Hash, step: nat, tail: Bytes): Hash
    requires |tail| == HASH_SIZE - 8
  {
    PutBytes(Xor(Prefix(self), step), 8) + tail
  }

  lemma TargetDistance(self: Hash, step: nat, tail: Bytes)
    requires step < TWO64 && |tail| == HASH_SIZE - 8
    ensures Xor(Prefix(TargetAt(self, step, tail)), Prefix(self)) == step
    ensures TargetAt(self, step, tail)[8..] == tail
  {
    var prefix := Prefix(self);
    PrefixBound(self);
    EightBytes();
    XorBelowPow2(prefix, step, 64);
    PutBytesValue(Xor(prefix, step), 8);
    assert TargetAt(self, step, tail)[..8] == PutBytes(Xor(prefix, step), 8);
    XorCommutes(prefix, step);
    XorCancels(step, prefix);
  }

  lemma DrawnDistanceBound(self: Hash, all: seq<Peer>, entry: nat)
    ensures DrawnDistance(self, all, entry) < TWO64
  {
    if entry < |all| {
      PrefixBound(all[entry].sha);
      PrefixBound(self);
      EightBytes();
      XorBelowPow2(Prefix(all[entry].sha), Prefix(self), 64);
    }
  }

  /** A distance below which a target can be aimed at. */
  predicate Usable(dist: nat) {
    0 < dist < TWO64 / 2
  }

  /** What a random word is turned into: a step below a usable distance, any step otherwise. */
  function Step(dist: nat, draw64: nat): (step: nat)
    ensures Usable(dist) ==> step < dist
  {
    draw64 % (if Usable(dist) then dist else TWO64 - 1)
  }

  method ChooseStep(dist: nat, draw64: nat) returns (step: nat)
    requires dist < TWO64 && draw64 < TWO64
    ensures step == Step(dist, draw64) < TWO64
  {
    DoublingTest(dist);
    var ddist := TWO64 - 1;
    if (dist + dist) % TWO64 > dist {
      ddist := dist;
    }
    step := Rand(ddist, draw64);
  }

  /** Which entry a random word draws, one past the end included. */
  function DrawnEntry(entries: nat, draw: nat): (entry: nat)
    ensures entry <= entries
  {
    Rand((entries + 1) % TWO32, draw)
  }

  /** A usable distance yields a target strictly nearer to us than the drawn entry; an unusable one
      yields a target anywhere. */
  method ChooseTarget(tab: Table, draw: nat, draw64: nat, tail: Bytes) returns (target: Hash)
    requires tab.Valid() && draw < TWO32 && draw64 < TWO64 && |tail| == HASH_SIZE - 8
    ensures target[8..] == tail
    ensures var all := T.AllEntries(tab.model.buckets);
            var d := DrawnDistance(tab.self.sha, all, DrawnEntry(|all|, draw));
            var near := Xor(Prefix(target), Prefix(tab.self.sha));
            near == Step(d, draw64) && (Usable(d) ==> near < d)
  {
    var entries := CountEntries(tab);
    var entry := DrawnEntry(entries, draw);
    var dist := WalkBuckets(tab, entry);
    DrawnDistanceBound(tab.self.sha, T.AllEntries(tab.model.buckets), entry);
    var step := ChooseStep(dist, draw64);
    TargetDistance(tab.self.sha, step, tail);
    target := TargetAt(tab.self.sha, step, tail);
  }
}
