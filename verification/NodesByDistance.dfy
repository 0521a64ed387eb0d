/** `nodesByDistance` of discovery/net.go: the bounded, distance-ordered node list behind
    `Table.closest` and `lookup`.  Its reference definition is a stable sort by XOR distance. */
module NodesByDistance {
  import opened Distance
  import opened Slices

  /** A 64-byte node identifier, compared only for equality. */
  const ID_SPACE: nat := 0x1_00000000_00000000_00000000_00000000_00000000_00000000_00000000_00000000_00000000_00000000_00000000_00000000_00000000_00000000_00000000_00000000

  type NodeID = n: nat | n < ID_SPACE witness 0

  /** What the table and the distance list read of a node: both fields never change. */
  datatype Peer = Peer(id: NodeID, sha: Hash)

  ghost predicate Sorted(target: Hash, s: seq<Peer>) {
    forall i, j :: 0 <= i < j < |s| ==> Dist(s[i].sha, target) <= Dist(s[j].sha, target)
  }

  /** Insertion behind every peer that is at most as far away. */
  function Insert(target: Hash, s: seq<Peer>, p: Peer): (r: seq<Peer>)
    ensures |r| == |s| + 1
  {
    if s == [] || Dist(s[0].sha, target) > Dist(p.sha, target) then [p] + s
    else [s[0]] + Insert(target, s[1..], p)
  }

  function StableSort(target: Hash, s: seq<Peer>): (r: seq<Peer>)
    ensures |r| == |s|
  {
    if s == [] then [] else Insert(target, StableSort(target, s[..|s| - 1]), s[|s| - 1])
  }

  /** The k nearest peers, nearest first, earlier peers first among equally near ones. */
  function Nearest(target: Hash, s: seq<Peer>, k: nat): seq<Peer> {
    Take(StableSort(target, s), k)
  }

  // ----- what a stable sort is

  /** The peers at one distance, in order. */
  function AtDistance(target: Hash, s: seq<Peer>, d: nat): seq<Peer> {
    if s == [] then []
    else if Dist(s[0].sha, target) == d then [s[0]] + AtDistance(target, s[1..], d)
    else AtDistance(target, s[1..], d)
  }

  lemma {:induction false} AtDistanceAppend(target: Hash, s: seq<Peer>, t: seq<Peer>, d: nat)
    ensures AtDistance(target, s + t, d) == AtDistance(target, s, d) + AtDistance(target, t, d)
  {
    if s == [] {
      assert s + t == t;
    } else {
      assert (s + t)[1..] == s[1..] + t;
      AtDistanceAppend(target, s[1..], t, d);
    }
  }

  function Splice<T>(s: seq<T>, i: nat, x: T): seq<T>
    requires i <= |s|
  {
    s[..i] + [x] + s[i..]
  }

  lemma SpliceHead<T>(s: seq<T>, i: nat, x: T)
    requires 0 < i <= |s|
    ensures [s[0]] + Splice(s[1..], i - 1, x) == Splice(s, i, x)
  {
    assert s[..i] == [s[0]] + s[1..][..i - 1];
    assert s[i..] == s[1..][i - 1..];
  }

  /** Where Insert puts the new peer. */
  lemma {:induction false} InsertSplits(target: Hash, s: seq<Peer>, p: Peer) returns (i: nat)
    requires Sorted(target, s)
    ensures i <= |s| && Insert(target, s, p) == Splice(s, i, p)
    ensures forall j :: 0 <= j < i ==> Dist(s[j].sha, target) <= Dist(p.sha, target)
    ensures forall j :: i <= j < |s| ==> Dist(s[j].sha, target) > Dist(p.sha, target)
  {
    if s == [] || Dist(s[0].sha, target) > Dist(p.sha, target) {
      i := 0;
    } else {
      assert Sorted(target, s[1..]);
      var i' := InsertSplits(target, s[1..], p);
      i := i' + 1;
      SpliceHead(s, i, p);
    }
  }

  /** Conversely, a split with that property is the insertion. */
  lemma {:induction false} SplitIsInsert(target: Hash, s: seq<Peer>, p: Peer, i: nat)
    requires i <= |s|
    requires forall j :: 0 <= j < i ==> Dist(s[j].sha, target) <= Dist(p.sha, target)
    requires forall j :: i <= j < |s| ==> Dist(s[j].sha, target) > Dist(p.sha, target)
    ensures Insert(target, s, p) == Splice(s, i, p)
  {
    if i > 0 {
      SplitIsInsert(target, s[1..], p, i - 1);
      SpliceHead(s, i, p);
    }
  }

  lemma InsertSorted(target: Hash, s: seq<Peer>, p: Peer)
    requires Sorted(target, s)
    ensures Sorted(target, Insert(target, s, p))
    ensures multiset(Insert(target, s, p)) == multiset(s) + multiset{p}
  {
    var i := InsertSplits(target, s, p);
    assert s == s[..i] + s[i..];
    SplicedSorted(target, s, p, i);
  }

  lemma SplicedSorted(target: Hash, s: seq<Peer>, p: Peer, i: nat)
    requires Sorted(target, s) && i <= |s|
    requires forall j :: 0 <= j < i ==> Dist(s[j].sha, target) <= Dist(p.sha, target)
    requires forall j :: i <= j < |s| ==> Dist(s[j].sha, target) > Dist(p.sha, target)
    ensures Sorted(target, Splice(s, i, p))
  {
    var r := Splice(s, i, p);
    forall j, k | 0 <= j < k < |r| ensures Dist(r[j].sha, target) <= Dist(r[k].sha, target) {
      var sj := if j < i then j else j - 1;
      var sk := if k < i then k else k - 1;
      assert j == i || (0 <= sj < |s| && r[j] == s[sj]);
      assert k == i || (0 <= sk < |s| && r[k] == s[sk]);
    }
  }

  lemma InsertStable(target: Hash, s: seq<Peer>, p: Peer, d: nat)
    requires Sorted(target, s)
    ensures AtDistance(target, Insert(target, s, p), d) == AtDistance(target, s + [p], d)
  {
    var i := InsertSplits(target, s, p);
    var u, v := s[..i], s[i..];
    assert s == u + v;
    AtDistanceAppend(target, u + [p], v, d);
    AtDistanceAppend(target, u, [p], d);
    AtDistanceAppend(target, u + v, [p], d);
    AtDistanceAppend(target, u, v, d);
    NoneBoth(target, p, v, d);
  }

  /** Either p or everything behind it is at another distance. */
  lemma NoneBoth(target: Hash, p: Peer, v: seq<Peer>, d: nat)
    requires forall j :: 0 <= j < |v| ==> Dist(v[j].sha, target) > Dist(p.sha, target)
    ensures AtDistance(target, [p], d) == [] || AtDistance(target, v, d) == []
  {
    if d == Dist(p.sha, target) { NoneAtDistance(target, v, d); } else { NoneAtDistance(target, [p], d); }
  }

  lemma {:induction false} NoneAtDistance(target: Hash, s: seq<Peer>, d: nat)
    requires forall j :: 0 <= j < |s| ==> Dist(s[j].sha, target) != d
    ensures AtDistance(target, s, d) == []
  {
    if s != [] { NoneAtDistance(target, s[1..], d); }
  }

  /** StableSort sorts, permutes, and keeps equally near peers in their order. */
  lemma {:induction false} StableSortCorrect(target: Hash, s: seq<Peer>)
    ensures Sorted(target, StableSort(target, s))
    ensures multiset(StableSort(target, s)) == multiset(s)
    ensures forall d: nat :: AtDistance(target, StableSort(target, s), d) == AtDistance(target, s, d)
  {
    if s != [] {
      var t, p := s[..|s| - 1], s[|s| - 1];
      assert s == t + [p];
      StableSortCorrect(target, t);
      InsertSorted(target, StableSort(target, t), p);
      forall d: nat ensures AtDistance(target, StableSort(target, s), d) == AtDistance(target, s, d) {
        InsertStable(target, StableSort(target, t), p, d);
        AtDistanceAppend(target, StableSort(target, t), [p], d);
        AtDistanceAppend(target, t, [p], d);
      }
    }
  }

  // ----- the k nearest

  /** What a truncation leaves out. */
  lemma LeftOut(s: seq<Peer>, k: nat)
    ensures multiset(Take(s, k)) <= multiset(s)
    ensures forall p :: p in multiset(s) - multiset(Take(s, k)) ==> p in s[|Take(s, k)|..]
  {
    var r := Take(s, k);
    assert s == r + s[|r|..];
    assert multiset(s) == multiset(r) + multiset(s[|r|..]);
  }

  lemma FartherBehind(target: Hash, s: seq<Peer>, n: nat, p: Peer, q: Peer)
    requires Sorted(target, s) && n <= |s| && p in s[n..] && q in s[..n]
    ensures Dist(q.sha, target) <= Dist(p.sha, target)
  {
    var i :| 0 <= i < n && s[..n][i] == q;
    var j :| 0 <= j < |s| - n && s[n..][j] == p;
    assert s[i] == q && s[n + j] == p;
  }

  /** Nothing left out is nearer than anything kept, and nothing is invented. */
  lemma NearestCorrect(target: Hash, s: seq<Peer>, k: nat)
    ensures var r := Nearest(target, s, k);
            && Sorted(target, r)
            && |r| == (if |s| < k then |s| else k)
            && multiset(r) <= multiset(s)
            && (forall p, q :: p in multiset(s) - multiset(r) && q in r ==> Dist(q.sha, target) <= Dist(p.sha, target))
  {
    var t, r := StableSort(target, s), Nearest(target, s, k);
    StableSortCorrect(target, s);
    LeftOut(t, k);
    forall p, q | p in multiset(s) - multiset(r) && q in r ensures Dist(q.sha, target) <= Dist(p.sha, target) {
      assert p in t[|r|..];
      FartherBehind(target, t, |r|, p, q);
    }
  }

  /** Truncating before a splice does not change the first k. */
  lemma TruncateThenSplice<T>(s: seq<T>, i: nat, x: T, k: nat)
    requires i <= |s| && k < |s|
    ensures Take(Splice(s[..k], if i < k then i else k, x), k) == Take(Splice(s, i, x), k)
  {
    var j := if i < k then i else k;
    var a, b := Splice(s[..k], j, x), Splice(s, i, x);
    forall m | 0 <= m < k ensures a[m] == b[m] {
    }
    assert Take(a, k) == a[..k] && Take(b, k) == b[..k];
  }

  /** Truncating before an insertion does not change the k nearest. */
  lemma TruncateThenInsert(target: Hash, s: seq<Peer>, p: Peer, k: nat)
    requires Sorted(target, s)
    ensures Take(Insert(target, Take(s, k), p), k) == Take(Insert(target, s, p), k)
  {
    if |s| > k {
      var i := InsertSplits(target, s, p);
      SplitIsInsert(target, s[..k], p, if i < k then i else k);
      TruncateThenSplice(s, i, p, k);
    }
  }

  /** One more candidate: push on the k nearest so far yields the k nearest of all. */
  lemma NearestStep(target: Hash, s: seq<Peer>, p: Peer, k: nat)
    ensures Nearest(target, s + [p], k) == Take(Insert(target, Nearest(target, s, k), p), k)
  {
    assert (s + [p])[..|s|] == s;
    StableSortCorrect(target, s);
    TruncateThenInsert(target, StableSort(target, s), p, k);
  }

  lemma NearestBounded(target: Hash, s: seq<Peer>, k: nat)
    ensures Sorted(target, Nearest(target, s, k)) && |Nearest(target, s, k)| <= k
  {
    StableSortCorrect(target, s);
  }

  // ----- push

  lemma Monotone(target: Hash, s: seq<Peer>, mid: nat)
    requires Sorted(target, s) && mid < |s|
    ensures forall j :: 0 <= j <= mid ==> Dist(s[j].sha, target) <= Dist(s[mid].sha, target)
    ensures forall j :: mid <= j < |s| ==> Dist(s[mid].sha, target) <= Dist(s[j].sha, target)
  {
  }

  class NodeList {
    const target: Hash
    var entries: seq<Peer>

    constructor (target: Hash)
      ensures this.target == target && entries == []
    {
      this.target := target;
      entries := [];
    }

    /** sort.Search: the first index whose entry is farther away than n. */
    method Search(n: Peer) returns (ix: nat)
      requires Sorted(target, entries)
      ensures ix <= |entries|
      ensures forall j :: 0 <= j < ix ==> Dist(entries[j].sha, target) <= Dist(n.sha, target)
      ensures forall j :: ix <= j < |entries| ==> Dist(entries[j].sha, target) > Dist(n.sha, target)
    {
      var lo, hi := 0, |entries|;
      while lo < hi
        invariant 0 <= lo <= hi <= |entries|
        invariant forall j :: 0 <= j < lo ==> Dist(entries[j].sha, target) <= Dist(n.sha, target)
        invariant forall j :: hi <= j < |entries| ==> Dist(entries[j].sha, target) > Dist(n.sha, target)
      {
        var mid := (lo + hi) / 2;
        var c := DistCmp(target, entries[mid].sha, n.sha);
        Monotone(target, entries, mid);
        if c > 0 { hi := mid; } else { lo := mid + 1; }
      }
      return lo;
    }

    /** push: binary search, append when there is room, shift, store.  A list that is too long stays so. */
    method Push(n: Peer, maxElems: nat)
      requires Sorted(target, entries)
      modifies this
      ensures entries == Take(Insert(target, old(entries), n), Larger(|old(entries)|, maxElems))
      ensures Sorted(target, entries)
    {
      var ix := Search(n);
      PushIsInsert(target, entries, n, ix, maxElems);
      if |entries| < maxElems {
        entries := entries + [n];
      }
      if ix == |entries| {
        // farther away than every entry, and there is no room
      } else {
        entries := CopyInto(entries, ix + 1, entries[ix..]);
        entries := entries[ix := n];
      }
    }
  }

  /** What push leaves in the slice, given the index that the search found. */
  function Shifted(s: seq<Peer>, n: Peer, ix: nat, maxElems: nat): seq<Peer>
    requires ix <= |s|
  {
    var t := if |s| < maxElems then s + [n] else s;
    if ix == |t| then t else CopyInto(t, ix + 1, t[ix..])[ix := n]
  }

  function Larger(a: nat, b: nat): nat {
    if a > b then a else b
  }

  lemma PushIsInsert(target: Hash, s: seq<Peer>, n: Peer, ix: nat, maxElems: nat)
    requires Sorted(target, s) && ix <= |s|
    requires forall j :: 0 <= j < ix ==> Dist(s[j].sha, target) <= Dist(n.sha, target)
    requires forall j :: ix <= j < |s| ==> Dist(s[j].sha, target) > Dist(n.sha, target)
    ensures Shifted(s, n, ix, maxElems) == Take(Insert(target, s, n), Larger(|s|, maxElems))
    ensures Sorted(target, Take(Insert(target, s, n), Larger(|s|, maxElems)))
  {
    SplitIsInsert(target, s, n, ix);
    ShiftSplices(s, n, ix, maxElems);
    InsertSorted(target, s, n);
  }

  lemma ShiftSplices(s: seq<Peer>, n: Peer, ix: nat, maxElems: nat)
    requires ix <= |s|
    ensures Shifted(s, n, ix, maxElems) == Take(Splice(s, ix, n), Larger(|s|, maxElems))
  {
    var r := Splice(s, ix, n);
    if |s| < maxElems {
      assert Shifted(s, n, ix, maxElems) == r;
    } else {
      assert Shifted(s, n, ix, maxElems) == r[..|s|];
    }
  }
}
