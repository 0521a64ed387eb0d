/** The routing table as the source keeps it: bucket objects whose slices are shifted in place and a
    running count.  Every method is proved against the function of the same name in module Table. */
module RoutingTable {
  import opened Slices
  import opened Distance
  import opened NodesByDistance
  import T = Table

  class Bucket {
    var entries: seq<Peer>
    var replacements: seq<Peer>

    constructor ()
      ensures entries == replacements == []
    {
      entries, replacements := [], [];
    }

    ghost function Model(): T.BucketV
      reads this
    {
      T.BucketV(entries, replacements)
    }

    /** Make room at the end, slide everything down by one, store in front. */
    method AddFront(n: Peer)
      modifies `entries
      ensures entries == [n] + old(entries)
    {
      entries := entries + [n];
      entries := CopyInto(entries, 1, entries);
      entries := entries[0 := n];
    }

    /** Move the node to the front if it has a slot; the others keep their order. */
    method Bump(n: Peer) returns (found: bool)
      modifies `entries
      ensures found <==> T.HasId(old(entries), n.id)
      ensures found ==> entries == [n] + Without(old(entries), T.IndexOf(old(entries), n.id))
      ensures !found ==> entries == old(entries)
    {
      for i := 0 to |entries|
        invariant entries == old(entries)
        invariant forall j :: 0 <= j < i ==> entries[j].id != n.id
      {
        if entries[i].id == n.id {
          entries := CopyInto(entries, 1, entries[..i]);
          entries := entries[0 := n];
          return true;
        }
      }
      return false;
    }

    /** Append to the replacement queue; when it is over-long, slide it up and lose the oldest node. */
    method QueueReplacement(n: Peer)
      requires |replacements| <= T.BUCKET_SIZE
      modifies `replacements
      ensures replacements == TakeLast(old(replacements) + [n], T.BUCKET_SIZE)
    {
      replacements := replacements + [n];
      if |replacements| > T.BUCKET_SIZE {
        replacements := CopyInto(replacements, 0, replacements[1..]);
        replacements := replacements[..|replacements| - 1];
      }
    }

    /** Bump, else insert in front, else queue and name the last entry for revalidation. */
    method Place(n: Peer) returns (grown: bool, contested: Option<Peer>)
      requires |entries| <= T.BUCKET_SIZE && |replacements| <= T.BUCKET_SIZE
      modifies this
      ensures Model() == T.BucketAdd(old(Model()), n)
      ensures contested == T.Challenged(old(Model()), n)
      ensures |entries| == |old(entries)| + if grown then 1 else 0
    {
      var bumped := Bump(n);
      if bumped {
        return false, None;
      }
      if |entries| < T.BUCKET_SIZE {
        AddFront(n);
        return true, None;
      }
      QueueReplacement(n);
      return false, Some(entries[|entries| - 1]);
    }

    /** Append at the end, unless the node has a slot or there is no room. */
    method AppendIfNew(n: Peer) returns (added: bool)
      modifies `entries
      ensures Model() == T.BucketStuff(old(Model()), n)
      ensures added <==> |entries| == |old(entries)| + 1
      ensures !added ==> entries == old(entries)
    {
      for i := 0 to |entries|
        invariant entries == old(entries)
        invariant forall j :: 0 <= j < i ==> entries[j].id != n.id
      {
        if entries[i].id == n.id {
          return false;
        }
      }
      if |entries| < T.BUCKET_SIZE {
        entries := entries + [n];
        return true;
      }
      return false;
    }

    /** Cut out the first slot with the ID. */
    method DeleteFirst(id: NodeID) returns (found: bool)
      modifies `entries
      ensures found <==> T.HasId(old(entries), id)
      ensures found ==> entries == Without(old(entries), T.IndexOf(old(entries), id))
      ensures !found ==> entries == old(entries)
    {
      for i := 0 to |entries|
        invariant entries == old(entries)
        invariant forall j :: 0 <= j < i ==> entries[j].id != id
      {
        if entries[i].id == id {
          entries := entries[..i] + entries[i + 1..];
          return true;
        }
      }
      return false;
    }

    /** Cut out every slot with the ID; returns how many there were. */
    method DeleteAll(id: NodeID) returns (removed: nat)
      modifies `entries
      ensures entries == T.RemoveId(old(entries), id)
      ensures removed == |old(entries)| - |entries|
    {
      removed := 0;
      var i := 0;
      while i < |entries|
        invariant i <= |entries| && removed == |old(entries)| - |entries|
        invariant entries[..i] + T.RemoveId(entries[i..], id) == T.RemoveId(old(entries), id)
        decreases |entries| - i
      {
        ghost var was := entries;
        if entries[i].id == id {
          entries := entries[..i] + entries[i + 1..];
          removed := removed + 1;
          assert entries[..i] == was[..i] && entries[i..] == was[i..][1..];
        } else {
          i := i + 1;
          assert was[..i] == was[..i - 1] + [was[i - 1]] && was[i..] == was[i - 1..][1..];
        }
      }
      assert entries[..i] == entries;
    }
  }

  /** The number of entries in all buckets. */
  function Total(bs: seq<T.BucketV>): nat {
    if bs == [] then 0 else Total(bs[..|bs| - 1]) + |bs[|bs| - 1].entries|
  }

  lemma {:induction false} TotalUpdate(bs: seq<T.BucketV>, k: nat, b: T.BucketV)
    requires k < |bs|
    ensures Total(bs[k := b]) == Total(bs) - |bs[k].entries| + |b.entries|
  {
    var n := |bs| - 1;
    if k == n {
      assert bs[k := b][..n] == bs[..n];
    } else {
      assert bs[k := b][..n] == bs[..n][k := b];
      TotalUpdate(bs[..n], k, b);
    }
  }

  lemma {:induction false} TotalIsLength(bs: seq<T.BucketV>)
    ensures Total(bs) == |T.AllEntries(bs)|
  {
    if bs != [] { TotalIsLength(bs[..|bs| - 1]); }
  }

  class Table {
    var count: int
    const self: Peer
    const buckets: seq<Bucket>
    ghost var model: T.TableV

    /** Buckets are separate objects, `model` is the table as a value and well formed, and count is the
        number of entries. */
    ghost predicate Valid()
      reads this, buckets
    {
      && (forall i, j :: 0 <= i < j < |buckets| ==> buckets[i] != buckets[j])
      && model.self == self && |model.buckets| == |buckets|
      && (forall i :: 0 <= i < |buckets| ==> buckets[i].Model() == model.buckets[i])
      && count == Total(model.buckets)
      && T.TableOk(model)
    }

    constructor (self: Peer, size: nat)
      ensures Valid() && fresh(buckets) && this.self == self && |buckets| == size
      ensures model == T.TableV(self, seq(size, _ => T.BucketV([], [])))
    {
      var bs: seq<Bucket> := [];
      while |bs| < size
        invariant |bs| <= size && fresh(bs)
        invariant forall i, j :: 0 <= i < j < |bs| ==> bs[i] != bs[j]
        invariant forall i :: 0 <= i < |bs| ==> bs[i].Model() == T.BucketV([], [])
      {
        var b := new Bucket();
        bs := bs + [b];
      }
      this.self := self;
      buckets := bs;
      count := 0;
      model := T.TableV(self, seq(size, _ => T.BucketV([], [])));
      EmptyTotal(seq(size, _ => T.BucketV([], [])));
    }

    static lemma {:induction false} EmptyTotal(bs: seq<T.BucketV>)
      requires forall i :: 0 <= i < |bs| ==> bs[i].entries == []
      ensures Total(bs) == 0
    {
      if bs != [] { EmptyTotal(bs[..|bs| - 1]); }
    }

    /** Bucket k has changed, and count with it: bring the model up to date. */
    ghost method Commit(k: nat)
      requires k < |buckets| == |model.buckets| && model.self == self
      requires forall i, j :: 0 <= i < j < |buckets| ==> buckets[i] != buckets[j]
      requires forall i :: 0 <= i < |buckets| && i != k ==> buckets[i].Model() == model.buckets[i]
      requires count == Total(model.buckets) - |model.buckets[k].entries| + |buckets[k].entries|
      requires T.TableOk(model.(buckets := model.buckets[k := buckets[k].Model()]))
      modifies `model
      ensures Valid() && model == old(model).(buckets := old(model.buckets)[k := buckets[k].Model()])
    {
      TotalUpdate(model.buckets, k, buckets[k].Model());
      model := model.(buckets := model.buckets[k := buckets[k].Model()]);
    }

    /** add: bump, else insert in front, else queue and hand back the last entry for revalidation. */
    method Add(n: Peer) returns (contested: Option<Peer>)
      requires Valid() && (n.id != self.id ==> T.InRange(model, n))
      modifies this, buckets
      ensures Valid()
      ensures model == T.Add(old(model), n)
      ensures contested == T.AddChallenges(old(model), n)
    {
      if n.id == self.id {
        return None;
      }
      var k := LogDistance(self.sha, n.sha);
      assert T.BucketOk(model, k);
      T.AddKeepsOk(model, n);
      var b := buckets[k];
      var grown;
      grown, contested := b.Place(n);
      if grown {
        count := count + 1;
      }
      Commit(k);
    }

    /** stuff: append those nodes that are new to a bucket with room. */
    method Stuff(nodes: seq<Peer>)
      requires Valid()
      requires forall i :: 0 <= i < |nodes| ==> nodes[i].id != self.id ==> T.InRange(model, nodes[i])
      modifies this, buckets
      ensures Valid()
      ensures model == T.Stuff(old(model), nodes)
    {
      ghost var was := model;
      for i := 0 to |nodes|
        invariant Valid()
        invariant forall j :: 0 <= j < i ==> nodes[..i][j] == nodes[j]
        invariant model == T.Stuff(was, nodes[..i])
      {
        assert nodes[..i + 1][..i] == nodes[..i];
        StuffOne(nodes[i]);
      }
      assert nodes[..|nodes|] == nodes;
    }

    /** One round of stuff. */
    method StuffOne(n: Peer)
      requires Valid() && (n.id != self.id ==> T.InRange(model, n))
      modifies this, buckets
      ensures Valid()
      ensures model == if n.id == self.id then old(model)
                       else T.SetBucket(old(model), n, T.BucketStuff(T.BucketOf(old(model), n), n))
    {
      if n.id == self.id {
        return;
      }
      var k := LogDistance(self.sha, n.sha);
      T.BucketStuffKeepsOk(model, n);
      var b := buckets[k];
      var added := b.AppendIfNew(n);
      if added {
        count := count + 1;
      }
      Commit(k);
    }

    method Delete(node: Peer)
      requires Valid() && T.InRange(model, node)
      modifies this, buckets
      ensures Valid()
      ensures model == T.Delete(old(model), node)
    {
      var k := LogDistance(self.sha, node.sha);
      T.DeleteKeepsOk(model, node);
      var b := buckets[k];
      var found := b.DeleteFirst(node.id);
      if found {
        count := count - 1;
      }
      Commit(k);
    }

    method DeleteReplace(node: Peer)
      requires Valid() && T.InRange(model, node)
      modifies this, buckets
      ensures Valid()
      ensures model == T.DeleteReplace(old(model), node)
    {
      var k := LogDistance(self.sha, node.sha);
      T.DeleteReplaceKeepsOk(model, node);
      var b := buckets[k];
      var removed := b.DeleteAll(node.id);
      count := count - removed;
      if |b.entries| < T.BUCKET_SIZE && |b.replacements| > 0 {
        var ri := |b.replacements| - 1;
        b.AddFront(b.replacements[ri]);
        count := count + 1;
        b.replacements := b.replacements[..ri];
      }
      Commit(k);
    }

    /** The inner loop of closest: push every entry of one bucket. */
    static method PushAll(closed: NodeList, ghost before: seq<Peer>, es: seq<Peer>, nresults: nat)
      requires closed.entries == Nearest(closed.target, before, nresults)
      modifies closed
      ensures closed.entries == Nearest(closed.target, before + es, nresults)
    {
      assert before + es[..0] == before;
      for j := 0 to |es|
        invariant closed.entries == Nearest(closed.target, before + es[..j], nresults)
      {
        NearestStep(closed.target, before + es[..j], es[j], nresults);
        NearestBounded(closed.target, before + es[..j], nresults);
        assert before + es[..j] + [es[j]] == before + es[..j + 1];
        closed.Push(es[j], nresults);
      }
      assert es[..|es|] == es;
    }

    /** closest: push every entry of every bucket. */
    method Closest(target: Hash, nresults: nat) returns (closed: NodeList)
      requires Valid()
      ensures fresh(closed) && closed.target == target
      ensures closed.entries == T.Closest(model, target, nresults)
    {
      closed := new NodeList(target);
      ghost var bs := model.buckets;
      for i := 0 to |buckets|
        invariant fresh(closed) && closed.target == target
        invariant closed.entries == Nearest(target, T.AllEntries(bs[..i]), nresults)
      {
        assert buckets[i].Model() == bs[i];
        assert bs[..i + 1][..i] == bs[..i];
        PushAll(closed, T.AllEntries(bs[..i]), buckets[i].entries, nresults);
      }
      assert bs[..|buckets|] == bs;
    }
  }
}
