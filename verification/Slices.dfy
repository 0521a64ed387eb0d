/** Slice idioms of Go, on sequences, and the optional value that stands for a nil pointer. */
module Slices {
  datatype Option<+T> = None | Some(value: T)

  function Take<T>(s: seq<T>, k: nat): seq<T> {
    if |s| <= k then s else s[..k]
  }

  /** The last k elements. */
  function TakeLast<T>(s: seq<T>, k: nat): seq<T> {
    if |s| <= k then s else s[|s| - k..]
  }

  /** append(s[:i], s[i+1:]...) */
  function Without<T>(s: seq<T>, i: nat): (r: seq<T>)
    requires i < |s|
    ensures |r| == |s| - 1
  {
    s[..i] + s[i + 1..]
  }

  /** copy(dst[at:], src): the overlap-safe block move, cut off at the end of dst. */
  function CopyInto<T>(dst: seq<T>, at: nat, src: seq<T>): (r: seq<T>)
    requires at <= |dst|
    ensures |r| == |dst|
  {
    var n := if |src| < |dst| - at then |src| else |dst| - at;
    dst[..at] + src[..n] + dst[at + n..]
  }

  /** The state after some operations. */
  function Fold<S, O>(step: (S, O) -> S, s: S, ops: seq<O>): S {
    if ops == [] then s else step(Fold(step, s, ops[..|ops| - 1]), ops[|ops| - 1])
  }

  lemma FoldSnoc<S, O>(step: (S, O) -> S, s: S, ops: seq<O>, op: O)
    ensures Fold(step, s, ops + [op]) == step(Fold(step, s, ops), op)
  {
    assert (ops + [op])[..|ops|] == ops;
  }

  lemma {:induction false} FoldAppend<S, O>(step: (S, O) -> S, s: S, ops: seq<O>, more: seq<O>)
    ensures Fold(step, s, ops + more) == Fold(step, Fold(step, s, ops), more)
  {
    if more == [] {
      assert ops + more == ops;
    } else {
      var n := |more| - 1;
      FoldAppend(step, s, ops, more[..n]);
      FoldSnoc(step, s, ops + more[..n], more[n]);
      assert ops + more == ops + more[..n] + [more[n]];
    }
  }
}
