/** Concatenation of a sequence of sequences, built from the last element. */
module Seqs {

  function Flatten<T>(xss: seq<seq<T>>): seq<T> {
    if |xss| == 0 then [] else Flatten(xss[..|xss| - 1]) + xss[|xss| - 1]
  }

  lemma {:induction false} FlattenAppend<T>(a: seq<seq<T>>, b: seq<seq<T>>)
    ensures Flatten(a + b) == Flatten(a) + Flatten(b)
    decreases |b|
  {
    if |b| == 0 {
      assert a + b == a;
    } else {
      var b', last := b[..|b| - 1], b[|b| - 1];
      assert (a + b)[..|a + b| - 1] == a + b' && (a + b)[|a + b| - 1] == last;
      FlattenAppend(a, b');
      assert Flatten(a + b) == Flatten(a) + Flatten(b') + last;
    }
  }

  /** A sequence that agrees element-wise with ys followed by zs flattens to the two flattenings, concatenated. */
  lemma FlattenSplit<T>(xs: seq<seq<T>>, ys: seq<seq<T>>, zs: seq<seq<T>>)
    requires |xs| == |ys| + |zs|
    requires forall k :: 0 <= k < |ys| ==> xs[k] == ys[k]
    requires forall k :: 0 <= k < |zs| ==> xs[|ys| + k] == zs[k]
    ensures Flatten(xs) == Flatten(ys) + Flatten(zs)
  {
    assert xs == ys + zs;
    FlattenAppend(ys, zs);
  }
}
