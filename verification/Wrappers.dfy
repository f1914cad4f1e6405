/** Optional values and the flattening of per-channel packet lists. */
module Wrappers {
  datatype Option<+T> = None | Some(value: T)

  function Flatten<T>(xs: seq<seq<T>>): seq<T> {
    if xs == [] then [] else Flatten(xs[..|xs| - 1]) + xs[|xs| - 1]
  }

  lemma {:induction false} FlattenMember<T>(xs: seq<seq<T>>, x: T)
    ensures x in Flatten(xs) <==> exists i :: 0 <= i < |xs| && x in xs[i]
  {
    if xs != [] {
      var front := xs[..|xs| - 1];
      FlattenMember(front, x);
      assert forall i :: 0 <= i < |front| ==> front[i] == xs[i];
    }
  }

  lemma {:induction false} FlattenSingles<T>(xs: seq<seq<T>>)
    requires forall i :: 0 <= i < |xs| ==> |xs[i]| == 1
    ensures |Flatten(xs)| == |xs|
    ensures forall i :: 0 <= i < |xs| ==> Flatten(xs)[i] == xs[i][0]
  {
    if xs != [] {
      FlattenSingles(xs[..|xs| - 1]);
    }
  }
}
