/** What it means that a list holds exactly the elements of another that meet a condition. */
module Selections {

  /** The positions of the elements that meet the condition, in order. */
  ghost predicate Positions<T>(idx: seq<nat>, all: seq<T>, keep: T -> bool) {
    && (forall i, j :: 0 <= i < j < |idx| ==> idx[i] < idx[j])
    && (forall i :: 0 <= i < |idx| ==> idx[i] < |all| && keep(all[idx[i]]))
    && (forall k: nat :: k < |all| && keep(all[k]) ==> k in idx)
  }

  ghost predicate At<T>(part: seq<T>, all: seq<T>, idx: seq<nat>) {
    |part| == |idx| && forall i :: 0 <= i < |idx| ==> idx[i] < |all| && part[i] == all[idx[i]]
  }

  /** The elements that meet the condition, each as often as it occurs, in their order, and no other. */
  ghost predicate Selects<T>(part: seq<T>, all: seq<T>, keep: T -> bool) {
    exists idx: seq<nat> :: Positions(idx, all, keep) && At(part, all, idx)
  }

  lemma SelectsNone<T>(keep: T -> bool)
    ensures Selects([], [], keep)
  {
    var none: seq<T> := [];
    assert Positions([], none, keep) && At(none, none, []);
  }

  /** One more element at the end. */
  lemma SelectsNext<T>(part: seq<T>, all: seq<T>, x: T, keep: T -> bool)
    requires Selects(part, all, keep)
    ensures Selects(part + if keep(x) then [x] else [], all + [x], keep)
  {
    var idx: seq<nat> :| Positions(idx, all, keep) && At(part, all, idx);
    var more, longer := part + (if keep(x) then [x] else []), idx + if keep(x) then [|all|] else [];
    PositionsNext(idx, all, x, keep);
    assert At(more, all + [x], longer);
  }

  lemma PositionsNext<T>(idx: seq<nat>, all: seq<T>, x: T, keep: T -> bool)
    requires Positions(idx, all, keep)
    ensures Positions(idx + if keep(x) then [|all|] else [], all + [x], keep)
  {
    var longer := idx + if keep(x) then [|all|] else [];
    forall k: nat | k < |all + [x]| && keep((all + [x])[k]) ensures k in longer {
      if k == |all| {
        assert longer[|idx|] == k;
      }
    }
  }
}
