/**
 * Order-preserving filter-map over sequences: apply a partial conversion to every element
 * and keep the successful results, in order. This is the shape of the product listing,
 * which converts every fetched document and drops the ones whose conversion raises.
 */
module FilterMaps {
  import opened Wrappers

  /** The successful results of `f` on the elements of `xs`, in order. */
  function FilterMap<A, B>(xs: seq<A>, f: A -> Option<B>): (r: seq<B>)
    ensures |r| <= |xs|
    decreases |xs|
  {
    if xs == [] then []
    else
      var rest := FilterMap(xs[..|xs| - 1], f);
      match f(xs[|xs| - 1])
      case Some(y) => rest + [y]
      case None => rest
  }

  /** The positions in `xs` of the elements on which `f` succeeds, in increasing order. */
  function KeptIndices<A, B>(xs: seq<A>, f: A -> Option<B>): seq<nat>
    decreases |xs|
  {
    if xs == [] then []
    else KeptIndices(xs[..|xs| - 1], f) + (if f(xs[|xs| - 1]).Some? then [|xs| - 1] else [])
  }

  /**
   * The result is a subsequence of the conversions: its k-th element is the result of `f`
   * at the k-th kept position, and the kept positions increase strictly.
   */
  lemma {:induction false} FilterMapSelects<A, B>(xs: seq<A>, f: A -> Option<B>)
    ensures |KeptIndices(xs, f)| == |FilterMap(xs, f)|
    ensures forall k :: 0 <= k < |KeptIndices(xs, f)| ==>
      KeptIndices(xs, f)[k] < |xs| && f(xs[KeptIndices(xs, f)[k]]) == Some(FilterMap(xs, f)[k])
    ensures forall k, l :: 0 <= k < l < |KeptIndices(xs, f)| ==> KeptIndices(xs, f)[k] < KeptIndices(xs, f)[l]
    decreases |xs|
  {
    if xs != [] {
      var init := xs[..|xs| - 1];
      FilterMapSelects(init, f);
      var idx, out := KeptIndices(init, f), FilterMap(init, f);
      var idx', out' := KeptIndices(xs, f), FilterMap(xs, f);
      forall k | 0 <= k < |idx|
        ensures idx'[k] == idx[k] < |xs| && f(xs[idx'[k]]) == Some(out'[k])
      {
        assert init[idx[k]] == xs[idx[k]];
      }
    }
  }

  /** An element is kept exactly when `f` succeeds on it; so every dropped element failed. */
  lemma {:induction false} FilterMapKeeps<A, B>(xs: seq<A>, f: A -> Option<B>, j: int)
    requires 0 <= j < |xs|
    ensures j in KeptIndices(xs, f) <==> f(xs[j]).Some?
    decreases |xs|
  {
    var init := xs[..|xs| - 1];
    KeptBelow(init, f);
    if j < |xs| - 1 {
      FilterMapKeeps(init, f, j);
      assert init[j] == xs[j];
    }
  }

  lemma {:induction false} KeptBelow<A, B>(xs: seq<A>, f: A -> Option<B>)
    ensures forall j :: j in KeptIndices(xs, f) ==> 0 <= j < |xs|
    decreases |xs|
  {
    if xs != [] {
      KeptBelow(xs[..|xs| - 1], f);
    }
  }

  /** Filter-mapping a concatenation concatenates the results. */
  lemma {:induction false} FilterMapAppend<A, B>(xs: seq<A>, ys: seq<A>, f: A -> Option<B>)
    ensures FilterMap(xs + ys, f) == FilterMap(xs, f) + FilterMap(ys, f)
    decreases |ys|
  {
    if ys == [] {
      assert xs + ys == xs;
    } else {
      var ys' := ys[..|ys| - 1];
      assert (xs + ys)[..|xs + ys| - 1] == xs + ys';
      assert (xs + ys)[|xs + ys| - 1] == ys[|ys| - 1];
      FilterMapAppend(xs, ys', f);
    }
  }

  /** When `f` succeeds everywhere, nothing is dropped. */
  lemma {:induction false} FilterMapTotal<A, B>(xs: seq<A>, f: A -> Option<B>)
    requires forall k :: 0 <= k < |xs| ==> f(xs[k]).Some?
    ensures |FilterMap(xs, f)| == |xs|
    ensures forall k :: 0 <= k < |xs| ==> FilterMap(xs, f)[k] == f(xs[k]).value
    decreases |xs|
  {
    if xs != [] {
      FilterMapTotal(xs[..|xs| - 1], f);
    }
  }

  /** The prefix step that a loop building the result one element at a time takes. */
  lemma FilterMapStep<A, B>(xs: seq<A>, i: int, f: A -> Option<B>)
    requires 0 <= i < |xs|
    ensures FilterMap(xs[..i + 1], f) ==
      FilterMap(xs[..i], f) + (if f(xs[i]).Some? then [f(xs[i]).value] else [])
  {
    assert xs[..i + 1][..i] == xs[..i];
  }
}
