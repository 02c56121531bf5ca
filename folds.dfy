/**
 * A loop that visits the elements of a sequence in order and appends what
 * each one yields: the shape of every processor that walks the entries of a
 * message or the drivers of the collection.
 */
module Folds {

  /** What `f` yields for each element of `xs`, concatenated in the order of `xs`. */
  function Gather<E, T>(xs: seq<E>, f: E -> seq<T>): seq<T>
    decreases |xs|
  {
    if xs == [] then []
    else Gather(xs[..|xs| - 1], f) + f(xs[|xs| - 1])
  }

  /** Extending the visited prefix by one element appends what that element yields. */
  lemma GatherStep<E, T>(xs: seq<E>, f: E -> seq<T>, i: nat)
    requires i < |xs|
    ensures Gather(xs[..i + 1], f) == Gather(xs[..i], f) + f(xs[i])
  {
    assert xs[..i + 1][..i] == xs[..i];
  }

  /** Visiting every element is visiting the whole sequence. */
  lemma GatherWhole<E, T>(xs: seq<E>, f: E -> seq<T>)
    ensures Gather(xs[..|xs|], f) == Gather(xs, f)
  {
    assert xs[..|xs|] == xs;
  }

  /** An output is in the gathered sequence exactly when some element yields it. */
  lemma {:induction false} GatherMembers<E, T>(xs: seq<E>, f: E -> seq<T>)
    ensures forall t :: t in Gather(xs, f) ==> exists i :: 0 <= i < |xs| && t in f(xs[i])
    ensures forall t, i :: 0 <= i < |xs| && t in f(xs[i]) ==> t in Gather(xs, f)
    decreases |xs|
  {
    if xs != [] {
      var init := xs[..|xs| - 1];
      GatherMembers(init, f);
      forall t | t in Gather(xs, f)
        ensures exists i :: 0 <= i < |xs| && t in f(xs[i])
      {
        if t !in f(xs[|xs| - 1]) {
          assert t in Gather(init, f);
          var i :| 0 <= i < |init| && t in f(init[i]);
          assert init[i] == xs[i];
        }
      }
      forall t, i | 0 <= i < |xs| && t in f(xs[i])
        ensures t in Gather(xs, f)
      {
        if i < |init| {
          assert init[i] == xs[i];
        }
      }
    }
  }

  /** When every element yields exactly one output, output `k` is what element `k` yields. */
  lemma {:induction false} GatherSingletons<E, T>(xs: seq<E>, f: E -> seq<T>)
    requires forall i :: 0 <= i < |xs| ==> |f(xs[i])| == 1
    ensures |Gather(xs, f)| == |xs|
    ensures forall k :: 0 <= k < |xs| ==> Gather(xs, f)[k] == f(xs[k])[0]
    decreases |xs|
  {
    if xs != [] {
      var init := xs[..|xs| - 1];
      GatherSingletons(init, f);
      forall k | 0 <= k < |init| ensures Gather(xs, f)[k] == f(xs[k])[0] {
        assert init[k] == xs[k];
      }
    }
  }
  /**
   * The indices of the elements that yield something, in increasing order:
   * every such index is listed, once, and no other.
   */
  function Emitters<E, T>(xs: seq<E>, f: E -> seq<T>): (r: seq<nat>)
    ensures forall k :: 0 <= k < |r| ==> r[k] < |xs| && f(xs[r[k]]) != []
    ensures forall k, l :: 0 <= k < l < |r| ==> r[k] < r[l]
    ensures forall i :: 0 <= i < |xs| && f(xs[i]) != [] ==> i in r
    decreases |xs|
  {
    if xs == [] then []
    else
      var init := xs[..|xs| - 1];
      var r0 := Emitters(init, f);
      assert forall k :: 0 <= k < |r0| ==> init[r0[k]] == xs[r0[k]];
      assert forall i :: 0 <= i < |init| ==> init[i] == xs[i];
      r0 + (if f(xs[|xs| - 1]) != [] then [|xs| - 1] else [])
  }

  /**
   * When every element yields at most one output, output `k` is what the
   * `k`-th element that yields something yields: one output per such
   * element, in the order of `xs`.
   */
  lemma {:induction false} GatherAtMostOne<E, T>(xs: seq<E>, f: E -> seq<T>)
    requires forall i :: 0 <= i < |xs| ==> |f(xs[i])| <= 1
    ensures |Gather(xs, f)| == |Emitters(xs, f)|
    ensures forall k :: 0 <= k < |Emitters(xs, f)| ==> Gather(xs, f)[k] == f(xs[Emitters(xs, f)[k]])[0]
    decreases |xs|
  {
    if xs != [] {
      var init, last := xs[..|xs| - 1], xs[|xs| - 1];
      forall i | 0 <= i < |init| ensures |f(init[i])| <= 1 {
        assert init[i] == xs[i];
      }
      GatherAtMostOne(init, f);
      var g0, r0 := Gather(init, f), Emitters(init, f);
      var g, r := Gather(xs, f), Emitters(xs, f);
      assert g == g0 + f(last);
      assert r == r0 + (if f(last) != [] then [|xs| - 1] else []);
      forall k | 0 <= k < |r| ensures g[k] == f(xs[r[k]])[0] {
        if k < |r0| {
          assert g[k] == g0[k] && r[k] == r0[k];
          assert init[r0[k]] == xs[r0[k]];
        } else {
          assert g[k] == f(last)[0] && r[k] == |xs| - 1;
        }
      }
    }
  }
}
