/** Collecting, in order, what a function picks from each element of a sequence. */
module Sequences {

  /** The concatenation of pick(x) over the elements x of xs, in order. */
  function Collect<T, U>(pick: T -> seq<U>, xs: seq<T>): (collected: seq<U>)
  {
    if xs == [] then [] else pick(xs[0]) + Collect(pick, xs[1..])
  }

  /** Collecting one more element appends what is picked from it. */
  lemma {:induction false} CollectSnoc<T, U>(pick: T -> seq<U>, xs: seq<T>, x: T)
    ensures Collect(pick, xs + [x]) == Collect(pick, xs) + pick(x)
  {
    if xs == [] {
      assert xs + [x] == [x];
      assert [x][1..] == [];
    } else {
      assert (xs + [x])[1..] == xs[1..] + [x];
      CollectSnoc(pick, xs[1..], x);
    }
  }

  /** When pick keeps or drops each element as a single value, the collection
      is exactly the kept values in order: idx lists, increasing, the
      positions whose pick is not empty, and value k comes from position idx[k]. */
  lemma {:induction false} CollectSelects<T, U>(pick: T -> seq<U>, xs: seq<T>) returns (idx: seq<nat>)
    requires forall x :: |pick(x)| <= 1
    ensures |idx| == |Collect(pick, xs)|
    ensures forall k :: 0 <= k < |idx| ==> idx[k] < |xs| && pick(xs[idx[k]]) == [Collect(pick, xs)[k]]
    ensures Increasing(idx)
    ensures forall j :: 0 <= j < |xs| && pick(xs[j]) != [] ==> j in idx
  {
    if xs == [] {
      idx := [];
    } else {
      var rest := CollectSelects(pick, xs[1..]);
      idx := Prepend(pick(xs[0]) != [], rest);
      PrependIncreasing(pick(xs[0]) != [], rest);
      PrependPicks(pick, xs, rest);
      PrependComplete(pick, xs, rest);
    }
  }

  /** The indices of s are strictly increasing. */
  ghost predicate Increasing(s: seq<nat>)
  {
    forall k, l :: 0 <= k < l < |s| ==> s[k] < s[l]
  }

  /** The positions rest of a sequence's tail, shifted to positions of the
      whole sequence, with position 0 in front when keepHead holds. */
  function Prepend(keepHead: bool, rest: seq<nat>): (idx: seq<nat>)
    ensures |idx| == |rest| + (if keepHead then 1 else 0)
    ensures keepHead ==> idx[0] == 0
    ensures forall k :: |idx| - |rest| <= k < |idx| ==> idx[k] == rest[k - (|idx| - |rest|)] + 1
  {
    var shifted := seq(|rest|, m requires 0 <= m < |rest| => rest[m] + 1);
    if keepHead then [0] + shifted else shifted
  }

  /** Shifting increasing positions and putting 0 in front keeps them increasing. */
  lemma PrependIncreasing(keepHead: bool, rest: seq<nat>)
    requires Increasing(rest)
    ensures Increasing(Prepend(keepHead, rest))
  {
  }

  /** The step of CollectSelects for its second postcondition: each shifted
      position picks the matching value of the whole collection. */
  lemma PrependPicks<T, U>(pick: T -> seq<U>, xs: seq<T>, rest: seq<nat>)
    requires xs != [] && |pick(xs[0])| <= 1
    requires |rest| == |Collect(pick, xs[1..])|
    requires forall k :: 0 <= k < |rest| ==>
               rest[k] < |xs[1..]| && pick(xs[1..][rest[k]]) == [Collect(pick, xs[1..])[k]]
    ensures var idx := Prepend(pick(xs[0]) != [], rest);
            |idx| == |Collect(pick, xs)|
            && forall k :: 0 <= k < |idx| ==> idx[k] < |xs| && pick(xs[idx[k]]) == [Collect(pick, xs)[k]]
  {
    var head, tail := pick(xs[0]), Collect(pick, xs[1..]);
    var all := Collect(pick, xs);
    assert all == head + tail;
    var idx := Prepend(head != [], rest);
    var h := |head|;
    assert |idx| - |rest| == h;
    forall k | 0 <= k < |idx| ensures idx[k] < |xs| && pick(xs[idx[k]]) == [all[k]] {
      if k < h {
        assert head == [head[0]];
      } else {
        var m := k - h;
        assert idx[k] == rest[m] + 1;
        assert all[k] == tail[m];
        assert xs[idx[k]] == xs[1..][rest[m]];
      }
    }
  }

  /** The step of CollectSelects for its last postcondition: every position
      that picks something is listed. */
  lemma PrependComplete<T, U>(pick: T -> seq<U>, xs: seq<T>, rest: seq<nat>)
    requires xs != []
    requires forall j :: 0 <= j < |xs[1..]| && pick(xs[1..][j]) != [] ==> j in rest
    ensures var idx := Prepend(pick(xs[0]) != [], rest);
            forall j :: 0 <= j < |xs| && pick(xs[j]) != [] ==> j in idx
  {
    var idx := Prepend(pick(xs[0]) != [], rest);
    forall j | 0 <= j < |xs| && pick(xs[j]) != [] ensures j in idx {
      if j > 0 {
        assert xs[1..][j - 1] == xs[j];
        var m :| 0 <= m < |rest| && rest[m] == j - 1;
        assert idx[|idx| - |rest| + m] == j;
      }
    }
  }

  /** A strictly increasing sequence of indices below n has at most n elements. */
  lemma {:induction false} IncreasingBelowBound(idx: seq<nat>, n: nat)
    requires forall k :: 0 <= k < |idx| ==> idx[k] < n
    requires Increasing(idx)
    ensures |idx| <= n
  {
    if idx != [] {
      IncreasingBelowBound(idx[..|idx| - 1], idx[|idx| - 1]);
    }
  }
}
