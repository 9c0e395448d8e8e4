/**
 * Helpers shared by the whole model: optional values and error results,
 * the per-field meaning of an object spread `{ ...current, ...patch }`,
 * and the sequence operations JavaScript's arrays provide
 * (`filter`, `find`, `findIndex`) with the properties the model relies on.
 */
module Common {

  datatype Option<T> = None | Some(value: T)

  datatype Result<T, E> = Success(value: T) | Failure(error: E)

  /** One field of `{ ...current, ...patch }`: the patch wins when it supplies the field. */
  function Override<T>(patch: Option<T>, current: T): (r: T)
    ensures patch.None? ==> r == current
    ensures patch.Some? ==> r == patch.value
  {
    match patch
    case Some(v) => v
    case None => current
  }

  /** Two patches applied one after the other, as a single patch: the later one wins. */
  function Overlay<T>(first: Option<T>, second: Option<T>): (r: Option<T>)
    ensures second.Some? ==> r == second
    ensures second.None? ==> r == first
  {
    if second.Some? then second else first
  }

  /** Spreading two patches in turn is spreading their overlay. */
  lemma OverlayOverride<T>(first: Option<T>, second: Option<T>, current: T)
    ensures Override(second, Override(first, current)) == Override(Overlay(first, second), current)
  {
  }

  /** No element occurs twice. */
  predicate Distinct<T(==)>(xs: seq<T>)
  {
    forall i, j :: 0 <= i < j < |xs| ==> xs[i] != xs[j]
  }

  /** `xs` can be obtained from `ys` by deleting elements, keeping the order of the rest. */
  predicate IsSubsequence<T(==)>(xs: seq<T>, ys: seq<T>)
    decreases |ys|
  {
    if xs == [] then true
    else if ys == [] then false
    else (xs[0] == ys[0] && IsSubsequence(xs[1..], ys[1..])) || IsSubsequence(xs, ys[1..])
  }

  lemma {:induction false} SubsequenceReflexive<T>(xs: seq<T>)
    ensures IsSubsequence(xs, xs)
    decreases |xs|
  {
    if xs != [] {
      SubsequenceReflexive(xs[1..]);
    }
  }

  /** JavaScript's `xs.filter(keep)`: the elements that pass, in their original order. */
  function Filter<T(==)>(xs: seq<T>, keep: T -> bool): (r: seq<T>)
    ensures |r| <= |xs|
    ensures IsSubsequence(r, xs)
    ensures forall i :: 0 <= i < |r| ==> r[i] in xs && keep(r[i])
    ensures forall i :: 0 <= i < |xs| && keep(xs[i]) ==> xs[i] in r
    decreases |xs|
  {
    if xs == [] then []
    else if keep(xs[0]) then [xs[0]] + Filter(xs[1..], keep)
    else Filter(xs[1..], keep)
  }

  /** The filter keeps every passing element as often as it occurs in the input, and nothing else. */
  lemma {:induction false} FilterCounts<T>(xs: seq<T>, keep: T -> bool)
    ensures forall i :: 0 <= i < |xs| ==>
              multiset(Filter(xs, keep))[xs[i]] == if keep(xs[i]) then multiset(xs)[xs[i]] else 0
    decreases |xs|
  {
    if xs != [] {
      var t := xs[1..];
      var head := if keep(xs[0]) then [xs[0]] else [];
      FilterCounts(t, keep);
      assert xs == [xs[0]] + t;
      assert multiset(xs) == multiset([xs[0]]) + multiset(t);
      assert multiset(Filter(xs, keep)) == multiset(head) + multiset(Filter(t, keep));
      forall i | 0 <= i < |xs|
        ensures multiset(Filter(xs, keep))[xs[i]] == if keep(xs[i]) then multiset(xs)[xs[i]] else 0
      {
        var y := xs[i];
        if y !in t {
          assert y !in Filter(t, keep);
          assert multiset(t)[y] == 0 && multiset(Filter(t, keep))[y] == 0;
        } else {
          var j :| 0 <= j < |t| && t[j] == y;
          assert multiset(Filter(t, keep))[y] == if keep(y) then multiset(t)[y] else 0;
        }
      }
    }
  }

  /** Filtering distributes over concatenation (an element appended to the input lands at the end). */
  lemma {:induction false} FilterAppend<T>(xs: seq<T>, ys: seq<T>, keep: T -> bool)
    ensures Filter(xs + ys, keep) == Filter(xs, keep) + Filter(ys, keep)
    decreases |xs|
  {
    if xs != [] {
      assert (xs + ys)[0] == xs[0] && (xs + ys)[1..] == xs[1..] + ys;
      FilterAppend(xs[1..], ys, keep);
    } else {
      assert xs + ys == ys;
    }
  }

  /** Filtering an already filtered sequence with the same test changes nothing. */
  lemma {:induction false} FilterIdempotent<T>(xs: seq<T>, keep: T -> bool)
    ensures Filter(Filter(xs, keep), keep) == Filter(xs, keep)
    decreases |xs|
  {
    if xs != [] {
      FilterIdempotent(xs[1..], keep);
    }
  }

  /** A test that every element passes keeps the whole sequence. */
  lemma {:induction false} FilterKeepsAll<T>(xs: seq<T>, keep: T -> bool)
    requires forall i :: 0 <= i < |xs| ==> keep(xs[i])
    ensures Filter(xs, keep) == xs
    decreases |xs|
  {
    if xs != [] {
      FilterKeepsAll(xs[1..], keep);
    }
  }

  /** The filter keeps as many elements as it was given exactly when every element passes. */
  lemma {:induction false} FilterLengthFull<T>(xs: seq<T>, keep: T -> bool)
    ensures |Filter(xs, keep)| == |xs| <==> forall i :: 0 <= i < |xs| ==> keep(xs[i])
    decreases |xs|
  {
    if xs != [] {
      FilterLengthFull(xs[1..], keep);
      if keep(xs[0]) {
        assert forall i :: 1 <= i < |xs| ==> xs[i] == xs[1..][i - 1];
      }
    }
  }

  /** A test that no element passes keeps nothing. */
  lemma FilterKeepsNone<T>(xs: seq<T>, keep: T -> bool)
    requires forall i :: 0 <= i < |xs| ==> !keep(xs[i])
    ensures Filter(xs, keep) == []
  {
    var r := Filter(xs, keep);
    if r != [] {
      var i :| 0 <= i < |xs| && xs[i] == r[0];
    }
  }

  /** Filtering by either of two tests that never both hold keeps as many elements as filtering by each. */
  lemma {:induction false} FilterLengthDisjoint<T>(xs: seq<T>, p: T -> bool, q: T -> bool, either: T -> bool)
    requires forall x :: either(x) == (p(x) || q(x))
    requires forall x :: !(p(x) && q(x))
    ensures |Filter(xs, either)| == |Filter(xs, p)| + |Filter(xs, q)|
    decreases |xs|
  {
    if xs != [] {
      FilterLengthDisjoint(xs[1..], p, q, either);
    }
  }

  /** JavaScript's `xs.findIndex(p)`, with `None` in place of -1. */
  function FindIndex<T>(xs: seq<T>, p: T -> bool): (r: Option<nat>)
    ensures r.Some? ==> r.value < |xs| && p(xs[r.value])
    ensures r.Some? ==> forall j :: 0 <= j < r.value ==> !p(xs[j])
    ensures r.None? ==> forall j :: 0 <= j < |xs| ==> !p(xs[j])
    decreases |xs|
  {
    if xs == [] then None
    else if p(xs[0]) then Some(0)
    else match FindIndex(xs[1..], p)
      case None => None
      case Some(i) => Some(i + 1)
  }

  /** JavaScript's `xs.find(p)`: the first element that passes, `None` for `undefined`. */
  function Find<T>(xs: seq<T>, p: T -> bool): (r: Option<T>)
    ensures r.None? <==> forall j :: 0 <= j < |xs| ==> !p(xs[j])
    ensures r.Some? ==> exists i :: 0 <= i < |xs| && xs[i] == r.value && p(xs[i]) &&
                                    forall j :: 0 <= j < i ==> !p(xs[j])
  {
    match FindIndex(xs, p)
    case None => None
    case Some(i) => Some(xs[i])
  }
}
