/**
 * First-match searches, first-match edits and filters over sequences: the
 * `find`, `findIndex`, `splice(i, 1)` and `filter` idioms every handler of the
 * game model uses on its ship, token, crit, weapon and obstacle lists.
 */
module Seqs {
  import opened Wrappers

  /** `k` is the position of the first element of `xs` satisfying `p`. */
  ghost predicate IsFirst<T>(xs: seq<T>, p: T -> bool, k: int) {
    && 0 <= k < |xs|
    && p(xs[k])
    && forall j :: 0 <= j < k ==> !p(xs[j])
  }

  /** `k` is the position of the last element of `xs` satisfying `p`. */
  ghost predicate IsLast<T>(xs: seq<T>, p: T -> bool, k: int) {
    && 0 <= k < |xs|
    && p(xs[k])
    && forall j :: k < j < |xs| ==> !p(xs[j])
  }

  /** No element of `xs` satisfies `p`. */
  ghost predicate NoMatch<T>(xs: seq<T>, p: T -> bool) {
    forall j :: 0 <= j < |xs| ==> !p(xs[j])
  }

  lemma FirstIsUnique<T>(xs: seq<T>, p: T -> bool, k: int, k': int)
    requires IsFirst(xs, p, k) && IsFirst(xs, p, k')
    ensures k == k'
  {
  }

  /** Index of the first element satisfying `p` (`findIndex`, with -1 as `None`). */
  function FindIndex<T>(xs: seq<T>, p: T -> bool): (r: Option<nat>)
    ensures r.None? <==> NoMatch(xs, p)
    ensures r.Some? ==> IsFirst(xs, p, r.value)
  {
    if |xs| == 0 then None
    else if p(xs[0]) then Some(0)
    else
      match FindIndex(xs[1..], p)
      case None =>
        assert forall j :: 1 <= j < |xs| ==> xs[j] == xs[1..][j - 1];
        None
      case Some(k) =>
        assert forall j :: 1 <= j < k + 1 ==> xs[j] == xs[1..][j - 1];
        Some(k + 1)
  }

  /** Index of the last element satisfying `p`: the entry a key-indexed record keeps when it is built by overwriting. */
  function FindLastIndex<T>(xs: seq<T>, p: T -> bool): (r: Option<nat>)
    ensures r.None? <==> NoMatch(xs, p)
    ensures r.Some? ==> IsLast(xs, p, r.value)
  {
    if |xs| == 0 then None
    else if p(xs[|xs| - 1]) then Some(|xs| - 1)
    else
      var init := xs[..|xs| - 1];
      match FindLastIndex(init, p)
      case None =>
        assert forall j :: 0 <= j < |xs| - 1 ==> xs[j] == init[j];
        None
      case Some(k) =>
        assert forall j :: k < j < |xs| - 1 ==> xs[j] == init[j];
        Some(k)
  }

  /** The first element satisfying `p` (`find`). */
  function Find<T>(xs: seq<T>, p: T -> bool): (r: Option<T>)
    ensures r.None? <==> NoMatch(xs, p)
    ensures r.Some? ==> exists k :: IsFirst(xs, p, k) && r.value == xs[k]
  {
    match FindIndex(xs, p)
    case None => None
    case Some(k) => Some(xs[k])
  }

  /** The last element satisfying `p`. */
  function FindLast<T>(xs: seq<T>, p: T -> bool): (r: Option<T>)
    ensures r.None? <==> NoMatch(xs, p)
    ensures r.Some? ==> exists k :: IsLast(xs, p, k) && r.value == xs[k]
  {
    match FindLastIndex(xs, p)
    case None => None
    case Some(k) => Some(xs[k])
  }

  /** Replace the first element satisfying `p` by its image under `f`; the `find`-then-mutate idiom. */
  function UpdateFirst<T>(xs: seq<T>, p: T -> bool, f: T -> T): (r: seq<T>)
    ensures NoMatch(xs, p) ==> r == xs
    ensures forall k :: IsFirst(xs, p, k) ==> r == xs[k := f(xs[k])]
  {
    match FindIndex(xs, p)
    case None => xs
    case Some(k) => xs[k := f(xs[k])]
  }

  /** Remove the first element satisfying `p`: `findIndex` followed by `splice(i, 1)` when found. */
  function RemoveFirst<T>(xs: seq<T>, p: T -> bool): (r: seq<T>)
    ensures NoMatch(xs, p) ==> r == xs
    ensures forall k :: IsFirst(xs, p, k) ==> r == xs[..k] + xs[k + 1..]
  {
    match FindIndex(xs, p)
    case None => xs
    case Some(k) => xs[..k] + xs[k + 1..]
  }

  /** The elements satisfying `p`, in order. */
  function Filter<T(!new)>(xs: seq<T>, p: T -> bool): (r: seq<T>)
    ensures |r| <= |xs|
    ensures forall i :: 0 <= i < |r| ==> p(r[i])
    ensures forall x :: multiset(r)[x] == if p(x) then multiset(xs)[x] else 0
  {
    if |xs| == 0 then []
    else
      var rest := Filter(xs[1..], p);
      assert xs == [xs[0]] + xs[1..];
      if p(xs[0]) then [xs[0]] + rest else rest
  }

  /** `Filter` keeps the relative order: filtering a concatenation concatenates the filtered parts. */
  lemma {:induction false} FilterAppend<T(!new)>(xs: seq<T>, ys: seq<T>, p: T -> bool)
    ensures Filter(xs + ys, p) == Filter(xs, p) + Filter(ys, p)
  {
    if |xs| == 0 {
      assert xs + ys == ys;
    } else {
      assert (xs + ys)[1..] == xs[1..] + ys;
      FilterAppend(xs[1..], ys, p);
    }
  }

  /** The values of the present entries, in order: a `map` to nullable values followed by a non-null `filter`. */
  function Somes<T(!new)>(xs: seq<Option<T>>): (r: seq<T>)
    ensures |r| <= |xs|
    ensures forall i :: 0 <= i < |r| ==> Some(r[i]) in xs
    ensures (forall i :: 0 <= i < |xs| ==> xs[i].Some?) ==> |r| == |xs| && forall i :: 0 <= i < |xs| ==> r[i] == xs[i].value
  {
    if |xs| == 0 then []
    else
      var rest := Somes(xs[1..]);
      assert forall i :: 1 <= i < |xs| ==> xs[i] == xs[1..][i - 1];
      if xs[0].Some? then [xs[0].value] + rest else rest
  }

  /** Each value is kept exactly as often as it is present. */
  lemma {:induction false} SomesCount<T(!new)>(xs: seq<Option<T>>)
    ensures forall v :: multiset(Somes(xs))[v] == multiset(xs)[Some(v)]
  {
    if |xs| > 0 {
      SomesCount(xs[1..]);
      assert xs == [xs[0]] + xs[1..];
    }
  }

  /** `Somes` keeps the relative order: the present values of a concatenation are those of each part, back to back. */
  lemma {:induction false} SomesAppend<T(!new)>(xs: seq<Option<T>>, ys: seq<Option<T>>)
    ensures Somes(xs + ys) == Somes(xs) + Somes(ys)
  {
    if |xs| == 0 {
      assert xs + ys == ys;
    } else {
      assert (xs + ys)[1..] == xs[1..] + ys;
      SomesAppend(xs[1..], ys);
    }
  }

  /** The concatenation of all the sequences, in order (a `flatMap`). */
  function Concat<T>(xss: seq<seq<T>>): seq<T> {
    if |xss| == 0 then [] else xss[0] + Concat(xss[1..])
  }

  /** The position in `Concat(xss)` where the `n`-th part starts. */
  function Start<T>(xss: seq<seq<T>>, n: nat): nat
    requires n <= |xss|
  {
    if n == 0 then 0 else Start(xss, n - 1) + |xss[n - 1]|
  }

  /** Dropping the first part moves every start back by that part's length. */
  lemma {:induction false} StartShift<T>(xss: seq<seq<T>>, n: nat)
    requires 1 <= n <= |xss|
    ensures Start(xss, n) == |xss[0]| + Start(xss[1..], n - 1)
  {
    if n > 1 {
      StartShift(xss, n - 1);
      assert xss[n - 1] == xss[1..][n - 2];
    }
  }

  lemma {:induction false} ConcatLength<T>(xss: seq<seq<T>>)
    ensures |Concat(xss)| == Start(xss, |xss|)
  {
    if |xss| > 0 {
      ConcatLength(xss[1..]);
      StartShift(xss, |xss|);
    }
  }

  /** Element `j` of part `i` sits at `Start(xss, i) + j` of the concatenation. */
  lemma {:induction false} ConcatAt<T>(xss: seq<seq<T>>, i: nat, j: nat)
    requires i < |xss| && j < |xss[i]|
    ensures Start(xss, i) + j < |Concat(xss)|
    ensures Concat(xss)[Start(xss, i) + j] == xss[i][j]
  {
    var all := Concat(xss);
    assert all == xss[0] + Concat(xss[1..]);
    if i > 0 {
      ConcatAt(xss[1..], i - 1, j);
      StartShift(xss, i);
      assert xss[i] == xss[1..][i - 1];
    }
  }
}
