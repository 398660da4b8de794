/** Optional values, call outcomes, and the array operations the handlers are
    built from: `filter`, `find`, `some`, `map` by key. */
module Collections {

  datatype Option<T> = None | Some(value: T)

  /** The result of an awaited call: it resolved with a value, or it rejected. */
  datatype Outcome<T> = Ok(value: T) | Err

  /** `xs.filter(p)`. */
  function Filter<T(!new)>(xs: seq<T>, p: T -> bool): (r: seq<T>)
    ensures |r| <= |xs|
    ensures forall x :: x in r <==> x in xs && p(x)
  {
    if xs == [] then [] else (if p(xs[0]) then [xs[0]] else []) + Filter(xs[1..], p)
  }

  /** `a` is `b` with some elements left out, the rest in their original order. */
  ghost predicate IsSubsequence<T>(a: seq<T>, b: seq<T>) {
    a == [] || (b != [] && ((a[0] == b[0] && IsSubsequence(a[1..], b[1..])) || IsSubsequence(a, b[1..])))
  }

  /** A filter keeps each element as often as it occurs, or drops it entirely. */
  lemma {:induction false} FilterCount<T(!new)>(xs: seq<T>, p: T -> bool, x: T)
    ensures multiset(Filter(xs, p))[x] == if p(x) then multiset(xs)[x] else 0
  {
    if xs != [] {
      FilterCount(xs[1..], p, x);
      assert xs == [xs[0]] + xs[1..];
    }
  }

  /** A filter keeps the surviving elements in their original order. */
  lemma {:induction false} FilterIsSubsequence<T(!new)>(xs: seq<T>, p: T -> bool)
    ensures IsSubsequence(Filter(xs, p), xs)
  {
    if xs != [] {
      FilterIsSubsequence(xs[1..], p);
      var r := Filter(xs, p);
      if p(xs[0]) {
        assert r[0] == xs[0] && r[1..] == Filter(xs[1..], p);
      } else {
        assert r == Filter(xs[1..], p);
      }
    }
  }

  /** A filter whose predicate holds everywhere returns its input. */
  lemma {:induction false} FilterKeepsAll<T(!new)>(xs: seq<T>, p: T -> bool)
    requires forall i :: 0 <= i < |xs| ==> p(xs[i])
    ensures Filter(xs, p) == xs
  {
    if xs != [] {
      FilterKeepsAll(xs[1..], p);
      assert xs == [xs[0]] + xs[1..];
    }
  }

  /** A filter with a stronger predicate keeps a subsequence of what the
      weaker one keeps. */
  lemma {:induction false} FilterStronger<T(!new)>(xs: seq<T>, p: T -> bool, q: T -> bool)
    requires forall x :: p(x) ==> q(x)
    ensures IsSubsequence(Filter(xs, p), Filter(xs, q))
  {
    if xs != [] {
      FilterStronger(xs[1..], p, q);
      var a, b := Filter(xs, p), Filter(xs, q);
      if p(xs[0]) {
        assert a[0] == b[0] && a[1..] == Filter(xs[1..], p) && b[1..] == Filter(xs[1..], q);
      } else if q(xs[0]) {
        assert a == Filter(xs[1..], p) && b[1..] == Filter(xs[1..], q);
        SubsequenceDropHead(a, b);
      } else {
        assert a == Filter(xs[1..], p) && b == Filter(xs[1..], q);
      }
    }
  }

  /** A subsequence of the tail is a subsequence of the whole. */
  lemma SubsequenceDropHead<T>(a: seq<T>, b: seq<T>)
    requires b != [] && IsSubsequence(a, b[1..])
    ensures IsSubsequence(a, b)
  {
  }

  /** The index `findIndex` would report, or `|xs|` when nothing matches. */
  function FirstIndex<T>(xs: seq<T>, p: T -> bool): (i: nat)
    ensures i <= |xs|
    ensures i < |xs| ==> p(xs[i])
    ensures forall j :: 0 <= j < i ==> !p(xs[j])
  {
    if xs == [] then 0 else if p(xs[0]) then 0 else 1 + FirstIndex(xs[1..], p)
  }

  /** `xs.find(p)`: the first element satisfying `p`, if any. */
  function FindFirst<T>(xs: seq<T>, p: T -> bool): (r: Option<T>)
    ensures r.None? <==> forall j :: 0 <= j < |xs| ==> !p(xs[j])
    ensures r.Some? ==> FirstIndex(xs, p) < |xs| && r.value == xs[FirstIndex(xs, p)] && p(r.value)
  {
    var i := FirstIndex(xs, p);
    if i < |xs| then Some(xs[i]) else None
  }

  /** `xs.some(x => key(x) === k)`. */
  predicate HasKey<T, K(==)>(xs: seq<T>, key: T -> K, k: K) {
    exists i :: 0 <= i < |xs| && key(xs[i]) == k
  }

  /** No two entries share a key. */
  ghost predicate DistinctKeys<T, K>(xs: seq<T>, key: T -> K) {
    forall i, j :: 0 <= i < j < |xs| ==> key(xs[i]) != key(xs[j])
  }

  /** `xs.filter(x => key(x) !== k)`. */
  function RemoveKey<T(!new), K(==)>(xs: seq<T>, key: T -> K, k: K): (r: seq<T>)
    ensures !HasKey(r, key, k)
    ensures IsSubsequence(r, xs)
    ensures forall x :: multiset(r)[x] == if key(x) == k then 0 else multiset(xs)[x]
  {
    var r := Filter(xs, x => key(x) != k);
    FilterIsSubsequence(xs, x => key(x) != k);
    forall x ensures multiset(r)[x] == if key(x) == k then 0 else multiset(xs)[x] {
      FilterCount(xs, x => key(x) != k, x);
    }
    assert forall i :: 0 <= i < |r| ==> r[i] in r;
    r
  }

  /** `xs.map(x => key(x) === k ? v : x)`. */
  function ReplaceKey<T, K(==)>(xs: seq<T>, key: T -> K, k: K, v: T): (r: seq<T>)
    ensures |r| == |xs|
    ensures forall i :: 0 <= i < |xs| ==> r[i] == if key(xs[i]) == k then v else xs[i]
  {
    seq(|xs|, i requires 0 <= i < |xs| => if key(xs[i]) == k then v else xs[i])
  }

  /** Appending an entry whose key is not yet present keeps keys distinct. */
  lemma AppendFreshKey<T, K>(xs: seq<T>, key: T -> K, x: T)
    requires DistinctKeys(xs, key) && !HasKey(xs, key, key(x))
    ensures DistinctKeys(xs + [x], key)
  {
    var ys := xs + [x];
    forall i, j | 0 <= i < j < |ys| ensures key(ys[i]) != key(ys[j]) {
      if j == |xs| {
        assert ys[i] == xs[i];
      }
    }
  }

  lemma {:induction false} SubsequenceIndices<T>(a: seq<T>, b: seq<T>, i: nat, j: nat)
    requires IsSubsequence(a, b) && i < j < |a|
    ensures exists i', j' :: 0 <= i' < j' < |b| && a[i] == b[i'] && a[j] == b[j']
    decreases |b|
  {
    if a[0] == b[0] && IsSubsequence(a[1..], b[1..]) {
      if i == 0 {
        SubsequenceMember(a[1..], b[1..], j - 1);
        var j' :| 0 <= j' < |b| - 1 && a[1..][j - 1] == b[1..][j'];
        assert a[j] == b[j' + 1];
      } else {
        SubsequenceIndices(a[1..], b[1..], i - 1, j - 1);
        var i', j' :| 0 <= i' < j' < |b| - 1 && a[1..][i - 1] == b[1..][i'] && a[1..][j - 1] == b[1..][j'];
        assert a[i] == b[i' + 1] && a[j] == b[j' + 1];
      }
    } else {
      SubsequenceIndices(a, b[1..], i, j);
      var i', j' :| 0 <= i' < j' < |b| - 1 && a[i] == b[1..][i'] && a[j] == b[1..][j'];
      assert a[i] == b[i' + 1] && a[j] == b[j' + 1];
    }
  }

  lemma {:induction false} SubsequenceMember<T>(a: seq<T>, b: seq<T>, i: nat)
    requires IsSubsequence(a, b) && i < |a|
    ensures exists i' :: 0 <= i' < |b| && a[i] == b[i']
    decreases |b|
  {
    if a[0] == b[0] && IsSubsequence(a[1..], b[1..]) {
      if i > 0 {
        SubsequenceMember(a[1..], b[1..], i - 1);
        var i' :| 0 <= i' < |b| - 1 && a[1..][i - 1] == b[1..][i'];
        assert a[i] == b[i' + 1];
      } else {
        assert a[i] == b[0];
      }
    } else {
      SubsequenceMember(a, b[1..], i);
      var i' :| 0 <= i' < |b| - 1 && a[i] == b[1..][i'];
      assert a[i] == b[i' + 1];
    }
  }

  /** Keeping a subsequence of entries with distinct keys keeps them distinct. */
  lemma SubsequenceKeepsDistinct<T, K>(a: seq<T>, b: seq<T>, key: T -> K)
    requires IsSubsequence(a, b) && DistinctKeys(b, key)
    ensures DistinctKeys(a, key)
  {
    forall i, j | 0 <= i < j < |a| ensures key(a[i]) != key(a[j]) {
      SubsequenceIndices(a, b, i, j);
    }
  }
}
