/** Selection and ordering over key lists, with Python's tie-breaking.

    Python evaluates every key before it selects or sorts, so these functions
    take the list of keys and answer with positions in it. `min` and `max`
    return the first extreme element they meet; `sorted` and `list.sort` are
    stable, also with `reverse=True`, which therefore equals an ascending sort
    on negated keys. */
module Ordering {

  /** Python's `min(xs, key=...)`: the position of the first minimal key. */
  function FirstMinIndex(keys: seq<real>): (r: nat)
    requires |keys| > 0
    ensures r < |keys|
    ensures forall j :: 0 <= j < |keys| ==> keys[r] <= keys[j]
    ensures forall j :: 0 <= j < r ==> keys[j] > keys[r]
    decreases |keys|
  {
    if |keys| == 1 then 0
    else
      var m := FirstMinIndex(keys[..|keys| - 1]);
      if keys[|keys| - 1] < keys[m] then |keys| - 1 else m
  }

  /** Python's `max(xs, key=...)`: the position of the first maximal key. */
  function FirstMaxIndex(keys: seq<real>): (r: nat)
    requires |keys| > 0
    ensures r < |keys|
    ensures forall j :: 0 <= j < |keys| ==> keys[j] <= keys[r]
    ensures forall j :: 0 <= j < r ==> keys[j] < keys[r]
    decreases |keys|
  {
    if |keys| == 1 then 0
    else
      var m := FirstMaxIndex(keys[..|keys| - 1]);
      if keys[|keys| - 1] > keys[m] then |keys| - 1 else m
  }

  function Negated(keys: seq<real>): (r: seq<real>)
    ensures |r| == |keys|
    ensures forall j :: 0 <= j < |keys| ==> r[j] == -keys[j]
  {
    seq(|keys|, j requires 0 <= j < |keys| => -keys[j])
  }

  /** Position `a` comes before position `b` in a stable ascending sort. */
  predicate Precedes(keys: seq<real>, a: nat, b: nat)
    requires a < |keys| && b < |keys|
  {
    keys[a] < keys[b] || (keys[a] == keys[b] && a < b)
  }

  /** `r` lists positions of `keys` in stable ascending order, each once. */
  predicate StablySorted(keys: seq<real>, r: seq<nat>)
  {
    && (forall p :: 0 <= p < |r| ==> r[p] < |keys|)
    && (forall p, q :: 0 <= p < q < |r| ==> Precedes(keys, r[p], r[q]))
  }

  /** Every listed position is below `n`. */
  predicate InRange(pos: seq<nat>, n: nat)
  {
    forall k :: 0 <= k < |pos| ==> pos[k] < n
  }

  /** Inserts position `i` in front of the first position it precedes. */
  function InsertPosition(keys: seq<real>, sorted: seq<nat>, i: nat): (r: seq<nat>)
    requires i < |keys| && InRange(sorted, |keys|)
    ensures |r| == |sorted| + 1
    ensures multiset(r) == multiset(sorted) + multiset{i}
    ensures InRange(r, |keys|)
    decreases |sorted|
  {
    if sorted == [] then [i]
    else if Precedes(keys, i, sorted[0]) then [i] + sorted
    else
      assert sorted == [sorted[0]] + sorted[1..];
      [sorted[0]] + InsertPosition(keys, sorted[1..], i)
  }

  /** Insertion keeps a stably sorted list stably sorted. */
  lemma {:induction false} InsertPositionSorted(keys: seq<real>, sorted: seq<nat>, i: nat)
    requires i < |keys| && StablySorted(keys, sorted) && i !in sorted
    ensures StablySorted(keys, InsertPosition(keys, sorted, i))
    decreases |sorted|
  {
    if sorted == [] {
      return;
    }
    var r := InsertPosition(keys, sorted, i);
    if Precedes(keys, i, sorted[0]) {
      assert r == [i] + sorted;
      forall p, q | 0 <= p < q < |r| ensures Precedes(keys, r[p], r[q]) {
        assert r[q] == sorted[q - 1];
        if p == 0 {
          if q > 1 {
            assert Precedes(keys, sorted[0], sorted[q - 1]);
          }
        } else {
          assert r[p] == sorted[p - 1];
        }
      }
    } else {
      var rest := InsertPosition(keys, sorted[1..], i);
      assert r == [sorted[0]] + rest;
      InsertPositionSorted(keys, sorted[1..], i);
      HeadPrecedesInsertion(keys, sorted, i);
      forall p, q | 0 <= p < q < |r| ensures Precedes(keys, r[p], r[q]) {
        assert r[q] == rest[q - 1];
        if p > 0 {
          assert r[p] == rest[p - 1];
          assert Precedes(keys, rest[p - 1], rest[q - 1]);
        } else {
          assert Precedes(keys, sorted[0], rest[q - 1]);
        }
      }
    }
  }

  /** When `i` does not go in front, the head stays in front of everything
      inserted behind it. */
  lemma HeadPrecedesInsertion(keys: seq<real>, sorted: seq<nat>, i: nat)
    requires i < |keys| && StablySorted(keys, sorted) && i !in sorted
    requires sorted != [] && !Precedes(keys, i, sorted[0])
    ensures forall p :: 0 <= p < |sorted| ==> Precedes(keys, sorted[0], InsertPosition(keys, sorted[1..], i)[p])
  {
    var tail := sorted[1..];
    var rest := InsertPosition(keys, tail, i);
    forall p | 0 <= p < |rest| ensures Precedes(keys, sorted[0], rest[p]) {
      assert rest[p] in multiset(rest);
      if rest[p] != i {
        assert rest[p] in multiset(tail);
        var q :| 0 <= q < |tail| && tail[q] == rest[p];
        assert sorted[q + 1] == rest[p];
      }
    }
  }

  /** Python's stable `sorted(xs, key=...)` of the elements at the listed
      positions, as positions (insertion sort). */
  function SortList(keys: seq<real>, pos: seq<nat>): (r: seq<nat>)
    requires InRange(pos, |keys|)
    ensures |r| == |pos|
    ensures multiset(r) == multiset(pos)
    ensures InRange(r, |keys|)
    decreases |pos|
  {
    if pos == [] then []
    else
      var n := |pos| - 1;
      assert pos == pos[..n] + [pos[n]];
      InsertPosition(keys, SortList(keys, pos[..n]), pos[n])
  }

  /** Sorting distinct positions gives a stably sorted list. */
  lemma {:induction false} SortListSorted(keys: seq<real>, pos: seq<nat>)
    requires InRange(pos, |keys|)
    requires forall a, b :: 0 <= a < b < |pos| ==> pos[a] != pos[b]
    ensures StablySorted(keys, SortList(keys, pos))
    decreases |pos|
  {
    if pos != [] {
      var n := |pos| - 1;
      var front := SortList(keys, pos[..n]);
      SortListSorted(keys, pos[..n]);
      forall k | 0 <= k < |front| ensures front[k] != pos[n] {
        assert front[k] in multiset(pos[..n]);
        var j :| 0 <= j < n && pos[..n][j] == front[k];
        assert pos[j] == front[k];
      }
      InsertPositionSorted(keys, front, pos[n]);
    }
  }

  /** The positions 0, 1, ..., n - 1 in order. */
  function Positions(n: nat): (r: seq<nat>)
    ensures |r| == n
    ensures forall p :: 0 <= p < n ==> r[p] == p
  {
    seq(n, p requires 0 <= p < n => p)
  }

  /** Python's stable `sorted(xs, key=...)`, as the positions of `xs` in sorted order. */
  function SortedPositions(keys: seq<real>): (r: seq<nat>)
    ensures |r| == |keys|
    ensures multiset(r) == multiset(Positions(|keys|))
  {
    SortList(keys, Positions(|keys|))
  }

  /** Every position occurs in a sorted result, in stable order. */
  lemma SortedPositionsIsPermutation(keys: seq<real>)
    ensures var r := SortedPositions(keys);
      && StablySorted(keys, r)
      && (forall j :: 0 <= j < |keys| ==> j in r)
  {
    var r := SortedPositions(keys);
    SortListSorted(keys, Positions(|keys|));
    forall j | 0 <= j < |keys| ensures j in r {
      assert Positions(|keys|)[j] == j;
      assert j in multiset(Positions(|keys|));
      assert j in multiset(r);
    }
  }

  /** The head of a stable sort is what `min` picks: the first minimal key. */
  lemma {:induction false} SortedHeadIsFirstMin(keys: seq<real>)
    requires |keys| > 0
    ensures SortedPositions(keys)[0] == FirstMinIndex(keys)
  {
    var r := SortedPositions(keys);
    var m := FirstMinIndex(keys);
    SortedPositionsIsPermutation(keys);
    assert m in r;
    var q :| 0 <= q < |r| && r[q] == m;
    assert q != 0 ==> Precedes(keys, r[0], r[q]);
  }

  /** Sorting on negated keys puts first what `max` picks: the first maximal key. */
  lemma SortedNegatedHeadIsFirstMax(keys: seq<real>)
    requires |keys| > 0
    ensures SortedPositions(Negated(keys))[0] == FirstMaxIndex(keys)
  {
    var neg := Negated(keys);
    SortedHeadIsFirstMin(neg);
    var a := FirstMinIndex(neg);
    var b := FirstMaxIndex(keys);
    assert neg[a] == neg[b];
  }

  /** The positions of `xs` whose element satisfies `p`, in list order:
      a Python list comprehension with an `if` filter. */
  function Where<T>(xs: seq<T>, p: T -> bool): (r: seq<nat>)
    ensures forall k :: 0 <= k < |r| ==> r[k] < |xs| && p(xs[r[k]])
    ensures forall j :: 0 <= j < |xs| && p(xs[j]) ==> j in r
    ensures forall a, b :: 0 <= a < b < |r| ==> r[a] < r[b]
    decreases |xs|
  {
    if xs == [] then []
    else
      var front := Where(xs[..|xs| - 1], p);
      if p(xs[|xs| - 1]) then front + [|xs| - 1] else front
  }

  /** The elements at the given positions, in the order the positions are listed. */
  lemma InRangePrefix(pos: seq<nat>, k: nat, n: nat)
    requires InRange(pos, n) && k <= |pos|
    ensures InRange(pos[..k], n)
  {
  }

  function Pick<T>(xs: seq<T>, pos: seq<nat>): (r: seq<T>)
    requires InRange(pos, |xs|)
    ensures |r| == |pos|
    ensures forall k :: 0 <= k < |pos| ==> r[k] == xs[pos[k]]
  {
    seq(|pos|, k requires 0 <= k < |pos| => xs[pos[k]])
  }

  lemma PickAppend<T>(xs: seq<T>, a: seq<nat>, b: seq<nat>)
    requires InRange(a, |xs|) && InRange(b, |xs|)
    ensures InRange(a + b, |xs|)
    ensures Pick(xs, a + b) == Pick(xs, a) + Pick(xs, b)
  {
  }

  lemma MultisetRemove<U>(a: seq<U>, b: seq<U>, x: U, k: nat)
    requires |a| > 0 && k < |b| && b[k] == x && a[|a|-1] == x
    requires multiset(a) == multiset(b)
    ensures multiset(a[..|a|-1]) == multiset(b[..k] + b[k+1..])
  {
    var a' := a[..|a| - 1];
    var b1, b2 := b[..k], b[k + 1..];
    assert a == a' + [x];
    assert b == b1 + [x] + b2;
    calc {
      multiset(a') + multiset{x};
      multiset(a);
      multiset(b);
      multiset(b1) + multiset{x} + multiset(b2);
      multiset(b1 + b2) + multiset{x};
    }
    forall y ensures multiset(a')[y] == multiset(b1 + b2)[y] {
      assert (multiset(a') + multiset{x})[y] == (multiset(b1 + b2) + multiset{x})[y];
    }
  }

  /** Taking position `k` out of the picked positions takes its element out. */
  lemma PickRemove<T>(xs: seq<T>, b: seq<nat>, k: nat)
    requires InRange(b, |xs|) && k < |b|
    ensures InRange(b[..k] + b[k + 1..], |xs|)
    ensures multiset(Pick(xs, b)) == multiset(Pick(xs, b[..k] + b[k + 1..])) + multiset{xs[b[k]]}
  {
    var b1, b2 := b[..k], b[k + 1..];
    assert b == b1 + [b[k]] + b2;
    assert InRange(b1, |xs|) && InRange(b2, |xs|) && InRange([b[k]], |xs|);
    PickAppend(xs, b1, b2);
    PickAppend(xs, b1, [b[k]]);
    PickAppend(xs, b1 + [b[k]], b2);
    assert Pick(xs, [b[k]]) == [xs[b[k]]];
  }

  /** Picking the same positions in another order gives the same elements,
      in another order. */
  lemma {:induction false} PickPermutation<T>(xs: seq<T>, a: seq<nat>, b: seq<nat>)
    requires InRange(a, |xs|) && InRange(b, |xs|)
    requires multiset(a) == multiset(b)
    ensures multiset(Pick(xs, a)) == multiset(Pick(xs, b))
    decreases |a|
  {
    if a != [] {
      var n := |a| - 1;
      var x := a[n];
      assert x in multiset(a);
      var k :| 0 <= k < |b| && b[k] == x;
      MultisetRemove(a, b, x, k);
      PickRemove(xs, a, n);
      assert a[..n] + a[n + 1..] == a[..n];
      PickRemove(xs, b, k);
      PickPermutation(xs, a[..n], b[..k] + b[k + 1..]);
    }
  }

  /** Picking every position in order gives the list back. */
  lemma PickAll<T>(xs: seq<T>)
    ensures InRange(Positions(|xs|), |xs|)
    ensures Pick(xs, Positions(|xs|)) == xs
  {
  }

  /** Python's stable `sorted` of a filtered sub-list, read back as positions
      of the full list: the listed positions, each as often as listed, and a
      position comes before another when its key is smaller, or equal with
      the position earlier in the list. */
  function SortedSubset(keys: seq<real>, pos: seq<nat>): (r: seq<nat>)
    requires InRange(pos, |keys|)
    requires forall a, b :: 0 <= a < b < |pos| ==> pos[a] < pos[b]
    ensures multiset(r) == multiset(pos) && InRange(r, |keys|)
    ensures forall p, q :: 0 <= p < q < |r| ==> Precedes(keys, r[p], r[q])
  {
    SortListSorted(keys, pos);
    SortList(keys, pos)
  }

  /** Every listed position appears in the sorted sub-list, and only listed
      positions do. */
  lemma SortedSubsetMembers(keys: seq<real>, pos: seq<nat>)
    requires InRange(pos, |keys|)
    requires forall a, b :: 0 <= a < b < |pos| ==> pos[a] < pos[b]
    ensures var r := SortedSubset(keys, pos);
      && (forall k :: 0 <= k < |r| ==> r[k] in pos)
      && (forall k :: 0 <= k < |pos| ==> pos[k] in r)
  {
    var r := SortedSubset(keys, pos);
    forall k | 0 <= k < |r| ensures r[k] in pos {
      assert r[k] in multiset(pos);
    }
    forall k | 0 <= k < |pos| ensures pos[k] in r {
      assert pos[k] in multiset(r);
    }
  }

  /** `min` over a filtered sub-list, read back in positions of the full list:
      the chosen position has the least key among the listed positions, and
      every listed position before it has a strictly greater key. */
  lemma FirstMinAmongPositions(keys: seq<real>, pos: seq<nat>)
    requires |pos| > 0
    requires forall k :: 0 <= k < |pos| ==> pos[k] < |keys|
    requires forall a, b :: 0 <= a < b < |pos| ==> pos[a] < pos[b]
    ensures var t := pos[FirstMinIndex(Pick(keys, pos))];
      forall j :: j in pos ==> keys[t] <= keys[j] && (j < t ==> keys[j] > keys[t])
  {
    var m := FirstMinIndex(Pick(keys, pos));
    forall j | j in pos ensures keys[pos[m]] <= keys[j] && (j < pos[m] ==> keys[j] > keys[pos[m]]) {
      var k :| 0 <= k < |pos| && pos[k] == j;
      assert j < pos[m] ==> k < m;
    }
  }

  /** `max` over a filtered sub-list, read back in positions of the full list. */
  lemma FirstMaxAmongPositions(keys: seq<real>, pos: seq<nat>)
    requires |pos| > 0
    requires forall k :: 0 <= k < |pos| ==> pos[k] < |keys|
    requires forall a, b :: 0 <= a < b < |pos| ==> pos[a] < pos[b]
    ensures var t := pos[FirstMaxIndex(Pick(keys, pos))];
      forall j :: j in pos ==> keys[j] <= keys[t] && (j < t ==> keys[j] < keys[t])
  {
    var m := FirstMaxIndex(Pick(keys, pos));
    forall j | j in pos ensures keys[j] <= keys[pos[m]] && (j < pos[m] ==> keys[j] < keys[pos[m]]) {
      var k :| 0 <= k < |pos| && pos[k] == j;
      assert j < pos[m] ==> k < m;
    }
  }
  /** The head of a stable sort of listed positions is what `min` over the
      same positions picks. */
  lemma SortedSubsetHead(keys: seq<real>, pos: seq<nat>)
    requires |pos| > 0 && InRange(pos, |keys|)
    requires forall a, b :: 0 <= a < b < |pos| ==> pos[a] < pos[b]
    ensures |SortedSubset(keys, pos)| == |pos|
    ensures SortedSubset(keys, pos)[0] == pos[FirstMinIndex(Pick(keys, pos))]
  {
    var r := SortedSubset(keys, pos);
    assert |multiset(r)| == |multiset(pos)|;
    SortedSubsetMembers(keys, pos);
    forall j | j in pos ensures keys[r[0]] <= keys[j] && (j < r[0] ==> keys[r[0]] < keys[j]) {
      var k :| 0 <= k < |pos| && pos[k] == j;
      var q :| 0 <= q < |r| && r[q] == pos[k];
      if q > 0 {
        assert Precedes(keys, r[0], r[q]);
      }
    }
    FirstMinAmongPositions(keys, pos);
  }

  /** A list comprehension with an `if` filter over positions: those of
      `xs` that satisfy `p`, in list order. */
  function Filter(xs: seq<nat>, p: nat -> bool): (r: seq<nat>)
    ensures |r| <= |xs|
    ensures forall k :: 0 <= k < |r| ==> p(r[k])
    decreases |xs|
  {
    if xs == [] then []
    else
      var front := Filter(xs[..|xs| - 1], p);
      if p(xs[|xs| - 1]) then front + [xs[|xs| - 1]] else front
  }

  /** Filtering keeps each position that satisfies `p` as often as it
      occurs, and drops every other. */
  lemma {:induction false} FilterCounts(xs: seq<nat>, p: nat -> bool, x: int)
    ensures multiset(Filter(xs, p))[x] == if x >= 0 && p(x) then multiset(xs)[x] else 0
    decreases |xs|
  {
    if xs != [] {
      var n := |xs| - 1;
      FilterCounts(xs[..n], p, x);
      assert xs == xs[..n] + [xs[n]];
    }
  }

  /** Filtering two orderings of the same positions keeps the same positions. */
  lemma FilterPermutation(a: seq<nat>, b: seq<nat>, p: nat -> bool)
    requires multiset(a) == multiset(b)
    ensures multiset(Filter(a, p)) == multiset(Filter(b, p))
  {
    var fa, fb := multiset(Filter(a, p)), multiset(Filter(b, p));
    forall x: int ensures fa[x] == fb[x] {
      FilterCounts(a, p, x);
      FilterCounts(b, p, x);
    }
    assert fa == fb;
  }
}
