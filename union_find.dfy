/** The disjoint-set primitive the percolation grid delegates to
    (`WeightedQuickUnionUF` in the Java code). Only its contract is modelled:
    every element carries the label of its class representative
    (quick-find), so `find` is a lookup, `connected` is label equality and
    `union` relabels one class. Weighting (union by size) changes the cost
    of these operations, not the partition they maintain. */
module UnionFind {

  /** Labels are canonical when every label is an element whose own label
      is itself: each class has exactly one representative. */
  ghost predicate Canonical(labels: seq<int>) {
    forall x :: 0 <= x < |labels| ==> 0 <= labels[x] < |labels| && labels[labels[x]] == labels[x]
  }

  /** `x` and `y` are elements of the universe and lie in one class. */
  predicate Same(labels: seq<int>, x: int, y: int) {
    0 <= x < |labels| && 0 <= y < |labels| && labels[x] == labels[y]
  }

  /** The partition of `n` singletons. */
  function Singletons(n: nat): (labels: seq<int>)
    ensures |labels| == n && Canonical(labels)
    ensures forall x, y :: Same(labels, x, y) <==> 0 <= x < n && x == y
  {
    seq(n, x => x)
  }

  /** `labels` with every label `from` replaced by `to`. */
  function Relabel(labels: seq<int>, from: int, to: int): (r: seq<int>)
    ensures |r| == |labels|
    decreases |labels|
  {
    if labels == [] then []
    else
      var last := labels[|labels| - 1];
      Relabel(labels[..|labels| - 1], from, to) + [if last == from then to else last]
  }

  lemma {:induction false} RelabelAt(labels: seq<int>, from: int, to: int, x: int)
    requires 0 <= x < |labels|
    ensures Relabel(labels, from, to)[x] == if labels[x] == from then to else labels[x]
    decreases |labels|
  {
    if x < |labels| - 1 {
      RelabelAt(labels[..|labels| - 1], from, to, x);
    }
  }

  /** `Relabel` in closed form. */
  lemma RelabelAll(labels: seq<int>, from: int, to: int)
    ensures Relabel(labels, from, to) == seq(|labels|, x requires 0 <= x < |labels| => if labels[x] == from then to else labels[x])
  {
    forall x | 0 <= x < |labels|
      ensures Relabel(labels, from, to)[x] == if labels[x] == from then to else labels[x]
    {
      RelabelAt(labels, from, to, x);
    }
  }

  /** The labels after `union(p, q)`: every element of the class of `p`
      takes the label of `q`. */
  function Merge(labels: seq<int>, p: int, q: int): (r: seq<int>)
    requires 0 <= p < |labels| && 0 <= q < |labels|
    ensures |r| == |labels| && Same(r, p, q)
  {
    RelabelAt(labels, labels[p], labels[q], p);
    RelabelAt(labels, labels[p], labels[q], q);
    Relabel(labels, labels[p], labels[q])
  }

  /** Merging keeps one representative per class. */
  lemma MergeCanonical(labels: seq<int>, p: int, q: int)
    requires 0 <= p < |labels| && 0 <= q < |labels|
    requires Canonical(labels)
    ensures Canonical(Merge(labels, p, q))
  {
    var r := Merge(labels, p, q);
    forall x | 0 <= x < |r|
      ensures 0 <= r[x] < |r| && r[r[x]] == r[x]
    {
      RelabelAt(labels, labels[p], labels[q], x);
      RelabelAt(labels, labels[p], labels[q], r[x]);
    }
  }

  /** `union(p, q)` merges the class of `p` with the class of `q` and
      relates no other pair: two elements are connected afterwards exactly
      when they were connected before or one was in the class of `p` and
      the other in the class of `q`. */
  lemma MergeSame(labels: seq<int>, p: int, q: int)
    requires 0 <= p < |labels| && 0 <= q < |labels|
    ensures forall x, y :: Same(Merge(labels, p, q), x, y) <==>
      Same(labels, x, y) || (Same(labels, x, p) && Same(labels, y, q)) || (Same(labels, x, q) && Same(labels, y, p))
  {
    forall x, y
      ensures Same(Merge(labels, p, q), x, y) <==>
        Same(labels, x, y) || (Same(labels, x, p) && Same(labels, y, q)) || (Same(labels, x, q) && Same(labels, y, p))
    {
      if 0 <= x < |labels| && 0 <= y < |labels| {
        RelabelAt(labels, labels[p], labels[q], x);
        RelabelAt(labels, labels[p], labels[q], y);
      }
    }
  }

  /** Merging two elements that are already in one class changes nothing. */
  lemma MergeConnected(labels: seq<int>, p: int, q: int)
    requires 0 <= p < |labels| && 0 <= q < |labels|
    requires Same(labels, p, q)
    ensures Merge(labels, p, q) == labels
  {
    var r := Merge(labels, p, q);
    forall x | 0 <= x < |labels|
      ensures r[x] == labels[x]
    {
      RelabelAt(labels, labels[p], labels[q], x);
    }
  }

  /** The union-find object: one label per element, in a fixed-size array. */
  class QuickFindUF {
    const id: array<int>

    ghost predicate Valid()
      reads id
    {
      Canonical(id[..])
    }

    /** `new WeightedQuickUnionUF(n)`: `n` elements, each in its own class. */
    constructor (n: nat)
      ensures Valid() && fresh(id)
      ensures id[..] == Singletons(n)
    {
      var a := new int[n];
      var i := 0;
      while i < n
        invariant 0 <= i <= n
        invariant forall k :: 0 <= k < i ==> a[k] == k
      {
        a[i] := i;
        i := i + 1;
      }
      id := a;
    }

    /** `find(p)`: the representative of the class of `p`. */
    method Find(p: int) returns (root: int)
      requires Valid() && 0 <= p < id.Length
      ensures Same(id[..], root, p) && id[root] == root
    {
      root := id[p];
    }

    /** `connected(p, q)`: whether `p` and `q` lie in one class. */
    method Connected(p: int, q: int) returns (b: bool)
      requires Valid() && 0 <= p < id.Length && 0 <= q < id.Length
      ensures b <==> Same(id[..], p, q)
    {
      b := id[p] == id[q];
    }

    /** `union(p, q)`: every element labelled like `p` takes the label of `q`. */
    method Union(p: int, q: int)
      requires Valid() && 0 <= p < id.Length && 0 <= q < id.Length
      modifies id
      ensures Valid()
      ensures id[..] == Merge(old(id[..]), p, q)
    {
      MergeCanonical(id[..], p, q);
      var pid, qid := id[p], id[q];
      var i := 0;
      while i < id.Length
        invariant 0 <= i <= id.Length
        invariant forall k :: 0 <= k < i ==> id[k] == if old(id[k]) == pid then qid else old(id[k])
        invariant forall k :: i <= k < id.Length ==> id[k] == old(id[k])
      {
        if id[i] == pid {
          id[i] := qid;
        }
        i := i + 1;
      }
      forall k | 0 <= k < id.Length
        ensures id[k] == Merge(old(id[..]), p, q)[k]
      {
        RelabelAt(old(id[..]), pid, qid, k);
      }
    }
  }
}
