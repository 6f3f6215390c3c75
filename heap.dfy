/**
 * An array-backed binary min-heap: the class `Heap` of heap/heap.js.
 *
 * The JavaScript class keeps a growable array `this.heap` and a comparator
 * whose default is `(a, b) => a - b`.  Here the elements are integers and
 * `comp(a, b) < 0` is `a < b`.  The array is a `seq<int>` field that the
 * methods reassign: element swaps, `push` and `pop` all rewrite it.
 */
module BinaryHeap {

  import opened Options

  /** Index of the parent of slot `c` (`Math.floor((c - 1) / 2)` for c > 0). */
  function Parent(c: nat): (p: nat)
    requires c > 0
    ensures p < c
    ensures c == 2 * p + 1 || c == 2 * p + 2
  {
    (c - 1) / 2
  }

  /** Heap order: no element is smaller than its parent. */
  ghost predicate HeapOrdered(s: seq<int>)
  {
    forall c :: 0 < c < |s| ==> s[Parent(c)] <= s[c]
  }

  /** Every parent/child edge whose parent index lies strictly above `lo` is ordered. */
  ghost predicate OrderedAbove(s: seq<int>, lo: int)
  {
    forall c :: 0 < c < |s| && Parent(c) > lo ==> s[Parent(c)] <= s[c]
  }

  /**
   * The heap order holds except on the edge from `i` to its parent; and the
   * parent of `i` is still no larger than the children of `i`.  This is the
   * state `siftUp(i)` repairs.
   */
  ghost predicate OrderedExceptUp(s: seq<int>, i: nat)
  {
    && (forall c :: 0 < c < |s| && c != i ==> s[Parent(c)] <= s[c])
    && (0 < i < |s| ==> forall c :: 0 < c < |s| && Parent(c) == i ==> s[Parent(i)] <= s[c])
  }

  /** `k` is `a` or lies in the subtree below `a`. */
  ghost predicate Descendant(k: nat, a: nat)
    decreases k
  {
    k == a || (k > a && Descendant(Parent(k), a))
  }

  /** In a heap every element is bounded below by each of its ancestors. */
  lemma {:induction false} AncestorIsSmaller(s: seq<int>, k: nat, a: nat)
    requires HeapOrdered(s)
    requires k < |s| && Descendant(k, a)
    ensures s[a] <= s[k]
    decreases k
  {
    if k != a {
      AncestorIsSmaller(s, Parent(k), a);
    }
  }

  /** Slot 0 is an ancestor of every slot. */
  lemma {:induction false} RootIsAncestor(k: nat)
    ensures Descendant(k, 0)
    decreases k
  {
    if k > 0 {
      RootIsAncestor(Parent(k));
    }
  }

  /** The root of a non-empty heap is its minimum. */
  lemma RootIsMinimum(s: seq<int>)
    requires HeapOrdered(s) && |s| > 0
    ensures forall k :: 0 <= k < |s| ==> s[0] <= s[k]
  {
    forall k | 0 <= k < |s|
      ensures s[0] <= s[k]
    {
      RootIsAncestor(k);
      AncestorIsSmaller(s, k, 0);
    }
  }

  /**
   * Dropping the last slot and writing it over the root keeps every edge
   * below the root ordered and removes exactly the old root.
   */
  lemma LastToRoot(s: seq<int>)
    requires HeapOrdered(s) && |s| >= 2
    ensures var t := s[..|s| - 1][0 := s[|s| - 1]];
      && |t| == |s| - 1
      && OrderedAbove(t, 0)
      && multiset(t) == multiset(s) - multiset{s[0]}
  {
    var t := s[..|s| - 1][0 := s[|s| - 1]];
    assert s == [s[0]] + s[1..|s| - 1] + [s[|s| - 1]];
    assert t == [s[|s| - 1]] + s[1..|s| - 1];
  }

  /** Bottom-up: once every edge is ordered above -1 the whole array is a heap. */
  lemma OrderedAboveAll(s: seq<int>)
    requires OrderedAbove(s, -1)
    ensures HeapOrdered(s)
  {
  }

  /** `s` with slots `i` and `j` exchanged. */
  function Swap(s: seq<int>, i: nat, j: nat): (r: seq<int>)
    requires i < |s| && j < |s|
    ensures |r| == |s| && r[i] == s[j] && r[j] == s[i]
    ensures forall k :: 0 <= k < |s| && k != i && k != j ==> r[k] == s[k]
    ensures multiset(r) == multiset(s)
  {
    s[i := s[j]][j := s[i]]
  }

  /**
   * The state inside `siftDown(i0)` with the moving element at slot `i`:
   * every edge whose parent index is `i0` or above is ordered except those
   * leaving `i`, and the parent of `i` is no larger than the children of `i`.
   */
  ghost predicate SiftingDown(s: seq<int>, i0: nat, i: nat)
  {
    && i0 <= i
    && (i != i0 ==> i > 0 && Parent(i) >= i0)
    && (forall c :: 0 < c < |s| && Parent(c) >= i0 && Parent(c) != i ==> s[Parent(c)] <= s[c])
    && (i != i0 ==> forall c :: 0 < c < |s| && Parent(c) == i ==> s[Parent(i)] <= s[c])
  }

  /**
   * On entry to `siftDown(i0)`, when every edge whose parent index is above
   * `i0` is ordered, anywhere in the array, the sift-down state holds at `i0`.
   */
  lemma SiftingDownStarts(s: seq<int>, i0: nat)
    requires OrderedAbove(s, i0)
    ensures SiftingDown(s, i0, i0)
  {
  }

  /** Swapping slot `i` with its smaller child `m` moves the only defect down to `m`. */
  lemma SiftingDownStep(s: seq<int>, i0: nat, i: nat, m: nat)
    requires SiftingDown(s, i0, i)
    requires m < |s| && (m == 2 * i + 1 || m == 2 * i + 2) && s[m] < s[i]
    requires 2 * i + 1 < |s| ==> s[m] <= s[2 * i + 1]
    requires 2 * i + 2 < |s| ==> s[m] <= s[2 * i + 2]
    ensures SiftingDown(Swap(s, i, m), i0, m)
  {
    var t := Swap(s, i, m);
    assert Parent(m) == i;
    forall c | 0 < c < |t| && Parent(c) >= i0 && Parent(c) != m
      ensures t[Parent(c)] <= t[c]
    {
      if Parent(c) == i {
      } else if c == i {
      } else {
      }
    }
  }

  /** When slot `i` is no larger than its children, the sift-down is complete. */
  lemma SiftingDownDone(s: seq<int>, i0: nat, i: nat)
    requires SiftingDown(s, i0, i)
    requires 2 * i + 1 < |s| ==> s[i] <= s[2 * i + 1]
    requires 2 * i + 2 < |s| ==> s[i] <= s[2 * i + 2]
    ensures OrderedAbove(s, i0 - 1)
  {
  }

  /** Swapping slot `i` with its larger parent moves the only defect up to the parent. */
  lemma SiftingUpStep(s: seq<int>, i: nat)
    requires 0 < i < |s| && OrderedExceptUp(s, i) && s[i] < s[Parent(i)]
    ensures OrderedExceptUp(Swap(s, i, Parent(i)), Parent(i))
  {
  }

  /** When slot `i` is no smaller than its parent (or is the root), the sift-up is complete. */
  lemma SiftingUpDone(s: seq<int>, i: nat)
    requires OrderedExceptUp(s, i)
    requires 0 < i < |s| ==> s[Parent(i)] <= s[i]
    ensures HeapOrdered(s)
  {
  }

  /** JavaScript array slots; reading past the end gives `undefined`. */
  datatype Slot = Undefined | Num(n: int)

  /**
   * `pop()` exactly as written, on a JavaScript array (before `siftDown(0)`):
   * for length 1 the element is popped; otherwise `min = heap[0]`, the last
   * slot is popped and written to slot 0.  An empty array pops `undefined`,
   * and the write to slot 0 then gives the array length 1 again.
   */
  function PopAsWritten(s: seq<Slot>): (r: (seq<Slot>, Slot))
    ensures r.1 == if |s| == 0 then Undefined else s[0]
    ensures |r.0| == if |s| == 0 then 1 else |s| - 1
  {
    if |s| == 1 then ([], s[0])
    else
      var min := if |s| > 0 then s[0] else Undefined;
      var last := if |s| > 0 then s[|s| - 1] else Undefined;
      var rest := if |s| > 0 then s[..|s| - 1] else [];
      if |rest| > 0 then (rest[0 := last], min) else ([last], min)
  }

  /** On a non-empty array the as-written pop returns slot 0 and moves the last slot to the front. */
  lemma PopAsWrittenNonEmpty(s: seq<Slot>)
    requires |s| > 0
    ensures PopAsWritten(s).1 == s[0]
    ensures |PopAsWritten(s).0| == |s| - 1
    ensures |s| > 1 ==> PopAsWritten(s).0 == [s[|s| - 1]] + s[1..|s| - 1]
  {
    if |s| > 1 {
      assert PopAsWritten(s).0 == s[..|s| - 1][0 := s[|s| - 1]];
    }
  }

  /** Popping an empty array leaves one `undefined` slot behind, so the heap is no longer empty. */
  lemma PopAsWrittenOnEmpty()
    ensures PopAsWritten([]) == ([Undefined], Undefined)
    ensures |PopAsWritten([]).0| != 0
  {
  }

  class Heap {
    var heap: seq<int>

    /** The object invariant established by the constructor: heap order. */
    ghost predicate Valid()
      reads this
    {
      HeapOrdered(heap)
    }

    /** `empty()`: the heap holds no element. */
    predicate Empty()
      reads this
      ensures Empty() <==> multiset(heap) == multiset{}
    {
      |heap| == 0
    }

    /**
     * The constructor: takes the elements and heapifies them bottom-up by
     * calling `siftDown(i)` for i from the last index down to 0.
     */
    constructor (arr: seq<int>)
      ensures Valid()
      ensures |heap| == |arr| && multiset(heap) == multiset(arr)
    {
      heap := arr;
      new;
      var i: int := |arr| - 1;
      while i >= 0
        invariant -1 <= i < |arr| || (arr == [] && i == -1)
        invariant |heap| == |arr| && multiset(heap) == multiset(arr)
        invariant OrderedAbove(heap, i)
      {
        SiftDown(i);
        i := i - 1;
      }
      OrderedAboveAll(heap);
    }

    /**
     * `siftDown(i)`: while the smaller child of slot `i` is smaller than
     * slot `i`, swap them and continue at that child.  If every edge whose
     * parent index is above `i` was ordered, anywhere in the array and not
     * only below `i`, afterwards every edge whose parent index is `i` or
     * above is ordered.
     */
    method SiftDown(i0: nat)
      modifies this
      ensures |heap| == old(|heap|) && multiset(heap) == old(multiset(heap))
      ensures old(OrderedAbove(heap, i0)) ==> OrderedAbove(heap, i0 - 1)
    {
      ghost var ordered := OrderedAbove(heap, i0);
      if ordered {
        SiftingDownStarts(heap, i0);
      }
      var i := i0;
      while i < |heap|
        invariant |heap| == old(|heap|) && multiset(heap) == old(multiset(heap))
        invariant ordered ==> SiftingDown(heap, i0, i)
        decreases |heap| - i
      {
        var left := 2 * i + 1;
        var right := left + 1;
        var min := i;
        if left < |heap| && heap[left] < heap[min] {
          min := left;
        }
        if right < |heap| && heap[right] < heap[min] {
          min := right;
        }
        if min != i {
          if ordered {
            SiftingDownStep(heap, i0, i, min);
          }
          heap := Swap(heap, i, min);
          i := min;
        } else {
          if ordered {
            SiftingDownDone(heap, i0, i);
          }
          return;
        }
      }
      if ordered {
        SiftingDownDone(heap, i0, i);
      }
    }

    /**
     * `siftUp(i)`: while slot `i` is smaller than its parent, swap them and
     * continue at the parent.  A slot past the end reads as `undefined`, and
     * comparing with it is false, so the loop stops there.  If every edge
     * except the one from `i` to its parent was ordered, and the parent of
     * `i` was no larger than the children of `i`, the array is a heap
     * afterwards.
     */
    method SiftUp(i0: nat)
      modifies this
      ensures |heap| == old(|heap|) && multiset(heap) == old(multiset(heap))
      ensures old(OrderedExceptUp(heap, i0)) ==> HeapOrdered(heap)
    {
      ghost var ordered := OrderedExceptUp(heap, i0);
      var i: nat := i0;
      while i > 0
        invariant |heap| == old(|heap|) && multiset(heap) == old(multiset(heap))
        invariant ordered ==> OrderedExceptUp(heap, i)
      {
        var parent := Parent(i);
        if i < |heap| && heap[i] < heap[parent] {
          if ordered {
            SiftingUpStep(heap, i);
          }
          heap := Swap(heap, i, parent);
          i := parent;
        } else {
          if ordered {
            SiftingUpDone(heap, i);
          }
          return;
        }
      }
      if ordered {
        SiftingUpDone(heap, i);
      }
    }

    /** `push(value)`: append, then sift the new last slot up. */
    method Push(v: int)
      requires Valid()
      modifies this
      ensures Valid()
      ensures |heap| == old(|heap|) + 1
      ensures multiset(heap) == old(multiset(heap)) + multiset{v}
    {
      heap := heap + [v];
      SiftUp(|heap| - 1);
    }

    /**
     * `pop()`: a one-element heap is simply emptied; otherwise the root is
     * replaced by the last element, which is sifted down.  The root, which
     * is the minimum, is returned.  On an empty heap nothing is removed and
     * `None` (JavaScript's `undefined`) is returned.
     */
    method Pop() returns (r: Option<int>)
      requires Valid()
      modifies this
      ensures Valid()
      ensures old(|heap|) == 0 ==> r == None && heap == []
      ensures old(|heap|) > 0 ==>
        && r == Some(old(heap[0]))
        && (forall k :: 0 <= k < old(|heap|) ==> r.value <= old(heap[k]))
        && |heap| == old(|heap|) - 1
        && multiset(heap) == old(multiset(heap)) - multiset{r.value}
    {
      if |heap| == 0 {
        return None;
      }
      RootIsMinimum(heap);
      if |heap| == 1 {
        r := Some(heap[0]);
        heap := [];
      } else {
        var min := heap[0];
        LastToRoot(heap);
        heap := heap[..|heap| - 1][0 := heap[|heap| - 1]];
        SiftDown(0);
        OrderedAboveAll(heap);
        r := Some(min);
      }
    }
  }
}
