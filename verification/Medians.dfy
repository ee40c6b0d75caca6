/** Medians of windows of 11 block times and why sliding the window never lowers them. */
module Medians {
  import opened Sorting

  predicate Le(a: int, b: int) { a <= b }

  lemma LeIsTotal()
    ensures TotalOrder(Le)
  {
  }

  /** Number of elements below `v`. */
  function CountLess(s: seq<int>, v: int): nat {
    if s == [] then 0 else (if s[0] < v then 1 else 0) + CountLess(s[1..], v)
  }

  lemma {:induction false} CountAppend(a: seq<int>, b: seq<int>, v: int)
    ensures CountLess(a + b, v) == CountLess(a, v) + CountLess(b, v)
  {
    if a == [] {
      assert a + b == b;
    } else {
      assert a + b == [a[0]] + (a[1..] + b);
      CountAppend(a[1..], b, v);
    }
  }

  lemma {:induction false} CountInsert(x: int, s: seq<int>, v: int)
    ensures CountLess(Insert(Le, x, s), v) == CountLess(s, v) + (if x < v then 1 else 0)
  {
    if s == [] {
    } else if Le(x, s[0]) {
      assert ([x] + s)[1..] == s;
    } else {
      CountInsert(x, s[1..], v);
      assert Insert(Le, x, s)[1..] == Insert(Le, x, s[1..]);
    }
  }

  lemma {:induction false} CountSort(s: seq<int>, v: int)
    ensures CountLess(Sort(Le, s), v) == CountLess(s, v)
  {
    if s != [] {
      CountSort(s[1..], v);
      CountInsert(s[0], Sort(Le, s[1..]), v);
    }
  }

  lemma {:induction false} NoneLess(s: seq<int>, v: int)
    requires forall i :: 0 <= i < |s| ==> v <= s[i]
    ensures CountLess(s, v) == 0
  {
    if s != [] {
      NoneLess(s[1..], v);
    }
  }

  /** The element of rank `k` is at least `v` exactly when at most `k` elements are below `v`. */
  lemma {:induction false} Rank(s: seq<int>, k: nat, v: int)
    requires SortedBy(Le, s) && k < |s|
    ensures v <= s[k] <==> CountLess(s, v) <= k
  {
    if v <= s[0] {
      assert forall i :: 0 < i < |s| ==> Le(s[0], s[i]);
      NoneLess(s, v);
    } else if k > 0 {
      Rank(s[1..], k - 1, v);
    }
  }

  const WINDOW: nat := 11

  /** The element in the middle of the 11 sorted times. */
  function Median(s: seq<int>): int
    requires |s| == WINDOW
  {
    LeIsTotal();
    SortSorts(Le, s);
    Sort(Le, s)[5]
  }

  lemma MedianRank(s: seq<int>, v: int)
    requires |s| == WINDOW
    ensures v <= Median(s) <==> CountLess(s, v) <= 5
  {
    LeIsTotal();
    SortSorts(Le, s);
    Rank(Sort(Le, s), 5, v);
    CountSort(s, v);
  }

  lemma MedianOfSorted(s: seq<int>)
    requires |s| == WINDOW && SortedBy(Le, s)
    ensures Median(s) == s[5]
  {
    SortOfSorted(Le, s);
  }

  /** Responses may arrive in any order. */
  lemma MedianOfArrivals(a: seq<int>, b: seq<int>)
    requires |a| == |b| == WINDOW && multiset(a) == multiset(b)
    ensures Median(a) == Median(b)
  {
    LeIsTotal();
    SortCanonical(Le, a, b);
  }

  /** Replacing the oldest time by one above the median cannot lower the median. */
  lemma SlideKeepsMedian(oldest: int, middle: seq<int>, newest: int)
    requires |middle| == WINDOW - 1
    requires newest > Median([oldest] + middle)
    ensures Median([oldest] + middle) <= Median(middle + [newest])
  {
    var v := Median([oldest] + middle);
    MedianRank([oldest] + middle, v);
    CountAppend([oldest], middle, v);
    CountAppend(middle, [newest], v);
    MedianRank(middle + [newest], v);
  }

  /** The times at heights lo .. lo+10. */
  function Window(times: nat -> int, lo: nat): (w: seq<int>)
    ensures |w| == WINDOW
  {
    seq(WINDOW, (i: nat) => times(lo + i))
  }

  /** The consensus rule of BIP 113: a block's time exceeds the median of the 11 blocks before it. */
  ghost predicate ConsensusTimes(times: nat -> int, chainHeight: nat) {
    forall k: nat :: WINDOW <= k <= chainHeight ==> times(k) > Median(Window(times, k - WINDOW))
  }

  lemma WindowSlides(times: nat -> int, chainHeight: nat, lo: nat)
    requires ConsensusTimes(times, chainHeight) && lo + WINDOW <= chainHeight
    ensures Median(Window(times, lo)) <= Median(Window(times, lo + 1))
  {
    var middle := Window(times, lo)[1..];
    assert Window(times, lo) == [times(lo)] + middle;
    assert Window(times, lo + 1) == middle + [times(lo + WINDOW)];
    var k := lo + WINDOW;
    assert k - WINDOW == lo && times(k) > Median(Window(times, k - WINDOW));
    SlideKeepsMedian(times(lo), middle, times(lo + WINDOW));
  }

  /** Over any distance, a later window has no lower a median. */
  lemma {:induction false} MediansMonotone(times: nat -> int, chainHeight: nat, a: nat, b: nat)
    requires ConsensusTimes(times, chainHeight) && a <= b && b + WINDOW <= chainHeight + 1
    ensures Median(Window(times, a)) <= Median(Window(times, b))
    decreases b - a
  {
    if a < b {
      WindowSlides(times, chainHeight, a);
      MediansMonotone(times, chainHeight, a + 1, b);
    }
  }
}
