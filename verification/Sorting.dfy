/** Sorting, as the contract of Go's `sort` package: any sorted rearrangement.
    For a total order the rearrangement is unique, so this insertion sort stands for all of them. */
module Sorting {

  ghost predicate TotalPreorder<T(!new)>(le: (T, T) -> bool) {
    && (forall a, b :: le(a, b) || le(b, a))
    && (forall a, b, c :: le(a, b) && le(b, c) ==> le(a, c))
  }

  ghost predicate TotalOrder<T(!new)>(le: (T, T) -> bool) {
    && TotalPreorder(le)
    && (forall a, b :: le(a, b) && le(b, a) ==> a == b)
  }

  ghost predicate SortedBy<T>(le: (T, T) -> bool, s: seq<T>) {
    forall i, j :: 0 <= i < j < |s| ==> le(s[i], s[j])
  }

  /** Lexicographic order: `a` ends first, or has the smaller element at the first difference. */
  ghost predicate Precedes<T(!new)>(below: (T, T) -> bool, a: seq<T>, b: seq<T>) {
    exists k: nat :: DiffersAt(below, a, b, k)
  }

  ghost predicate DiffersAt<T>(below: (T, T) -> bool, a: seq<T>, b: seq<T>, k: nat) {
    && k <= |a| && k < |b| && a[..k] == b[..k]
    && (k < |a| ==> below(a[k], b[k]))
  }

  /** The same without the first elements, if they are equal. */
  lemma PrecedesTail<T(!new)>(below: (T, T) -> bool, a: seq<T>, b: seq<T>)
    requires a != [] && b != [] && a[0] == b[0] && !below(a[0], b[0])
    ensures Precedes(below, a, b) <==> Precedes(below, a[1..], b[1..])
  {
    if k: nat :| DiffersAt(below, a, b, k) {
      assert k > 0;
      assert a[1..][..k - 1] == a[..k][1..] && b[1..][..k - 1] == b[..k][1..];
      assert DiffersAt(below, a[1..], b[1..], k - 1);
    }
    if k: nat :| DiffersAt(below, a[1..], b[1..], k) {
      assert a[..k + 1] == [a[0]] + a[1..][..k] && b[..k + 1] == [b[0]] + b[1..][..k];
      assert DiffersAt(below, a, b, k + 1);
    }
  }

  lemma SameUpTo<T>(below: (T, T) -> bool, a: seq<T>, b: seq<T>, k: nat)
    requires DiffersAt(below, a, b, k)
    ensures forall i :: 0 <= i < k ==> a[i] == b[i]
  {
    forall i | 0 <= i < k ensures a[i] == b[i] {
      assert a[..k][i] == b[..k][i];
    }
  }

  /** And what the first elements decide if they are not. */
  lemma PrecedesHead<T(!new)>(below: (T, T) -> bool, a: seq<T>, b: seq<T>)
    requires a == [] || b == [] || a[0] != b[0]
    ensures Precedes(below, a, b) <==> b != [] && (a == [] || below(a[0], b[0]))
  {
    if k: nat :| DiffersAt(below, a, b, k) {
      SameUpTo(below, a, b, k);
    }
    if b != [] && (a == [] || below(a[0], b[0])) {
      assert DiffersAt(below, a, b, 0);
    }
  }

  function Insert<T>(le: (T, T) -> bool, x: T, s: seq<T>): seq<T> {
    if s == [] then [x]
    else if le(x, s[0]) then [x] + s
    else [s[0]] + Insert(le, x, s[1..])
  }

  function Sort<T>(le: (T, T) -> bool, s: seq<T>): seq<T> {
    if s == [] then [] else Insert(le, s[0], Sort(le, s[1..]))
  }

  lemma {:induction false} InsertSorts<T(!new)>(le: (T, T) -> bool, x: T, s: seq<T>)
    requires TotalPreorder(le) && SortedBy(le, s)
    ensures SortedBy(le, Insert(le, x, s))
    ensures multiset(Insert(le, x, s)) == multiset(s) + multiset{x}
  {
    if s == [] {
    } else if le(x, s[0]) {
    } else {
      var rest := Insert(le, x, s[1..]);
      InsertSorts(le, x, s[1..]);
      assert s == [s[0]] + s[1..];
      forall y | y in rest ensures le(s[0], y) {
        assert y in multiset(rest);
      }
      SortedCons(le, s[0], rest);
    }
  }

  lemma SortedCons<T>(le: (T, T) -> bool, x: T, s: seq<T>)
    requires SortedBy(le, s) && forall y :: y in s ==> le(x, y)
    ensures SortedBy(le, [x] + s)
  {
  }

  lemma {:induction false} SortSorts<T(!new)>(le: (T, T) -> bool, s: seq<T>)
    requires TotalPreorder(le)
    ensures SortedBy(le, Sort(le, s))
    ensures multiset(Sort(le, s)) == multiset(s)
    ensures |Sort(le, s)| == |s|
  {
    if s != [] {
      SortSorts(le, s[1..]);
      InsertSorts(le, s[0], Sort(le, s[1..]));
      assert s == [s[0]] + s[1..];
    }
    assert |multiset(Sort(le, s))| == |multiset(s)|;
  }

  /** Inserting into what is sorted already puts the element first if nothing precedes it. */
  lemma {:induction false} SortOfSorted<T(!new)>(le: (T, T) -> bool, s: seq<T>)
    requires SortedBy(le, s)
    ensures Sort(le, s) == s
  {
    if s != [] {
      SortOfSorted(le, s[1..]);
      assert |s| > 1 ==> le(s[0], s[1]);
    }
  }

  /** The order of two insertions does not matter. */
  lemma {:induction false} InsertCommutes<T(!new)>(le: (T, T) -> bool, x: T, y: T, s: seq<T>)
    requires TotalOrder(le)
    ensures Insert(le, x, Insert(le, y, s)) == Insert(le, y, Insert(le, x, s))
  {
    assert le(x, y) || le(y, x);
    if s == [] {
    } else if le(x, s[0]) || le(y, s[0]) {
      assert ([x] + s)[1..] == s && ([y] + s)[1..] == s;
    } else {
      InsertCommutes(le, x, y, s[1..]);
      assert ([s[0]] + Insert(le, x, s[1..]))[1..] == Insert(le, x, s[1..]);
      assert ([s[0]] + Insert(le, y, s[1..]))[1..] == Insert(le, y, s[1..]);
    }
  }

  /** So any element can be the last to be inserted. */
  lemma {:induction false} SortLast<T(!new)>(le: (T, T) -> bool, s: seq<T>, i: nat)
    requires TotalOrder(le) && i < |s|
    ensures Sort(le, s) == Insert(le, s[i], Sort(le, s[..i] + s[i + 1..]))
  {
    if i == 0 {
      assert s[..0] + s[1..] == s[1..];
    } else {
      var rest := s[1..];
      SortLast(le, rest, i - 1);
      assert (s[..i] + s[i + 1..])[1..] == rest[..i - 1] + rest[i..];
      InsertCommutes(le, s[0], s[i], Sort(le, rest[..i - 1] + rest[i..]));
    }
  }

  lemma TakeAway<T>(s: seq<T>, i: nat)
    requires i < |s|
    ensures multiset(s[..i] + s[i + 1..]) == multiset(s) - multiset{s[i]}
  {
    assert s == s[..i] + [s[i]] + s[i + 1..];
  }

  /** The outcome of sorting depends only on the elements, not on their order. */
  lemma {:induction false} SortCanonical<T(!new)>(le: (T, T) -> bool, a: seq<T>, b: seq<T>)
    requires TotalOrder(le) && multiset(a) == multiset(b)
    ensures Sort(le, a) == Sort(le, b)
    decreases |a|
  {
    if a == [] {
      assert |multiset(b)| == 0;
    } else {
      assert a[0] in multiset(b);
      var j :| 0 <= j < |b| && b[j] == a[0];
      TakeAway(a, 0);
      TakeAway(b, j);
      assert a[..0] + a[1..] == a[1..];
      SortCanonical(le, a[1..], b[..j] + b[j + 1..]);
      SortLast(le, b, j);
    }
  }
}
