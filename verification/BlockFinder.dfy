/** Finding the last block whose median time does not exceed a timestamp. */
module BlockFinder {
  import opened Basics
  import opened Medians

  const LOWEST: nat := 10      // "any small number above 5 works"
  const MARGIN: nat := 11      // 6 confirmations and 5 blocks for the median

  /** How a search ends: it returns a block, panics, waits for answers to requests it never sent, asks
      for a block that is not there, or sends requests for ever. */
  datatype Outcome = Found(height: nat, median: int) | NonMonotonicMedians | Waits | MissingBlock | AsksForever

  /** What one window of 11 blocks comes to. */
  datatype Answer = Answers(median: int) | Fails(why: Outcome)

  /** A search before its next round, or its end. */
  datatype SearchState = Probing(min: nat, minMedian: int, max: nat, maxMedian: int) | Done(outcome: Outcome)

  /** The median of the 11 blocks centred at `height`. */
  function MedianAt(times: nat -> int, height: nat): int
    requires height >= 5
  {
    Median(Window(times, height - 5))
  }

  /** All the medians of a chain. */
  function MedianOf(times: nat -> int): nat -> int {
    (height: nat) => if height >= 5 then MedianAt(times, height) else 0
  }

  /** `searchSync`, in `uint32` arithmetic for every height. */
  function WindowAnswer(times: nat -> int, chainHeight: nat, height: nat): (r: Answer)
    ensures r.Answers? ==> 5 <= height && height + 5 <= chainHeight
  {
    var first, last := Sub32(height, 5), Add32(height, 5);
    if first > last then Fails(Waits)
    else if last > chainHeight then Fails(MissingBlock)
    else if last >= TWO32 - 1 then Fails(AsksForever)
    else Answers(MedianAt(times, height))
  }

  /** Go's `(max + min) / 2` on `uint32`. */
  function Midpoint(min: nat, max: nat): nat {
    Add32(max, min) / 2
  }

  /** The loop guard: another round, or the block that was found. */
  function Guarded(min: nat, minMedian: int, max: nat, maxMedian: int): SearchState
    requires min < TWO32
  {
    if Sub32(max, min) > 1 then Probing(min, minMedian, max, maxMedian) else Done(Found(min, minMedian))
  }

  /** Bounds are `uint32`, and the lower bound and a result are blocks of the chain. */
  predicate Sane(chainHeight: nat, s: SearchState) {
    && (s.Probing? ==> s.min < TWO32 && s.max < TWO32 && s.min <= chainHeight)
    && (s.Done? && s.outcome.Found? ==> s.outcome.height <= chainHeight)
  }

  function Begin(times: nat -> int, chainHeight: nat): (s: SearchState)
    requires chainHeight < TWO32
    ensures Sane(chainHeight, s)
  {
    match WindowAnswer(times, chainHeight, LOWEST)
    case Fails(why) => Done(why)
    case Answers(minMedian) =>
      var max := Sub32(chainHeight, MARGIN);
      match WindowAnswer(times, chainHeight, max)
      case Fails(why) => Done(why)
      case Answers(maxMedian) => Guarded(LOWEST, minMedian, max, maxMedian)
  }

  /** One round of the loop. */
  function Round(times: nat -> int, target: int, chainHeight: nat, s: SearchState): (t: SearchState)
    requires chainHeight < TWO32 && Sane(chainHeight, s)
    ensures Sane(chainHeight, t)
  {
    if s.Done? then s else
      var avg := Midpoint(s.min, s.max);
      match WindowAnswer(times, chainHeight, avg)
      case Fails(why) => Done(why)
      case Answers(m) =>
        if m < s.minMedian || m > s.maxMedian then Done(NonMonotonicMedians)
        else if target == m then Done(Found(avg, m))
        else if target > m then Guarded(avg, m, s.max, s.maxMedian)
        else Guarded(s.min, s.minMedian, avg, m)
  }

  /** The search after `rounds` rounds. */
  function After(times: nat -> int, target: int, chainHeight: nat, rounds: nat): (s: SearchState)
    requires chainHeight < TWO32
    ensures Sane(chainHeight, s)
  {
    if rounds == 0 then Begin(times, chainHeight)
    else Round(times, target, chainHeight, After(times, target, chainHeight, rounds - 1))
  }

  /** The heights of a window, and of all that a search asks for in its first rounds. */
  function HeightSet(lo: nat, hi: nat): set<nat>
    requires lo <= hi
    decreases hi
  {
    if lo == hi then {} else HeightSet(lo, hi - 1) + {hi - 1}
  }

  lemma {:induction false} HeightSetIs(lo: nat, hi: nat, h: nat)
    requires lo <= hi
    ensures h in HeightSet(lo, hi) <==> lo <= h < hi
    decreases hi
  {
    if lo < hi {
      HeightSetIs(lo, hi - 1, h);
    }
  }

  function WindowHeights(height: nat): set<nat> {
    if height < 5 then {} else HeightSet(height - 5, height + 6)
  }

  function FoundHeight(s: SearchState): set<nat> {
    if s.Done? && s.outcome.Found? then {s.outcome.height} else {}
  }

  function RoundHeights(s: SearchState): set<nat> {
    if s.Probing? then WindowHeights(Midpoint(s.min, s.max)) else {}
  }

  function WindowsIn(times: nat -> int, target: int, chainHeight: nat, rounds: nat): set<nat>
    requires chainHeight < TWO32
  {
    if rounds == 0 then WindowHeights(LOWEST) + WindowHeights(Sub32(chainHeight, MARGIN))
    else WindowsIn(times, target, chainHeight, rounds - 1)
         + RoundHeights(After(times, target, chainHeight, rounds - 1))
  }

  function AskedIn(times: nat -> int, target: int, chainHeight: nat, rounds: nat): set<nat>
    requires chainHeight < TWO32
  {
    WindowsIn(times, target, chainHeight, rounds) + FoundHeight(After(times, target, chainHeight, rounds))
  }

  /** Rounds of halving until a gap of `n` is closed: the base-2 logarithm, rounded up. */
  function CeilLog2(n: nat): nat {
    if n <= 1 then 0 else 1 + CeilLog2((n + 1) / 2)
  }

  function Pow2(k: nat): nat {
    if k == 0 then 1 else 2 * Pow2(k - 1)
  }

  lemma {:induction false} CeilLog2Bounds(n: nat)
    requires n >= 1
    ensures n <= Pow2(CeilLog2(n))
    ensures n > 1 ==> Pow2(CeilLog2(n) - 1) < n
    decreases n
  {
    if n > 1 {
      CeilLog2Bounds((n + 1) / 2);
    }
  }

  lemma {:induction false} CeilLog2Monotone(a: nat, b: nat)
    requires a <= b
    ensures CeilLog2(a) <= CeilLog2(b)
    decreases a
  {
    if a > 1 {
      CeilLog2Monotone((a + 1) / 2, (b + 1) / 2);
    }
  }

  /** The blocks side of a backend: every requested height is answered once, in any order. */
  class BlockSource {
    const times: nat -> int
    const chainHeight: nat
    var outstanding: multiset<nat>   // requested and not yet received
    var requests: nat                // number of requests so far
    ghost var asked: set<nat>        // their heights

    constructor (times: nat -> int, chainHeight: nat)
      ensures this.times == times && this.chainHeight == chainHeight
      ensures outstanding == multiset{} && requests == 0 && asked == {}
    {
      this.times, this.chainHeight := times, chainHeight;
      outstanding, requests, asked := multiset{}, 0, {};
    }

    method BlockRequest(height: nat)
      requires height <= chainHeight   // no backend can answer for a block that is not there
      modifies this
      ensures outstanding == old(outstanding) + multiset{height}
      ensures requests == old(requests) + 1 && asked == old(asked) + {height}
    {
      outstanding := outstanding + multiset{height};
      requests, asked := requests + 1, asked + {height};
    }

    /** Of the heights first, first+1, .. one request each is out, up to before `next`. */
    ghost predicate Sent(first: nat, next: nat, before: set<nat>)
      requires first <= next
      reads this
    {
      outstanding == HeightBag(first, next) && asked == before + HeightSet(first, next)
    }

    method RequestNext(first: nat, next: nat, ghost before: set<nat>)
      requires first <= next <= chainHeight && Sent(first, next, before)
      modifies this
      ensures Sent(first, next + 1, before) && requests == old(requests) + 1
    {
      BlockRequest(next);
    }

    method ReceiveBlock() returns (height: nat, timestamp: int)
      requires outstanding != multiset{}
      modifies this
      ensures height in old(outstanding) && timestamp == times(height)
      ensures outstanding == old(outstanding) - multiset{height}
      ensures requests == old(requests) && asked == old(asked)
    {
      height :| height in outstanding;
      timestamp := times(height);
      outstanding := outstanding - multiset{height};
    }
  }

  /** The heights lo, lo+1, .., hi-1. */
  ghost function Heights(lo: nat, hi: nat): (hs: seq<nat>)
    requires lo <= hi
    ensures |hs| == hi - lo
    ensures forall i :: 0 <= i < |hs| ==> hs[i] == lo + i
  {
    if lo == hi then [] else Heights(lo, hi - 1) + [hi - 1]
  }

  ghost function HeightBag(lo: nat, hi: nat): (b: multiset<nat>)
    requires lo <= hi
    ensures |b| == hi - lo
  {
    if lo == hi then multiset{} else HeightBag(lo, hi - 1) + multiset{hi - 1}
  }

  lemma {:induction false} BagOfHeights(lo: nat, hi: nat)
    requires lo <= hi
    ensures multiset(Heights(lo, hi)) == HeightBag(lo, hi)
    decreases hi - lo
  {
    if lo < hi {
      BagOfHeights(lo, hi - 1);
    }
  }

  ghost function TimesOf(times: nat -> int, hs: seq<nat>): seq<int> {
    seq(|hs|, i requires 0 <= i < |hs| => times(hs[i]))
  }

  lemma TimesOfRemove(times: nat -> int, hs: seq<nat>, j: nat)
    requires j < |hs|
    ensures var rest := hs[..j] + hs[j + 1..];
      && multiset(rest) == multiset(hs) - multiset{hs[j]}
      && multiset(TimesOf(times, hs)) == multiset(TimesOf(times, rest)) + multiset{times(hs[j])}
  {
    var rest := hs[..j] + hs[j + 1..];
    assert hs == hs[..j] + [hs[j]] + hs[j + 1..];
    assert TimesOf(times, hs) == TimesOf(times, hs)[..j] + [times(hs[j])] + TimesOf(times, hs)[j + 1..];
    assert TimesOf(times, rest) == TimesOf(times, hs)[..j] + TimesOf(times, hs)[j + 1..];
  }

  lemma {:induction false} TimesOfPermutation(times: nat -> int, a: seq<nat>, b: seq<nat>)
    requires multiset(a) == multiset(b)
    ensures multiset(TimesOf(times, a)) == multiset(TimesOf(times, b))
    decreases |a|
  {
    assert |multiset(a)| == |a| && |multiset(b)| == |b|;
    if a == [] {
      assert b == [];
    } else {
      assert a[0] in multiset(b);
      var j :| 0 <= j < |b| && b[j] == a[0];
      TimesOfRemove(times, a, 0);
      TimesOfRemove(times, b, j);
      TimesOfPermutation(times, a[..0] + a[1..], b[..j] + b[j + 1..]);
    }
  }

  lemma WindowOfHeights(times: nat -> int, lo: nat, hi: nat)
    requires hi == lo + WINDOW
    ensures TimesOf(times, Heights(lo, hi)) == Window(times, lo)
  {
  }

  lemma AnswersPermute(times: nat -> int, lo: nat, hi: nat, arrived: seq<nat>)
    requires hi == lo + WINDOW && multiset(arrived) == HeightBag(lo, hi)
    ensures multiset(TimesOf(times, arrived)) == multiset(Window(times, lo))
  {
    BagOfHeights(lo, hi);
    TimesOfPermutation(times, arrived, Heights(lo, hi));
    WindowOfHeights(times, lo, hi);
  }

  /** Whatever order the 11 answers come in, their median is the one at the height asked for. */
  lemma MedianOfAnswers(times: nat -> int, height: nat, arrived: seq<nat>)
    requires height >= 5 && |arrived| == 11
    requires multiset(arrived) == HeightBag(height - 5, height + 6)
    ensures Median(TimesOf(times, arrived)) == MedianAt(times, height)
  {
    AnswersPermute(times, height - 5, height + 6, arrived);
    MedianOfArrivals(TimesOf(times, arrived), Window(times, height - 5));
  }

  class Blockfinder {
    const backend: BlockSource

    constructor (b: BlockSource)
      ensures backend == b
    {
      backend := b;
    }

    /** The sending loop: one request for each height from `first` to `last`, up to the first block
        that is not there. */
    method RequestRange(first: nat, last: nat) returns (missing: bool)
      requires first <= last < TWO32 - 1 && backend.outstanding == multiset{}
      modifies backend
      ensures missing <==> last > backend.chainHeight
      ensures backend.requests <= old(backend.requests) + (last + 1 - first)
      ensures !missing ==> backend.Sent(first, last + 1, old(backend.asked))
    {
      var i := first;
      while i <= last
        invariant first <= i <= last + 1 && (i > first ==> i - 1 <= backend.chainHeight)
        invariant backend.Sent(first, i, old(backend.asked))
        invariant backend.requests == old(backend.requests) + (i - first)
      {
        if i > backend.chainHeight {
          return true;
        }
        backend.RequestNext(first, i, old(backend.asked));
        i := Add32(i, 1);
      }
      missing := false;
    }

    /** Takes 11 answers in whatever order they come and sorts them. */
    method ReceiveWindow(height: nat) returns (median: int)
      requires height >= 5 && backend.outstanding == HeightBag(height - 5, height + 6)
      modifies backend
      ensures median == MedianAt(backend.times, height)
      ensures backend.outstanding == multiset{}
      ensures backend.requests == old(backend.requests) && backend.asked == old(backend.asked)
    {
      var timestamps: seq<int> := [];
      ghost var arrived: seq<nat> := [];
      for k := 0 to 11
        invariant |timestamps| == |arrived| == k && |backend.outstanding| == 11 - k
        invariant multiset(arrived) + backend.outstanding == old(backend.outstanding)
        invariant timestamps == TimesOf(backend.times, arrived)
        invariant backend.requests == old(backend.requests) && backend.asked == old(backend.asked)
      {
        var h, t := backend.ReceiveBlock();
        timestamps := timestamps + [t];
        arrived := arrived + [h];
      }
      MedianOfAnswers(backend.times, height, arrived);
      median := Median(timestamps);
    }

    /** Asks for the 11 heights around `height` and takes 11 answers, if there are any. */
    method SearchSync(height: nat) returns (r: Answer)
      requires height < TWO32 && backend.chainHeight < TWO32 && backend.outstanding == multiset{}
      modifies backend
      ensures r == WindowAnswer(backend.times, backend.chainHeight, height)
      ensures backend.requests <= old(backend.requests) + 11
      ensures r.Answers? ==> backend.outstanding == multiset{}
      ensures r.Answers? ==> backend.asked == old(backend.asked) + WindowHeights(height)
    {
      var first, last := Sub32(height, 5), Add32(height, 5);
      if first > last {
        return Fails(Waits);
      }
      if last == 0xffff_ffff {
        return Fails(if last > backend.chainHeight then MissingBlock else AsksForever);
      }
      var missing := RequestRange(first, last);
      if missing {
        return Fails(MissingBlock);
      }
      var median := ReceiveWindow(height);
      r := Answers(median);
    }

    /** The first two windows. */
    method Open() returns (s: SearchState)
      requires backend.chainHeight < TWO32 && backend.outstanding == multiset{}
      modifies backend
      ensures s == Begin(backend.times, backend.chainHeight)
      ensures backend.requests <= old(backend.requests) + 22
      ensures Answered(s) ==> backend.outstanding == multiset{}
      ensures Answered(s) ==>
        backend.asked == old(backend.asked) + WindowHeights(LOWEST) + WindowHeights(Sub32(backend.chainHeight, MARGIN))
    {
      var min: nat := LOWEST;
      var minMedian := SearchSync(min);
      if minMedian.Fails? {
        return Done(minMedian.why);
      }
      var max := Sub32(backend.chainHeight, MARGIN);
      var maxMedian := SearchSync(max);
      if maxMedian.Fails? {
        return Done(maxMedian.why);
      }
      s := Guarded(min, minMedian.median, max, maxMedian.median);
    }

    /** One round: the window in the middle decides which bound moves. */
    method Halve(target: int, s: SearchState) returns (t: SearchState)
      requires s.Probing? && backend.chainHeight < TWO32 && Sane(backend.chainHeight, s)
      requires backend.outstanding == multiset{}
      modifies backend
      ensures t == Round(backend.times, target, backend.chainHeight, s)
      ensures backend.requests <= old(backend.requests) + 11
      ensures Answered(t) ==> backend.outstanding == multiset{}
      ensures Answered(t) ==> backend.asked == old(backend.asked) + RoundHeights(s)
    {
      var avg := Midpoint(s.min, s.max);
      var avgTimestamp := SearchSync(avg);
      if avgTimestamp.Fails? {
        return Done(avgTimestamp.why);
      }
      var m := avgTimestamp.median;
      if m < s.minMedian || m > s.maxMedian {
        return Done(NonMonotonicMedians);
      }
      if target == m {
        return Done(Found(avg, m));
      } else if target > m {
        t := Guarded(avg, m, s.max, s.maxMedian);
      } else {
        t := Guarded(s.min, s.minMedian, avg, m);
      }
    }

    /** The one request after the search, for the time of the block that was found. */
    method BlockTime(height: nat) returns (timestamp: int)
      requires height <= backend.chainHeight && backend.outstanding == multiset{}
      modifies backend
      ensures timestamp == backend.times(height) && backend.outstanding == multiset{}
      ensures backend.requests == old(backend.requests) + 1 && backend.asked == old(backend.asked) + {height}
    {
      backend.BlockRequest(height);
      var h, t := backend.ReceiveBlock();
      timestamp := t;
    }

    /** The binary search over medians, for at most `rounds` rounds; on every chain below 2^32, also
        where it panics, waits or does not end. */
    method Search(target: int, rounds: nat) returns (s: SearchState, timestamp: int)
      requires backend.chainHeight < TWO32 && backend.outstanding == multiset{}
      modifies backend
      ensures s == After(backend.times, target, backend.chainHeight, rounds)
      ensures backend.requests <= old(backend.requests) + 23 + 11 * rounds
      ensures s.Done? && s.outcome.Found? ==>
        timestamp == backend.times(s.outcome.height) && backend.outstanding == multiset{}
      ensures Answered(s) ==>
        backend.asked == old(backend.asked) + AskedIn(backend.times, target, backend.chainHeight, rounds)
    {
      ghost var times, chainHeight, before := backend.times, backend.chainHeight, backend.asked;
      s := Open();
      var k := 0;
      assert Answered(s) ==> backend.asked == before + WindowsIn(times, target, chainHeight, 0);
      while k < rounds && s.Probing?
        invariant k <= rounds && s == After(times, target, chainHeight, k)
        invariant backend.requests <= old(backend.requests) + 22 + 11 * k
        invariant Answered(s) ==>
          backend.outstanding == multiset{} && backend.asked == before + WindowsIn(times, target, chainHeight, k)
      {
        s := Halve(target, s);
        k := k + 1;
      }
      timestamp := 0;
      if s.Done? {
        StaysDone(times, target, chainHeight, k, rounds);
        if s.outcome.Found? {
          timestamp := BlockTime(s.outcome.height);
        }
      }
    }
  }

  /** An ended search asks for nothing more. */
  lemma {:induction false} StaysDone(times: nat -> int, target: int, chainHeight: nat, k: nat, rounds: nat)
    requires chainHeight < TWO32 && k <= rounds && After(times, target, chainHeight, k).Done?
    ensures After(times, target, chainHeight, rounds) == After(times, target, chainHeight, k)
    ensures WindowsIn(times, target, chainHeight, rounds) == WindowsIn(times, target, chainHeight, k)
    decreases rounds
  {
    if k < rounds {
      StaysDone(times, target, chainHeight, k, rounds - 1);
    }
  }

  /** All windows so far were answered. */
  predicate Answered(s: SearchState) {
    s.Probing? || s.outcome.Found? || s.outcome.NonMonotonicMedians?
  }

  // ----- Chains that are high enough -----

  ghost predicate Monotone(median: nat -> int, lo: nat, hi: nat) {
    forall a: nat, b: nat :: lo <= a <= b <= hi ==> median(a) <= median(b)
  }

  /** With consensus times medians never decrease along the chain. */
  lemma MedianOfMonotone(times: nat -> int, chainHeight: nat)
    requires ConsensusTimes(times, chainHeight) && 10 <= chainHeight
    ensures Monotone(MedianOf(times), 5, chainHeight - 5)
  {
    forall a: nat, b: nat | 5 <= a <= b <= chainHeight - 5
      ensures MedianOf(times)(a) <= MedianOf(times)(b)
    {
      MediansMonotone(times, chainHeight, a - 5, b - 5);
    }
  }

  /** The block that was asked for: a target between the medians of the two ends is bracketed by the
      height found and the next one; a target below the first median gives the lowest height; a target
      at or above the last median gives the height before the last, or an earlier one with exactly that
      median. */
  predicate Bracketed(median: nat -> int, target: int, last: int, o: Outcome) {
    && o.Found? && o.median == median(o.height)
    && (10 <= last ==>
          && 10 <= o.height <= last
          && (median(10) <= target < median(last) ==>
                o.median <= target && (o.median == target || target < median(o.height + 1)))
          && (target < median(10) ==> o.height == 10)
          && (median(last) <= target && 10 < last ==>
                o.height == last - 1 || (o.height < last && o.median == target)))
  }

  /** What every round keeps: the bounds enclose the target, and halving is on schedule. */
  predicate Closing(median: nat -> int, target: int, last: nat, s: SearchState, k: nat)
    requires LOWEST <= last
  {
    match s
    case Done(o) => Bracketed(median, target, last, o)
    case Probing(min, minMedian, max, maxMedian) =>
      && LOWEST <= min && min + 1 < max <= last && minMedian == median(min) && maxMedian == median(max)
      && (if target < median(LOWEST) then min == LOWEST else minMedian <= target)
      && (if target < median(last) then target < maxMedian else max == last)
      && k + CeilLog2(max - min) <= CeilLog2(last - LOWEST)
  }

  lemma WindowInside(times: nat -> int, chainHeight: nat, height: nat)
    requires 5 <= height && height + 5 <= chainHeight < TWO31
    ensures WindowAnswer(times, chainHeight, height) == Answers(MedianOf(times)(height))
  {
  }

  lemma GuardedCloses(median: nat -> int, target: int, last: nat, min: nat, max: nat, k: nat)
    requires LOWEST <= min <= max <= last < TWO31
    requires if target < median(LOWEST) then min == LOWEST else median(min) <= target
    requires if target < median(last) then target < median(max) else max == last
    requires (min == max ==> last == LOWEST) && k + CeilLog2(max - min) <= CeilLog2(last - LOWEST)
    ensures Closing(median, target, last, Guarded(min, median(min), max, median(max)), k)
  {
    if max - min <= 1 {
      EndBrackets(median, target, last, min, max);
    }
  }

  lemma EndBrackets(median: nat -> int, target: int, last: nat, min: nat, max: nat)
    requires LOWEST <= min <= max <= last && max - min <= 1 && (min == max ==> last == LOWEST)
    requires if target < median(LOWEST) then min == LOWEST else median(min) <= target
    requires if target < median(last) then target < median(max) else max == last
    ensures Bracketed(median, target, last, Found(min, median(min)))
  {
  }

  lemma RoundIs(times: nat -> int, target: int, chainHeight: nat, s: SearchState, avg: nat, m: int)
    requires chainHeight < TWO32 && Sane(chainHeight, s) && s.Probing? && avg == Midpoint(s.min, s.max)
    requires WindowAnswer(times, chainHeight, avg) == Answers(m) && s.minMedian <= m <= s.maxMedian
    ensures Round(times, target, chainHeight, s)
         == if target == m then Done(Found(avg, m))
            else if target > m then Guarded(avg, m, s.max, s.maxMedian) else Guarded(s.min, s.minMedian, avg, m)
  {
  }

  lemma RoundCloses(times: nat -> int, target: int, chainHeight: nat, s: SearchState, k: nat)
    requires LOWEST + MARGIN <= chainHeight < TWO31 && Monotone(MedianOf(times), 5, chainHeight - 5)
    requires s.Probing? && Sane(chainHeight, s) && Closing(MedianOf(times), target, chainHeight - MARGIN, s, k)
    ensures Closing(MedianOf(times), target, chainHeight - MARGIN, Round(times, target, chainHeight, s), k + 1)
  {
    var median, last, avg := MedianOf(times), chainHeight - MARGIN, (s.max + s.min) / 2;
    assert Midpoint(s.min, s.max) == avg && s.min < avg < s.max;
    WindowInside(times, chainHeight, avg);
    RoundIs(times, target, chainHeight, s, avg, median(avg));
    CeilLog2Monotone(s.max - avg, (s.max - s.min + 1) / 2);
    CeilLog2Monotone(avg - s.min, (s.max - s.min + 1) / 2);
    if target > median(avg) {
      GuardedCloses(median, target, last, avg, s.max, k + 1);
    } else if target < median(avg) {
      GuardedCloses(median, target, last, s.min, avg, k + 1);
    }
  }

  lemma {:induction false} AfterCloses(times: nat -> int, target: int, chainHeight: nat, k: nat)
    requires LOWEST + MARGIN <= chainHeight < TWO31 && ConsensusTimes(times, chainHeight)
    ensures Closing(MedianOf(times), target, chainHeight - MARGIN, After(times, target, chainHeight, k), k)
  {
    MedianOfMonotone(times, chainHeight);
    if k == 0 {
      WindowInside(times, chainHeight, LOWEST);
      WindowInside(times, chainHeight, chainHeight - MARGIN);
      GuardedCloses(MedianOf(times), target, chainHeight - MARGIN, LOWEST, chainHeight - MARGIN, 0);
    } else {
      AfterCloses(times, target, chainHeight, k - 1);
      if After(times, target, chainHeight, k - 1).Probing? {
        RoundCloses(times, target, chainHeight, After(times, target, chainHeight, k - 1), k - 1);
      }
    }
  }

  /** For consensus times the search ends with the block that was asked for, after no more rounds than
      halvings of the distance between its ends: the panic is unreachable. */
  lemma SearchCorrect(times: nat -> int, target: int, chainHeight: nat)
    requires 21 <= chainHeight < 0x8000_0000 && ConsensusTimes(times, chainHeight)
    ensures var s := After(times, target, chainHeight, CeilLog2(chainHeight - 21));
      s.Done? && Bracketed(MedianOf(times), target, chainHeight - 11, s.outcome)
  {
    AfterCloses(times, target, chainHeight, CeilLog2(chainHeight - 21));
  }

  lemma WindowWithin(height: nat, chainHeight: nat, h: nat)
    requires height + 11 <= chainHeight && h in WindowHeights(height)
    ensures 5 <= height && height - 5 <= h <= height + 5 <= chainHeight - 6
  {
    HeightSetIs(height - 5, height + 6, h);
  }

  /** The bounds of a state lie between the ends of the search. */
  predicate Bounded(chainHeight: nat, s: SearchState) {
    s.Probing? ==> LOWEST <= s.min < s.max && s.max + MARGIN <= chainHeight
  }

  lemma BoundsStay(times: nat -> int, target: int, chainHeight: nat, k: nat)
    requires LOWEST + MARGIN <= chainHeight < TWO31 && ConsensusTimes(times, chainHeight)
    ensures Bounded(chainHeight, After(times, target, chainHeight, k))
  {
    AfterCloses(times, target, chainHeight, k);
  }

  /** The search asks only for heights from 5 to chainHeight - 6. */
  lemma AskedInRange(times: nat -> int, target: int, chainHeight: nat, rounds: nat, h: nat)
    requires 21 <= chainHeight < 0x8000_0000 && ConsensusTimes(times, chainHeight)
    requires h in AskedIn(times, target, chainHeight, rounds)
    ensures 5 <= h <= chainHeight - 6
  {
    forall k ensures Bounded(chainHeight, After(times, target, chainHeight, k)) {
      BoundsStay(times, target, chainHeight, k);
    }
    if h in WindowsIn(times, target, chainHeight, rounds) {
      WindowsInRange(times, target, chainHeight, rounds, h);
    } else {
      AfterCloses(times, target, chainHeight, rounds);
    }
  }

  lemma EndsInRange(chainHeight: nat, h: nat)
    requires LOWEST + MARGIN <= chainHeight < TWO31
    requires h in WindowHeights(LOWEST) + WindowHeights(Sub32(chainHeight, MARGIN))
    ensures 5 <= h <= chainHeight - 6
  {
    if h in WindowHeights(LOWEST) {
      WindowWithin(LOWEST, chainHeight, h);
    } else {
      WindowWithin(Sub32(chainHeight, MARGIN), chainHeight, h);
    }
  }

  lemma {:induction false} WindowsInRange(times: nat -> int, target: int, chainHeight: nat, k: nat, h: nat)
    requires LOWEST + MARGIN <= chainHeight < TWO31
    requires forall j :: Bounded(chainHeight, After(times, target, chainHeight, j))
    requires h in WindowsIn(times, target, chainHeight, k)
    ensures 5 <= h <= chainHeight - 6
    decreases k
  {
    if k == 0 {
      EndsInRange(chainHeight, h);
    } else if h in WindowsIn(times, target, chainHeight, k - 1) {
      WindowsInRange(times, target, chainHeight, k - 1, h);
    } else {
      RoundInRange(chainHeight, After(times, target, chainHeight, k - 1), h);
    }
  }

  lemma RoundInRange(chainHeight: nat, s: SearchState, h: nat)
    requires LOWEST + MARGIN <= chainHeight < TWO31 && Bounded(chainHeight, s) && h in RoundHeights(s)
    ensures 5 <= h <= chainHeight - 6
  {
    var avg := Midpoint(s.min, s.max);
    assert s.min <= avg < s.max;
    WindowWithin(avg, chainHeight, h);
  }

  // ----- Chains that are too low -----

  /** Below 15 blocks the first window asks for blocks above the tip; at 15 the second one is around
      height 4, so that no request is sent and 11 responses are awaited. */
  lemma TooLowToBegin(times: nat -> int, chainHeight: nat)
    requires chainHeight < 16
    ensures Begin(times, chainHeight) == Done(if chainHeight < 15 then MissingBlock else Waits)
  {
  }

  /** At chain heights 16 to 20 the bounds are crossed: `max` is below `min`, and their unsigned
      difference is large. */
  lemma CrossedBegin(times: nat -> int, chainHeight: nat)
    requires 16 <= chainHeight < 21
    ensures var low := chainHeight - MARGIN;
      Begin(times, chainHeight) == Probing(LOWEST, MedianAt(times, LOWEST), low, MedianAt(times, low))
  {
  }

  /** All medians from height `low` to the lower bound are `m`. */
  ghost predicate Level(times: nat -> int, low: int, m: int) {
    forall h: nat {:trigger MedianOf(times)(h)} :: low <= h <= LOWEST ==> MedianOf(times)(h) == m
  }

  /** A round between crossed bounds on a chain whose medians there are all the same. */
  lemma LevelRound(times: nat -> int, target: int, chainHeight: nat, min: nat, max: nat, m: int)
    requires 16 <= chainHeight < 21 && chainHeight - MARGIN <= max < min <= LOWEST
    requires Level(times, chainHeight - MARGIN, m)
    ensures var avg := (max + min) / 2;
      Round(times, target, chainHeight, Probing(min, m, max, m))
        == if target == m then Done(Found(avg, m))
           else if target < m then Probing(min, m, avg, m)
           else if avg == max then Done(Found(max, m)) else Probing(avg, m, max, m)
  {
    var avg := (max + min) / 2;
    assert Midpoint(min, max) == avg && max <= avg < min;
    assert MedianOf(times)(avg) == m;
  }

  lemma {:induction false} LevelDown(times: nat -> int, target: int, chainHeight: nat, k: nat, min: nat, m: int)
    returns (n: nat)
    requires 16 <= chainHeight < 21 && chainHeight - MARGIN < min <= LOWEST && target > m
    requires Level(times, chainHeight - MARGIN, m)
    requires After(times, target, chainHeight, k) == Probing(min, m, chainHeight - MARGIN, m)
    ensures After(times, target, chainHeight, n) == Done(Found(chainHeight - MARGIN, m))
    decreases min
  {
    var low := chainHeight - MARGIN;
    LevelRound(times, target, chainHeight, min, low, m);
    n := k + 1;
    if (low + min) / 2 != low {
      n := LevelDown(times, target, chainHeight, k + 1, (low + min) / 2, m);
    }
  }

  lemma {:induction false} LevelForever(times: nat -> int, target: int, chainHeight: nat, k: nat, m: int)
    requires 16 <= chainHeight < 21 && target < m
    requires Level(times, chainHeight - MARGIN, m)
    ensures var s := After(times, target, chainHeight, k);
      s.Probing? && s == Probing(LOWEST, m, s.max, m) && chainHeight - MARGIN <= s.max < LOWEST
  {
    if k == 0 {
      CrossedBegin(times, chainHeight);
      assert MedianOf(times)(LOWEST) == m && MedianOf(times)(chainHeight - MARGIN) == m;
    } else {
      LevelForever(times, target, chainHeight, k - 1, m);
      LevelRound(times, target, chainHeight, LOWEST, After(times, target, chainHeight, k - 1).max, m);
    }
  }

  ghost predicate EndsWith(times: nat -> int, target: int, chainHeight: nat, o: Outcome)
    requires chainHeight < TWO32
  {
    exists k :: After(times, target, chainHeight, k) == Done(o)
  }

  ghost predicate NeverEnds(times: nat -> int, target: int, chainHeight: nat)
    requires chainHeight < TWO32
  {
    forall k :: After(times, target, chainHeight, k).Probing?
  }

  lemma LevelMedians(times: nat -> int, chainHeight: nat)
    requires 16 <= chainHeight < 21 && ConsensusTimes(times, chainHeight)
    requires MedianAt(times, chainHeight - MARGIN) == MedianAt(times, LOWEST)
    ensures Level(times, chainHeight - MARGIN, MedianAt(times, LOWEST))
  {
    MedianOfMonotone(times, chainHeight);
    forall h: nat | chainHeight - MARGIN <= h <= LOWEST ensures MedianOf(times)(h) == MedianAt(times, LOWEST) {
      assert MedianOf(times)(chainHeight - MARGIN) <= MedianOf(times)(h) <= MedianOf(times)(LOWEST);
    }
  }

  lemma SlopedPanics(times: nat -> int, target: int, chainHeight: nat)
    requires 16 <= chainHeight < 21 && ConsensusTimes(times, chainHeight)
    requires MedianAt(times, chainHeight - MARGIN) != MedianAt(times, LOWEST)
    ensures After(times, target, chainHeight, 1) == Done(NonMonotonicMedians)
  {
    var low, avg := chainHeight - MARGIN, (chainHeight - MARGIN + LOWEST) / 2;
    CrossedBegin(times, chainHeight);
    MedianOfMonotone(times, chainHeight);
    assert Midpoint(LOWEST, low) == avg && low <= avg < LOWEST;
    assert MedianOf(times)(low) <= MedianOf(times)(avg) <= MedianOf(times)(LOWEST);
    assert After(times, target, chainHeight, 1) == Round(times, target, chainHeight, Begin(times, chainHeight));
  }

  /** How a search on a valid chain of 16 to 20 blocks ends: with the panic, unless the medians of the
      two ends are equal; then at that median it returns, above it it returns the lower end, and
      below it it goes round for ever. */
  lemma CrossedExactly(times: nat -> int, target: int, chainHeight: nat)
    requires 16 <= chainHeight < 21 && ConsensusTimes(times, chainHeight)
    ensures var low, m := chainHeight - 11, MedianAt(times, 10);
      if MedianAt(times, low) != m then EndsWith(times, target, chainHeight, NonMonotonicMedians)
      else if target == m then EndsWith(times, target, chainHeight, Found((low + 10) / 2, m))
      else if target > m then EndsWith(times, target, chainHeight, Found(low, m))
      else NeverEnds(times, target, chainHeight)
  {
    var low, m := chainHeight - MARGIN, MedianAt(times, LOWEST);
    if MedianAt(times, low) != m {
      SlopedPanics(times, target, chainHeight);
    } else {
      LevelMedians(times, chainHeight);
      CrossedBegin(times, chainHeight);
      LevelRound(times, target, chainHeight, LOWEST, low, m);
      assert After(times, target, chainHeight, 0) == Probing(LOWEST, m, low, m);
      if target == m {
        assert After(times, target, chainHeight, 1) == Done(Found((low + LOWEST) / 2, m));
      } else if target > m {
        var n := LevelDown(times, target, chainHeight, 0, LOWEST, m);
      } else {
        forall k ensures After(times, target, chainHeight, k).Probing? {
          LevelForever(times, target, chainHeight, k, m);
        }
      }
    }
  }

  /** The search returns the block that was asked for. */
  ghost predicate IsRight(times: nat -> int, target: int, chainHeight: nat)
    requires chainHeight < TWO32
  {
    exists k :: After(times, target, chainHeight, k).Done?
      && Bracketed(MedianOf(times), target, chainHeight - MARGIN, After(times, target, chainHeight, k).outcome)
  }

  lemma Deterministic(times: nat -> int, target: int, chainHeight: nat, k: nat, o: Outcome)
    requires chainHeight < TWO32 && After(times, target, chainHeight, k) == Done(o) && !o.Found?
    ensures !IsRight(times, target, chainHeight)
  {
    forall n | After(times, target, chainHeight, n).Done? ensures After(times, target, chainHeight, n) == Done(o) {
      if k <= n {
        StaysDone(times, target, chainHeight, k, n);
      } else {
        StaysDone(times, target, chainHeight, n, k);
      }
    }
  }

  /** A chain on which the search is wrong at every height below 21: one whose times always rise. */
  lemma RisingIsWrong(times: nat -> int, target: int, chainHeight: nat)
    requires chainHeight < 21 && forall h: nat :: times(h) == h
    ensures ConsensusTimes(times, chainHeight) && !IsRight(times, target, chainHeight)
  {
    forall k: nat | WINDOW <= k <= chainHeight ensures times(k) > Median(Window(times, k - WINDOW)) {
      RisingMedian(times, k - WINDOW);
    }
    if chainHeight < 16 {
      TooLowToBegin(times, chainHeight);
      Deterministic(times, target, chainHeight, 0, After(times, target, chainHeight, 0).outcome);
    } else {
      RisingMedian(times, chainHeight - MARGIN - 5);
      RisingMedian(times, LOWEST - 5);
      SlopedPanics(times, target, chainHeight);
      Deterministic(times, target, chainHeight, 1, NonMonotonicMedians);
    }
  }

  /** Exactly from chain height 21 on, every valid chain and every target give the block asked for. */
  lemma SearchExactly(chainHeight: nat)
    requires chainHeight < 0x8000_0000
    ensures (forall times, target :: ConsensusTimes(times, chainHeight) ==> IsRight(times, target, chainHeight))
       <==> 21 <= chainHeight
  {
    if LOWEST + MARGIN <= chainHeight {
      forall times, target | ConsensusTimes(times, chainHeight) ensures IsRight(times, target, chainHeight) {
        SearchCorrect(times, target, chainHeight);
      }
    } else {
      RisingIsWrong((h: nat) => h, 0, chainHeight);
    }
  }

  // ----- Replay -----

  function Replayed(recorded: map<nat, int>): nat -> int {
    (h: nat) => if h in recorded then recorded[h] else 0
  }

  ghost predicate Agrees(times: nat -> int, recorded: map<nat, int>, heights: set<nat>) {
    forall h :: h in heights ==> h in recorded && recorded[h] == times(h)
  }

  lemma WindowReplays(times: nat -> int, recorded: map<nat, int>, chainHeight: nat, height: nat)
    requires Agrees(times, recorded, WindowHeights(height))
    ensures WindowAnswer(Replayed(recorded), chainHeight, height) == WindowAnswer(times, chainHeight, height)
  {
    if height >= 5 {
      forall h: nat | height - 5 <= h < height + 6 ensures Replayed(recorded)(h) == times(h) {
        HeightSetIs(height - 5, height + 6, h);
      }
      assert Window(Replayed(recorded), height - 5) == Window(times, height - 5);
    }
  }

  /** A search over recorded blocks, if the recorded search asked for them, goes through the same
      states and asks for the same heights, so for none that the recording does not have. */
  lemma {:induction false} SearchReplays(times: nat -> int, recorded: map<nat, int>, target: int,
                                          chainHeight: nat, rounds: nat)
    requires chainHeight < TWO32 && Agrees(times, recorded, WindowsIn(times, target, chainHeight, rounds))
    ensures After(Replayed(recorded), target, chainHeight, rounds) == After(times, target, chainHeight, rounds)
    ensures WindowsIn(Replayed(recorded), target, chainHeight, rounds) == WindowsIn(times, target, chainHeight, rounds)
    ensures AskedIn(Replayed(recorded), target, chainHeight, rounds) == AskedIn(times, target, chainHeight, rounds)
  {
    if rounds == 0 {
      WindowReplays(times, recorded, chainHeight, LOWEST);
      WindowReplays(times, recorded, chainHeight, Sub32(chainHeight, MARGIN));
    } else {
      SearchReplays(times, recorded, target, chainHeight, rounds - 1);
      var s := After(times, target, chainHeight, rounds - 1);
      if s.Probing? {
        WindowReplays(times, recorded, chainHeight, Midpoint(s.min, s.max));
      }
    }
  }

  lemma RisingMedian(times: nat -> int, lo: nat)
    requires forall h: nat :: times(h) == h
    ensures Median(Window(times, lo)) == lo + 5
  {
    var w := Window(times, lo);
    assert forall i :: 0 <= i < WINDOW ==> w[i] == lo + i;
    MedianOfSorted(w);
  }

  /** The probe lies strictly between the bounds exactly when the `uint32` sum does not wrap. */
  lemma MidpointWraps(min: nat, max: nat)
    requires min + 1 < max < TWO32
    ensures min < Midpoint(min, max) < max <==> min + max < TWO32
  {
  }
}
