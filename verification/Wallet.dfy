/** The wallet as the outside world sees it, and the limits that address discovery must reach. */
module Wallet {
  import opened Basics
  import opened Deriver

  datatype RawTx = RawTx(height: int, hex: string)

  /** One value per derivation chain: 0 for receive, 1 for change addresses. */
  type Pair = p: seq<nat> | |p| == 2 witness [0, 0]

  /** A fixed outside world: how addresses are derived and encoded, and what a backend knows. */
  datatype World = World(
    deriver: AddressDeriver,
    lookahead: nat,
    script: Address -> string,        // hex of the script that pays an address
    history: Address -> seq<string>,  // hashes of the transactions that touch an address
    tx: string -> RawTx)              // height and raw bytes of a transaction
  {
    function Addr(chain: nat, i: nat): (a: Address)
      requires chain < 2
      ensures a.change < 2
    {
      deriver.Derive(chain, i)
    }

    predicate Used(chain: nat, i: nat)
      requires chain < 2
    {
      history(Addr(chain, i)) != []
    }

    /** The limit that a used address asks for, on the chain it reports. */
    ghost predicate Within(m: Pair, chain: nat, i: nat)
      requires chain < 2
    {
      var a := Addr(chain, i);
      a.addrIndex + lookahead <= m[a.change]
    }

    /** Limits that no address below them asks to be raised. */
    ghost predicate Closed(m: Pair) {
      && (forall c: nat :: c < 2 ==> lookahead <= m[c])
      && (forall c: nat, i: nat {:trigger Used(c, i)} :: c < 2 && i < m[c] && Used(c, i) ==> Within(m, c, i))
    }

    ghost predicate LeastClosed(m: Pair) {
      && Closed(m)
      && (forall other: Pair :: Closed(other) ==> m[0] <= other[0] && m[1] <= other[1])
    }

    /** History entries of the first `n` addresses of a chain. */
    ghost function HistorySum(chain: nat, n: nat): nat
      requires chain < 2
      decreases n
    {
      if n == 0 then 0 else HistorySum(chain, n - 1) + |history(Addr(chain, n - 1))|
    }

    /** No index ever reaches 2^31, where BIP 32 children become hardened, and all histories together
        hold fewer than 2^32 entries. */
    ghost predicate Bounded(top: Pair) {
      && Closed(top)
      && top[0] < TWO31 && top[1] < TWO31
      && HistorySum(0, top[0]) + HistorySum(1, top[1]) < TWO32
    }

    lemma {:induction false} HistorySumMonotone(chain: nat, n: nat, m: nat)
      requires chain < 2 && n <= m
      ensures HistorySum(chain, n) <= HistorySum(chain, m)
      decreases m
    {
      if n < m {
        HistorySumMonotone(chain, n, m - 1);
      }
    }

    /** The least closed limits are unique. */
    lemma LeastUnique(m: Pair, other: Pair)
      requires LeastClosed(m) && LeastClosed(other)
      ensures m == other
    {
    }
  }

  /** If every used index plus the lookahead stays below 2^31, limits of 2^31 - 1 are closed. */
  lemma NoWrapSuffices(w: World)
    requires w.lookahead < TWO31
    requires forall c: nat, i: nat :: c < 2 && w.Used(c, i) ==> w.Addr(c, i).addrIndex + w.lookahead < TWO31
    ensures w.Closed([TWO31 - 1, TWO31 - 1])
  {
    var m: Pair := [TWO31 - 1, TWO31 - 1];
    forall c: nat, i: nat | c < 2 && i < m[c] && w.Used(c, i) ensures w.Within(m, c, i) {
    }
  }

  /** A limit for one chain alone. */
  ghost predicate ChainLimit(w: World, chain: nat, limit: nat)
    requires chain < 2
  {
    && w.lookahead <= limit
    && (forall i: nat {:trigger w.Used(chain, i)} :: i < limit && w.Used(chain, i) ==> i + w.lookahead <= limit)
  }

  ghost predicate LeastChainLimit(w: World, chain: nat, limit: nat)
    requires chain < 2
  {
    ChainLimit(w, chain, limit) && (forall l: nat :: ChainLimit(w, chain, l) ==> limit <= l)
  }

  lemma ClosedPerChain(w: World, m: Pair)
    requires w.deriver.singleAddress == ""
    ensures w.Closed(m) <==> ChainLimit(w, 0, m[0]) && ChainLimit(w, 1, m[1])
  {
    if ChainLimit(w, 0, m[0]) && ChainLimit(w, 1, m[1]) {
      forall c: nat, i: nat | c < 2 && i < m[c] && w.Used(c, i) ensures w.Within(m, c, i) {
        if c == 0 {
          assert ChainLimit(w, 0, m[0]);
        } else {
          assert c == 1 && ChainLimit(w, 1, m[1]);
        }
      }
    }
    if w.Closed(m) {
      forall i: nat | i < m[0] && w.Used(0, i) ensures i + w.lookahead <= m[0] {
        assert w.Within(m, 0, i);
      }
      forall i: nat | i < m[1] && w.Used(1, i) ensures i + w.lookahead <= m[1] {
        assert w.Within(m, 1, i);
      }
    }
  }

  /** For an HD wallet the two chains are independent: the least closed limits are, chain by chain,
      the least L >= lookahead with i + lookahead <= L for every used index i < L. */
  lemma LimitsPerChain(w: World, m: Pair)
    requires w.deriver.singleAddress == ""
    ensures w.LeastClosed(m) <==> LeastChainLimit(w, 0, m[0]) && LeastChainLimit(w, 1, m[1])
  {
    ClosedPerChain(w, m);
    if w.LeastClosed(m) {
      forall l: nat | ChainLimit(w, 0, l) ensures m[0] <= l { ClosedPerChain(w, [l, m[1]]); }
      forall l: nat | ChainLimit(w, 1, l) ensures m[1] <= l { ClosedPerChain(w, [m[0], l]); }
    }
    if LeastChainLimit(w, 0, m[0]) && LeastChainLimit(w, 1, m[1]) {
      forall other: Pair | w.Closed(other) ensures m[0] <= other[0] && m[1] <= other[1] {
        ClosedPerChain(w, other);
      }
    }
  }

  /** The gap that is checked: beyond the last used index lie exactly lookahead - 1 unused ones
      below the limit (BIP 44's "Address gap limit" would ask for lookahead of them). */
  lemma GapLimit(w: World, chain: nat, limit: nat)
    requires chain < 2 && LeastChainLimit(w, chain, limit)
    ensures limit > w.lookahead ==>
      && w.Used(chain, limit - w.lookahead)
      && (forall i: nat :: limit - w.lookahead < i < limit ==> !w.Used(chain, i))
    ensures limit == w.lookahead ==> forall i: nat :: 0 < i < limit ==> !w.Used(chain, i)
  {
    if limit > w.lookahead && !w.Used(chain, limit - w.lookahead) {
      var l: nat := limit - 1;
      assert !ChainLimit(w, chain, l);
      var i: nat :| i < l && w.Used(chain, i) && i + w.lookahead > l;
      assert false;
    }
  }

  /** In single-address mode the limits never move. */
  lemma SingleAddressLimits(w: World, m: Pair)
    requires w.deriver.singleAddress != ""
    ensures w.LeastClosed(m) <==> m == [w.lookahead, w.lookahead]
  {
    var least: Pair := [w.lookahead, w.lookahead];
    assert w.Closed(least);
  }
}
