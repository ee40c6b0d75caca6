/** What the two memo tables of the Btcd backend save, and where they cut the caching of a history short. */
module BtcdTables {
  import opened Basics
  import opened Deriver
  import opened Wallet
  import opened Fetching
  import opened Workers
  import opened Btcd
  import opened BtcdRuns

  // ----- Nothing is asked for twice -----

  predicate AsksHeight(v: Worker, blockHash: string) {
    v.AskNode? && Safe(v) && BlockHash(v.k) == blockHash
  }

  /** The height of a block is in the table, and no worker is about to ask the node for it. */
  ghost predicate HeightKnown(p: Pool, blockHash: string) {
    blockHash in p.heights && forall v :: v in p.workers ==> !AsksHeight(v, blockHash)
  }

  /** The same for a transaction. */
  ghost predicate TxKnown(p: Pool, hash: string) {
    hash in p.cached && forall v :: v in p.workers ==> v != Fetching(hash)
  }

  lemma MoveRemembers(n: Node, p: Pool, v: Worker, next: Worker, blockHash: string, hash: string)
    requires Safe(v) && NextMove(n, p, v) == To(next)
    ensures blockHash in p.heights ==> !AsksHeight(next, blockHash)
    ensures hash in p.cached ==> next != Fetching(hash)
  {
  }

  lemma PoolRemembers(n: Node, p: Pool, a: PoolAction, p': Pool, blockHash: string, hash: string)
    requires PoolEnabled(p, a) && p' == PoolApply(n, p, a)
    ensures HeightKnown(p, blockHash) ==> HeightKnown(p', blockHash)
    ensures TxKnown(p, hash) ==> TxKnown(p', hash)
  {
    forall v | v in p'.workers && v !in p.workers
      ensures blockHash in p.heights ==> !AsksHeight(v, blockHash)
      ensures hash in p.cached ==> v != Fetching(hash)
    {
      if a.Advance? {
        assert NextMove(n, p, p.workers[a.worker]) == To(v);
        MoveRemembers(n, p, p.workers[a.worker], v, blockHash, hash);
      }
    }
    assert p.heights.Keys <= p'.heights.Keys && p.cached.Keys <= p'.cached.Keys;
  }

  /** In every interleaving, what a table has is never asked for again, except by a worker that was past its
      lookup already. */
  lemma {:induction false} KnownForGood(w: World, n: Node, s: Sys, run: seq<Step<PoolAction>>,
                                        blockHash: string, hash: string)
    requires RunOf(w, n, s, run)
    ensures HeightKnown(s.pool, blockHash) ==> HeightKnown(EndOf(w, n, s, run).pool, blockHash)
    ensures TxKnown(s.pool, hash) ==> TxKnown(EndOf(w, n, s, run).pool, hash)
    decreases |run|
  {
    if run != [] {
      var t := StepApply(w, n, s, run[0]);
      if run[0].ByWorker? {
        PoolRemembers(n, s.pool, run[0].effect, t.pool, blockHash, hash);
      }
      KnownForGood(w, n, t, run[1..], blockHash, hash);
    }
  }

  // ----- A worker by itself -----

  /** The pool after `k` steps of worker `i` alone. */
  ghost predicate Alone(n: Node, p: Pool, i: nat, k: nat, p': Pool)
    decreases k
  {
    if k == 0 then p' == p
    else PoolEnabled(p, Advance(i)) && Alone(n, PoolApply(n, p, Advance(i)), i, k - 1, p')
  }

  lemma {:induction false} AloneOn(n: Node, p: Pool, i: nat, k: nat, p': Pool, l: nat, p'': Pool)
    requires Alone(n, p, i, k, p') && Alone(n, p', i, l, p'')
    ensures Alone(n, p, i, k + l, p'')
    decreases k
  {
    if k > 0 {
      AloneOn(n, PoolApply(n, p, Advance(i)), i, k - 1, p', l, p'');
    }
  }

  lemma OneMore(n: Node, p: Pool, i: nat, k: nat, p': Pool)
    requires Alone(n, p, i, k, p') && PoolEnabled(p', Advance(i))
    ensures Alone(n, p, i, k + 1, PoolApply(n, p', Advance(i)))
  {
    assert Alone(n, PoolApply(n, p', Advance(i)), i, 0, PoolApply(n, p', Advance(i)));
    AloneOn(n, p, i, k, p', 1, PoolApply(n, p', Advance(i)));
  }

  /** Worker `i` is about to do `v`, over these tables. */
  predicate Stands(p: Pool, i: nat, v: Worker, cached: map<string, TxResponse>) {
    p.crash.None? && i < |p.workers| && p.workers[i] == v && p.cached == cached
  }

  /** getBlockHeight, in a worker by itself: the height, from the table or the node, or the panic. */
  lemma FindsHeight(n: Node, p: Pool, i: nat, k: Purpose) returns (steps: nat, p': Pool)
    requires Stands(p, i, Lookup(k), p.cached) && Safe(Lookup(k)) && SoundTables(n, p.cached, p.heights)
    ensures Alone(n, p, i, steps, p') && SoundTables(n, p'.cached, p'.heights)
    ensures match n.blockHeight(BlockHash(k))
      case None => p'.crash == Some(UnknownBlock)
      case Some(height) => Stands(p', i, GotHeight(k, height), p.cached) && BlockHash(k) in p'.heights
  {
    steps, p' := 1, PoolApply(n, p, Advance(i));
    assert Alone(n, p', i, 0, p');
    if BlockHash(k) !in p.heights {
      OneMore(n, p, i, steps, p');
      steps, p' := 2, PoolApply(n, p', Advance(i));
      if p'.crash.None? {
        OneMore(n, p, i, steps, p');
        steps, p' := 3, PoolApply(n, p', Advance(i));
      }
    }
  }

  /** One transaction of a history: it is cached, or its block is unknown. */
  lemma CachesNext(n: Node, p: Pool, i: nat, x: Address, txs: seq<RawResult>, next: nat) returns (steps: nat, p': Pool)
    requires next < |txs| && Stands(p, i, Caching(x, txs, next), p.cached) && SoundTables(n, p.cached, p.heights)
    requires txs[next].txid !in p.cached && n.rawTx(txs[next].txid) == Some(txs[next])
    ensures Alone(n, p, i, steps, p') && SoundTables(n, p'.cached, p'.heights)
    ensures if Unmined(n, txs, next) then p'.crash == Some(UnknownBlock)
            else && Stands(p', i, Caching(x, txs, next + 1), p'.cached)
                 && p'.cached.Keys == p.cached.Keys + {txs[next].txid}
  {
    var k := ForCache(x, txs, next);
    var p1 := PoolApply(n, p, Advance(i));
    var more, p2 := FindsHeight(n, p1, i, k);
    steps, p' := 1 + more, p2;
    if p2.crash.None? {
      OneMore(n, p, i, steps, p2);
      steps, p' := steps + 1, PoolApply(n, p2, Advance(i));
    }
  }

  ghost predicate Listed(n: Node, txs: seq<RawResult>) {
    forall j :: 0 <= j < |txs| ==> n.rawTx(txs[j].txid) == Some(txs[j])
  }

  /** It returns at the end of the listing, and at a transaction in the table. */
  lemma StopsCaching(n: Node, p: Pool, i: nat, x: Address, txs: seq<RawResult>, next: nat, entry: set<string>, p': Pool)
    requires next <= |txs| && Stands(p, i, Caching(x, txs, next), p.cached) && SoundTables(n, p.cached, p.heights)
    requires Listed(n, txs) && CachedUpTo(n, txs, next, entry, p.cached.Keys, {})
    requires (next == |txs| || txs[next].txid in p.cached) && p' == PoolApply(n, p, Advance(i))
    ensures Alone(n, p, i, 1, p') && Stands(p', i, Ready(Listing(x, txs)), p'.cached)
    ensures EndsAt(n, txs, next, true, entry, {})
  {
    assert Alone(n, p', i, 0, p');
    if next < |txs| {
      CachedCheck(n, txs, next, entry, p.cached.Keys, {});
      assert Uncached(n, txs[next].txid).Some?;
    }
  }

  /** cacheTxs, in a worker by itself, ends as the loop of the code does. */
  lemma {:induction false} CachesAlone(n: Node, p: Pool, i: nat, x: Address, txs: seq<RawResult>, next: nat,
                                       entry: set<string>) returns (steps: nat, p': Pool, stop: nat, ok: bool)
    requires next <= |txs| && Stands(p, i, Caching(x, txs, next), p.cached) && SoundTables(n, p.cached, p.heights)
    requires Listed(n, txs) && CachedUpTo(n, txs, next, entry, p.cached.Keys, {})
    ensures Alone(n, p, i, steps, p') && EndsAt(n, txs, stop, ok, entry, {})
    ensures if ok then Stands(p', i, Ready(Listing(x, txs)), p'.cached) else p'.crash == Some(UnknownBlock)
    decreases |txs| - next
  {
    if next == |txs| || txs[next].txid in p.cached {
      steps, p', stop, ok := 1, PoolApply(n, p, Advance(i)), next, true;
      StopsCaching(n, p, i, x, txs, next, entry, p');
    } else {
      CachedCheck(n, txs, next, entry, p.cached.Keys, {});
      var first, p1 := CachesNext(n, p, i, x, txs, next);
      if p1.crash.Some? {
        steps, p', stop, ok := first, p1, next, false;
      } else {
        CachedStep(n, txs, next, entry, p.cached.Keys, {});
        var rest;
        rest, p', stop, ok := CachesAlone(n, p1, i, x, txs, next + 1, entry);
        AloneOn(n, p, i, first, p1, rest, p');
        steps := first + rest;
      }
    }
  }

  /** A worker that handles an address request by itself answers with the whole history exactly when the
      backend can answer it with what is cached then, and panics otherwise. */
  lemma AnswersAlone(n: Node, p: Pool, i: nat, x: Address) returns (steps: nat, p': Pool)
    requires OneChain(n) && SoundTables(n, p.cached, p.heights) && Stands(p, i, Taken(AddrJob(x)), p.cached)
    ensures Alone(n, p, i, steps, p')
    ensures if Answerable(n, x, p.cached.Keys)
            then p'.crash.None? && i < |p'.workers|
                 && p'.workers[i] == Ready(AddrDone(AddrResponse(x, HistoryOf(n, x))))
            else p'.crash.Some?
  {
    steps, p' := 1, PoolApply(n, p, Advance(i));
    assert Alone(n, p', i, 0, p');
    if n.search(x).Some? && p'.crash.None? {
      var txs := n.search(x).value;
      assert Listed(n, txs) by {
        forall j | 0 <= j < |txs| ensures n.rawTx(txs[j].txid) == Some(txs[j]) {
          assert n.search(x).value[j] == txs[j];
        }
      }
      var more, p2, stop, ok := CachesAlone(n, p', i, x, txs, 0, p.cached.Keys);
      EndMeans(n, txs, stop, ok, p.cached.Keys, {});
      assert p.cached.Keys + {} == p.cached.Keys;
      steps, p' := 1 + more, p2;
    }
  }
}
