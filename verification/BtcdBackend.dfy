/** The Btcd backend as code: what one worker computes while others use the same tables. */
module BtcdBackend {
  import opened Basics
  import opened Deriver
  import opened Fetching
  import opened Btcd
  import opened BtcdRuns

  class BtcdBackend {
    const node: Node
    var cachedTransactions: map<string, TxResponse>
    var blockHeightLookup: map<string, int>
    ghost var others: set<string>   // transactions that other workers have cached

    constructor (node: Node)
      ensures this.node == node && Sound() && cachedTransactions == map[] && blockHeightLookup == map[]
      ensures others == {}
    {
      this.node := node;
      cachedTransactions, blockHeightLookup, others := map[], map[], {};
    }

    ghost predicate Sound()
      reads this
    {
      SoundTables(node, cachedTransactions, blockHeightLookup)
    }

    /** Between two critical sections other workers may have added to the tables. A caller knows no
        more than that what they added is sound and counted in `others`; nothing is ever taken out. */
    method Yield()
      requires Sound()
      modifies this
      ensures Sound() && old(others) <= others
      ensures old(cachedTransactions.Keys) <= cachedTransactions.Keys
      ensures cachedTransactions.Keys <= old(cachedTransactions.Keys) + (others - old(others))
    {
    }

    method GetBlockHeight(hash: string) returns (height: Option<int>)
      requires Sound()
      modifies this
      ensures Sound() && height == node.blockHeight(hash) && old(others) <= others
      ensures old(cachedTransactions.Keys) <= cachedTransactions.Keys
      ensures cachedTransactions.Keys <= old(cachedTransactions.Keys) + (others - old(others))
    {
      if hash in blockHeightLookup {
        return Some(blockHeightLookup[hash]);
      }
      Yield();
      height := node.blockHeight(hash);
      if height.None? {
        return;
      }
      Yield();
      blockHeightLookup := blockHeightLookup[hash := height.value];
    }

    /** One round of the caching loop: the transaction is stored, or the loop is over, because it was in
        the table or because its block is unknown. `before` is what others had cached at entry. */
    method CacheOne(txs: seq<RawResult>, k: nat, ghost entry: set<string>, ghost before: set<string>)
      returns (end: Option<bool>)
      requires Sound() && before <= others && k < |txs| && node.rawTx(txs[k].txid) == Some(txs[k])
      requires CachedUpTo(node, txs, k, entry, cachedTransactions.Keys, others - before)
      modifies this
      ensures Sound() && before <= others
      ensures end.None? ==> CachedUpTo(node, txs, k + 1, entry, cachedTransactions.Keys, others - before)
      ensures end.Some? ==> EndsAt(node, txs, k, end.value, entry, others - before)
      ensures Txids(txs, k) <= cachedTransactions.Keys
    {
      var tx := txs[k];
      Yield();
      CachedCheck(node, txs, k, entry, cachedTransactions.Keys, others - before);
      if tx.txid in cachedTransactions {
        assert Uncached(node, tx.txid).Some?;
        return Some(true);
      }
      var height := GetBlockHeight(tx.blockHash);
      if height.None? {
        return Some(false);
      }
      Yield();
      CachedStep(node, txs, k, entry, cachedTransactions.Keys, others - before);
      cachedTransactions := cachedTransactions[tx.txid := TxResponse(tx.txid, height.value, tx.hex)];
      end := None;
    }

    /** Caches a history up to the first transaction that is cached already, and panics on an unknown
        block; `stop` is how far it comes. Without interference it succeeds if and only if every
        transaction in an unknown block is shielded by one at which it returns. */
    method CacheTxs(txs: seq<RawResult>) returns (ok: bool, stop: nat)
      requires Sound() && OneChain(node)
      requires forall i :: 0 <= i < |txs| ==> node.rawTx(txs[i].txid) == Some(txs[i])
      modifies this
      ensures Sound() && old(others) <= others
      ensures EndsAt(node, txs, stop, ok, old(cachedTransactions.Keys), others - old(others))
      ensures Txids(txs, stop) <= cachedTransactions.Keys
      ensures others == old(others) ==> (ok <==> Shielded(node, txs, old(cachedTransactions.Keys)))
    {
      ghost var entry := cachedTransactions.Keys;
      var end: Option<bool> := None;
      stop := 0;
      while stop < |txs| && end.None?
        invariant Sound() && old(others) <= others && stop <= |txs| && Txids(txs, stop) <= cachedTransactions.Keys
        invariant if end.None? then CachedUpTo(node, txs, stop, entry, cachedTransactions.Keys, others - old(others))
                  else EndsAt(node, txs, stop, end.value, entry, others - old(others))
        decreases |txs| - stop, end.None?
      {
        end := CacheOne(txs, stop, entry, old(others));
        if end.None? {
          stop := stop + 1;
        }
      }
      ok := end != Some(false);
      EndMeans(node, txs, stop, ok, entry, others - old(others));
      assert others == old(others) ==> entry + (others - old(others)) == entry;
    }

    /** Whatever other workers do to the tables meanwhile, a transaction request gets the answer of
        the uncached path; None stands for the panic of processRequests. */
    method ProcessTxRequest(txHash: string) returns (response: Option<TxResponse>)
      requires Sound()
      modifies this
      ensures Sound() && response == Uncached(node, txHash)
    {
      Yield();
      if txHash in cachedTransactions {
        return Some(cachedTransactions[txHash]);
      }
      var raw := node.rawTx(txHash);
      if raw.None? {
        return None;
      }
      var height := GetBlockHeight(raw.value.blockHash);
      if height.None? {
        return None;
      }
      response := Some(TxResponse(txHash, height.value, raw.value.hex));
    }

    /** An address request is answered with the whole history, or the worker panics: above 1000
        transactions, or at a transaction outside the known blocks that nothing shields. Without
        interference it panics exactly then. */
    method ProcessAddrRequest(address: Address) returns (response: Option<AddrResponse>)
      requires Sound() && OneChain(node)
      modifies this
      ensures Sound()
      ensures response.Some? ==> response.value == AddrResponse(address, HistoryOf(node, address))
      ensures response.Some? ==> Answerable(node, address, old(cachedTransactions.Keys) + (others - old(others)))
      ensures response.None? ==> !Answerable(node, address, old(cachedTransactions.Keys))
      ensures others == old(others) ==> (response.Some? <==> Answerable(node, address, old(cachedTransactions.Keys)))
      ensures node.search(address).Some? ==>
        && (|node.search(address).value| <= 1000 && AllMined(node, node.search(address).value) ==> response.Some?)
        && (|node.search(address).value| > 1000 ==> response.None?)
    {
      var found := node.search(address);
      if found.None? {
        return Some(AddrResponse(address, []));
      }
      var txs := found.value;
      if |txs| > MAX_TXS_PER_ADDR {
        return None;
      }
      var txHashes: seq<string> := [];
      for k := 0 to |txs|
        invariant txHashes == TxidsOf(txs)[..k]
      {
        txHashes := txHashes + [txs[k].txid];
      }
      assert txHashes == TxidsOf(txs);
      forall i | 0 <= i < |txs| ensures node.rawTx(txs[i].txid) == Some(txs[i]) {
        assert node.search(address).value[i] == txs[i];
      }
      ghost var entry := cachedTransactions.Keys;
      var ok, stop := CacheTxs(txs);
      EndMeans(node, txs, stop, ok, entry, others - old(others));
      response := if ok then Some(AddrResponse(address, txHashes)) else None;
    }
  }
}
