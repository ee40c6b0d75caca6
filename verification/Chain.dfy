/** A block chain, its replay into a set of unspent outputs, and what validity gives. */
module Chain {
  import opened Ledger

  datatype ChainTx = ChainTx(txid: string, ins: seq<OutPoint>, outs: seq<TxOut>)

  /** chain[k] is the block at height k + 1. */
  type Block = seq<ChainTx>

  type Utxo = map<OutPoint, TxOut>

  function NewOutputs(t: ChainTx): Utxo {
    map i | 0 <= i < |t.outs| :: OutPoint(t.txid, i) := t.outs[i]
  }

  /** A transaction removes the outputs it spends and adds its own. */
  function ApplyTx(u: Utxo, t: ChainTx): Utxo {
    u - (set o | o in t.ins) + NewOutputs(t)
  }

  function Replay(txs: seq<ChainTx>): Utxo {
    if txs == [] then map[] else ApplyTx(Replay(txs[..|txs| - 1]), txs[|txs| - 1])
  }

  function ApplyBlock(u: Utxo, block: Block): Utxo {
    if block == [] then u else ApplyTx(ApplyBlock(u, block[..|block| - 1]), block[|block| - 1])
  }

  /** The unspent outputs after the first `height` blocks. */
  function UtxoAt(chain: seq<Block>, height: nat): Utxo
    requires height <= |chain|
  {
    if height == 0 then map[] else ApplyBlock(UtxoAt(chain, height - 1), chain[height - 1])
  }

  /** The transactions of the first `height` blocks in order. */
  function TxsUpTo(chain: seq<Block>, height: nat): seq<ChainTx>
    requires height <= |chain|
  {
    if height == 0 then [] else TxsUpTo(chain, height - 1) + chain[height - 1]
  }

  lemma {:induction false} ReplayBlock(txs: seq<ChainTx>, block: Block)
    ensures Replay(txs + block) == ApplyBlock(Replay(txs), block)
    decreases |block|
  {
    if block == [] {
      assert txs + block == txs;
    } else {
      var n := |block| - 1;
      ReplayBlock(txs, block[..n]);
      assert (txs + block)[..|txs + block| - 1] == txs + block[..n];
    }
  }

  /** Replaying block by block is replaying transaction by transaction. */
  lemma {:induction false} ReplayBlocks(chain: seq<Block>, height: nat)
    requires height <= |chain|
    ensures UtxoAt(chain, height) == Replay(TxsUpTo(chain, height))
  {
    if height > 0 {
      ReplayBlocks(chain, height - 1);
      ReplayBlock(TxsUpTo(chain, height - 1), chain[height - 1]);
    }
  }

  /** The input of a coinbase transaction, which names no output. */
  const NOTHING: OutPoint := OutPoint("0000000000000000000000000000000000000000000000000000000000000000", 0xffff_ffff)

  /** A transaction may follow others if it spends only outputs that are there, each once, and its
      identifier is new. */
  ghost predicate MayFollow(txs: seq<ChainTx>, t: ChainTx) {
    && t.txid != NOTHING.hash
    && (forall k :: 0 <= k < |txs| ==> txs[k].txid != t.txid)
    && (forall j :: 0 <= j < |t.ins| ==> t.ins[j] == NOTHING || t.ins[j] in Replay(txs))
    && (forall j, j' :: 0 <= j < j' < |t.ins| && t.ins[j] == t.ins[j'] ==> t.ins[j] == NOTHING)
    && (forall i :: 0 <= i < |t.outs| ==> t.outs[i].value >= 0)
  }

  ghost predicate Valid(txs: seq<ChainTx>) {
    txs == [] || (Valid(txs[..|txs| - 1]) && MayFollow(txs[..|txs| - 1], txs[|txs| - 1]))
  }

  /** Transaction `k` creates `o`. */
  predicate Creates(txs: seq<ChainTx>, k: int, o: OutPoint) {
    0 <= k < |txs| && txs[k].txid == o.hash && o.index < |txs[k].outs|
  }

  /** Input `j` of transaction `k` spends `o`. */
  predicate Spends(txs: seq<ChainTx>, k: int, j: int, o: OutPoint) {
    0 <= k < |txs| && 0 <= j < |txs[k].ins| && txs[k].ins[j] == o && o != NOTHING
  }

  ghost predicate Created(txs: seq<ChainTx>, o: OutPoint) { exists k :: Creates(txs, k, o) }

  ghost predicate IsSpent(txs: seq<ChainTx>, o: OutPoint) { exists k, j :: Spends(txs, k, j, o) }

  /** What a replay of valid transactions means: the unspent outputs are those created and not
      spent, with the values they were created with. */
  ghost predicate Explains(txs: seq<ChainTx>, u: Utxo) {
    && (forall o :: o in u <==> Created(txs, o) && !IsSpent(txs, o))
    && (forall k, o :: Creates(txs, k, o) && o in u ==> u[o] == txs[k].outs[o.index])
  }

  /** Only what exists is spent, and only once. */
  ghost predicate SpentOnce(txs: seq<ChainTx>) {
    && (forall k, j, o :: Spends(txs, k, j, o) ==> Created(txs, o))
    && (forall k, j, k', j', o :: Spends(txs, k, j, o) && Spends(txs, k', j', o) ==> k == k' && j == j')
  }

  ghost predicate Identified(txs: seq<ChainTx>) {
    && (forall k, k' :: 0 <= k < k' < |txs| ==> txs[k].txid != txs[k'].txid)
    && (forall k :: 0 <= k < |txs| ==> txs[k].txid != NOTHING.hash)
    && (forall k, i :: 0 <= k < |txs| && 0 <= i < |txs[k].outs| ==> txs[k].outs[i].value >= 0)
  }

  lemma Extend(pre: seq<ChainTx>, t: ChainTx)
    ensures var txs := pre + [t];
      && (forall k, o :: Creates(pre, k, o) ==> Creates(txs, k, o))
      && (forall k, j, o :: Spends(pre, k, j, o) ==> Spends(txs, k, j, o))
      && (forall o :: Created(txs, o) <==> Created(pre, o) || o in NewOutputs(t))
      && (forall o :: IsSpent(txs, o) <==> IsSpent(pre, o) || (o in t.ins && o != NOTHING))
  {
    var txs, n := pre + [t], |pre|;
    forall o ensures Created(txs, o) <==> Created(pre, o) || o in NewOutputs(t) {
      if o in NewOutputs(t) {
        assert Creates(txs, n, o);
      }
      if Created(txs, o) {
        var k :| Creates(txs, k, o);
        assert k < n ==> Creates(pre, k, o);
        assert k == n ==> o == OutPoint(t.txid, o.index);
      }
      if Created(pre, o) {
        var k :| Creates(pre, k, o);
        assert Creates(txs, k, o);
      }
    }
    forall o ensures IsSpent(txs, o) <==> IsSpent(pre, o) || (o in t.ins && o != NOTHING) {
      if o in t.ins && o != NOTHING {
        var j :| 0 <= j < |t.ins| && t.ins[j] == o;
        assert Spends(txs, n, j, o);
      }
      if IsSpent(txs, o) {
        var k, j :| Spends(txs, k, j, o);
        assert k < n ==> Spends(pre, k, j, o);
      }
      if IsSpent(pre, o) {
        var k, j :| Spends(pre, k, j, o);
        assert Spends(txs, k, j, o);
      }
    }
  }

  lemma NewIsUnspent(pre: seq<ChainTx>, t: ChainTx, o: OutPoint)
    requires SpentOnce(pre) && MayFollow(pre, t) && o in NewOutputs(t)
    requires forall x :: x in Replay(pre) ==> Created(pre, x)
    ensures !Created(pre, o) && !IsSpent(pre, o) && o !in t.ins
  {
    forall k ensures !Creates(pre, k, o) {}
  }

  lemma ExplainsStep(pre: seq<ChainTx>, t: ChainTx)
    requires Explains(pre, Replay(pre)) && SpentOnce(pre) && Identified(pre) && MayFollow(pre, t)
    ensures Explains(pre + [t], ApplyTx(Replay(pre), t))
  {
    var txs, u, v := pre + [t], Replay(pre), ApplyTx(Replay(pre), t);
    forall o ensures o in v <==> Created(txs, o) && !IsSpent(txs, o) {
      UnspentStep(pre, t, o);
    }
    forall k, o | Creates(txs, k, o) && o in v ensures v[o] == txs[k].outs[o.index] {
      if k < |pre| {
        assert Creates(pre, k, o);
        if o in NewOutputs(t) {
          NewIsUnspent(pre, t, o);
        }
      } else {
        assert o == OutPoint(t.txid, o.index) && o in NewOutputs(t);
      }
    }
  }

  lemma UnspentStep(pre: seq<ChainTx>, t: ChainTx, o: OutPoint)
    requires Explains(pre, Replay(pre)) && SpentOnce(pre) && Identified(pre) && MayFollow(pre, t)
    ensures o in ApplyTx(Replay(pre), t) <==> Created(pre + [t], o) && !IsSpent(pre + [t], o)
  {
    Extend(pre, t);
    if o in NewOutputs(t) {
      NewIsUnspent(pre, t, o);
    } else {
      forall k ensures !Creates(pre, k, NOTHING) {}
    }
  }

  lemma SpentOnceStep(pre: seq<ChainTx>, t: ChainTx)
    requires Explains(pre, Replay(pre)) && SpentOnce(pre) && MayFollow(pre, t)
    ensures SpentOnce(pre + [t])
  {
    var txs, n := pre + [t], |pre|;
    Extend(pre, t);
    forall k, j, o | Spends(txs, k, j, o) ensures Created(txs, o) && (k < n <==> IsSpent(pre, o)) {
      if k < n {
        assert Spends(pre, k, j, o);
      } else {
        assert t.ins[j] == o && o in Replay(pre);
      }
    }
    forall k, j, k', j', o | Spends(txs, k, j, o) && Spends(txs, k', j', o) ensures k == k' && j == j' {
      if k < n {
        assert Spends(pre, k, j, o) && Spends(pre, k', j', o);
      } else {
        assert t.ins[j] == t.ins[j'];
      }
    }
  }

  lemma {:induction false} ReplayExplained(txs: seq<ChainTx>)
    requires Valid(txs)
    ensures Explains(txs, Replay(txs)) && SpentOnce(txs) && Identified(txs)
    decreases |txs|
  {
    if txs != [] {
      var pre, t := txs[..|txs| - 1], txs[|txs| - 1];
      ReplayExplained(pre);
      assert txs == pre + [t];
      ExplainsStep(pre, t);
      SpentOnceStep(pre, t);
    }
  }
}
