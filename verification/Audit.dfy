/** Why the ledger's unspent sum is the value of the chain's unspent outputs. */
module Audit {
  import opened Basics
  import opened Sums
  import opened Wallet
  import opened Ledger
  import opened Chain
  import opened Fetching
  import opened FetchingSafety
  import opened FetchingResults

  /** The unspent outputs that pay one of the scripts, with their values. */
  function OursOf(u: Utxo, scripts: set<string>): map<OutPoint, int> {
    map o | o in u && u[o].script in scripts :: u[o].value
  }

  /** The ledger entry of a chain transaction. */
  function EntryOf(t: ChainTx, scripts: set<string>): Tx {
    Tx(t.ins, seq(|t.outs|, i requires 0 <= i < |t.outs| =>
                  Out(t.outs[i].value, t.outs[i].script, t.outs[i].script in scripts)))
  }

  predicate At(txs: seq<ChainTx>, k: int, h: string) {
    0 <= k < |txs| && txs[k].txid == h
  }

  /** Every entry of the book is a chain transaction, entered with the given scripts. */
  ghost predicate FromChain(txs: seq<ChainTx>, scripts: set<string>, b: Book) {
    forall h :: h in b ==> exists k :: At(txs, k, h) && b[h] == EntryOf(txs[k], scripts)
  }

  predicate Pays(t: ChainTx, scripts: set<string>) {
    exists i :: 0 <= i < |t.outs| && t.outs[i].script in scripts
  }

  /** Transaction `k` spends an output that pays one of the scripts. */
  ghost predicate SpendsOurs(txs: seq<ChainTx>, k: int, scripts: set<string>) {
    exists j, o, k' :: Spends(txs, k, j, o) && Creates(txs, k', o) && txs[k'].outs[o.index].script in scripts
  }

  /** Every chain transaction that touches one of the scripts is in the book. */
  ghost predicate Complete(txs: seq<ChainTx>, scripts: set<string>, b: Book) {
    forall k :: 0 <= k < |txs| && (Pays(txs[k], scripts) || SpendsOurs(txs, k, scripts)) ==> txs[k].txid in b
  }

  ghost predicate Sound(txs: seq<ChainTx>, scripts: set<string>, b: Book) {
    && Explains(txs, Replay(txs)) && SpentOnce(txs) && Identified(txs)
    && FromChain(txs, scripts, b) && Complete(txs, scripts, b)
  }

  /** An entry comes from the one transaction with its identifier. */
  lemma EntryAt(txs: seq<ChainTx>, scripts: set<string>, b: Book, k: int)
    requires Identified(txs) && FromChain(txs, scripts, b) && 0 <= k < |txs| && txs[k].txid in b
    ensures b[txs[k].txid] == EntryOf(txs[k], scripts)
  {
    var k' :| At(txs, k', txs[k].txid) && b[txs[k].txid] == EntryOf(txs[k'], scripts);
    assert k == k';
  }

  /** An input in the book that names an output of a chain transaction spends it in the chain. */
  lemma NamesSpends(txs: seq<ChainTx>, scripts: set<string>, b: Book, h: string, j: int, o: OutPoint) returns (k: int)
    requires FromChain(txs, scripts, b) && Identified(txs)
    requires Names(b, h, j, o) && (exists k :: At(txs, k, o.hash))
    ensures Spends(txs, k, j, o) && txs[k].txid == h
  {
    k :| At(txs, k, h) && b[h] == EntryOf(txs[k], scripts);
    var c :| At(txs, c, o.hash);
    assert txs[c].txid != NOTHING.hash;
  }

  lemma NoPanics(txs: seq<ChainTx>, scripts: set<string>, b: Book)
    requires Sound(txs, scripts, b)
    ensures !BadIndex(b) && !DoubleSpend(b)
  {
    forall h, j, o | Names(b, h, j, o) && o.hash in b ensures o.index < |b[o.hash].vout| {
      var k := NamesSpends(txs, scripts, b, h, j, o);
      var c :| Creates(txs, c, o);
      EntryAt(txs, scripts, b, c);
    }
    forall h, j, h', j', o | Names(b, h, j, o) && Names(b, h', j', o) && o in Credits(b)
      ensures (h, j) == (h', j')
    {
      assert o.hash in b;
      var k := NamesSpends(txs, scripts, b, h, j, o);
      var k' := NamesSpends(txs, scripts, b, h', j', o);
    }
  }

  /** Our credits are the outputs ever created that pay us. */
  lemma CreditsAreCreated(txs: seq<ChainTx>, scripts: set<string>, b: Book, o: OutPoint, k: int)
    requires Sound(txs, scripts, b) && Creates(txs, k, o)
    ensures o in Credits(b) <==> txs[k].outs[o.index].script in scripts
    ensures o in Credits(b) ==> Credits(b)[o] == txs[k].outs[o.index].value
  {
    if txs[k].txid in b {
      EntryAt(txs, scripts, b, k);
      assert o in Outputs(b);
    } else {
      assert !Pays(txs[k], scripts);
    }
  }

  lemma SpentAlike(txs: seq<ChainTx>, scripts: set<string>, b: Book, o: OutPoint)
    requires Sound(txs, scripts, b) && o in Credits(b)
    ensures Spent(b, o) <==> IsSpent(txs, o)
  {
    assert o.hash in b;
    var c :| At(txs, c, o.hash) && b[o.hash] == EntryOf(txs[c], scripts);
    assert Creates(txs, c, o);
    if Spent(b, o) {
      var h, j :| Names(b, h, j, o);
      var k := NamesSpends(txs, scripts, b, h, j, o);
    }
    if IsSpent(txs, o) {
      var k, j :| Spends(txs, k, j, o);
      CreditsAreCreated(txs, scripts, b, o, c);
      assert SpendsOurs(txs, k, scripts);
      EntryAt(txs, scripts, b, k);
      assert Names(b, txs[k].txid, j, o);
    }
  }

  lemma UnspentAt(txs: seq<ChainTx>, scripts: set<string>, b: Book, o: OutPoint)
    requires Sound(txs, scripts, b)
    ensures var u := Replay(txs);
      && (o in Unspent(b) <==> o in u && u[o].script in scripts)
      && (o in Unspent(b) ==> Unspent(b)[o] == u[o].value)
  {
    if o in Credits(b) {
      var c :| At(txs, c, o.hash) && b[o.hash] == EntryOf(txs[c], scripts);
      assert Creates(txs, c, o);
      CreditsAreCreated(txs, scripts, b, o, c);
      SpentAlike(txs, scripts, b, o);
    } else if o in Replay(txs) {
      var c :| Creates(txs, c, o);
      CreditsAreCreated(txs, scripts, b, o, c);
    }
  }

  /** The outputs that the ledger finds unspent are the chain's unspent outputs that pay us. */
  lemma UnspentIsUtxo(txs: seq<ChainTx>, scripts: set<string>, b: Book)
    requires Sound(txs, scripts, b)
    ensures Unspent(b) == OursOf(Replay(txs), scripts)
  {
    forall o ensures (o in Unspent(b) <==> o in OursOf(Replay(txs), scripts))
      && (o in Unspent(b) ==> Unspent(b)[o] == OursOf(Replay(txs), scripts)[o])
    {
      UnspentAt(txs, scripts, b, o);
    }
  }

  lemma OursNonNegative(txs: seq<ChainTx>, scripts: set<string>)
    requires Explains(txs, Replay(txs)) && Identified(txs)
    ensures SumMap(OursOf(Replay(txs), scripts)) >= 0
  {
    var ours := OursOf(Replay(txs), scripts);
    forall o | o in ours ensures ours[o] >= 0 {
      var c :| Creates(txs, c, o);
    }
    SumMapNonNegative(ours);
  }

  /** On such a book `balance()` returns, and returns the value of our unspent outputs. The running
      balance may wrap on the way; the result cannot, if the final value is an int64. */
  lemma BalanceIsUtxoValue(txs: seq<ChainTx>, scripts: set<string>, b: Book, r: Outcome)
    requires Sound(txs, scripts, b) && Settles(b, r)
    requires SumMap(OursOf(Replay(txs), scripts)) < TWO63
    ensures r.Balance? && r.amount == SumMap(OursOf(Replay(txs), scripts))
  {
    NoPanics(txs, scripts, b);
    UnspentIsUtxo(txs, scripts, b);
    OursNonNegative(txs, scripts);
  }

  /** Transaction `k` of block `height` of a chain. */
  predicate InBlock(chain: seq<Block>, height: int, k: int) {
    1 <= height <= |chain| && 0 <= k < |chain[height - 1]|
  }

  /** The world serves this chain: heights and bytes of its transactions are right, the histories of
      the addresses below the limits are complete, and what they list at one of the chain's heights is in
      the chain. They may also list transactions that are not mined, or mined later. */
  ghost predicate Serves(w: World, parse: Parser, chain: seq<Block>, limits: Pair) {
    && Valid(TxsUpTo(chain, |chain|))
    && (forall height, k :: InBlock(chain, height, k) ==> ServesTx(w, parse, height, chain[height - 1][k]))
    && (forall a, k :: a in Asked(w, limits) && TouchesAt(TxsUpTo(chain, |chain|), k, w.script(a))
          ==> TxsUpTo(chain, |chain|)[k].txid in w.history(a))
    && (forall h :: h in Revealed(w, Asked(w, limits)) && 0 < w.tx(h).height <= |chain| ==> ConfirmedAt(w, chain, h))
  }

  ghost predicate ServesTx(w: World, parse: Parser, height: int, t: ChainTx) {
    w.tx(t.txid).height == height && parse(w.tx(t.txid).hex) == Some(ParsedTx(t.ins, t.outs))
  }

  ghost predicate ConfirmedAt(w: World, chain: seq<Block>, h: string) {
    exists k :: InBlock(chain, w.tx(h).height, k) && chain[w.tx(h).height - 1][k].txid == h
  }

  /** Transaction `k` pays the script or spends an output that does. */
  ghost predicate TouchesAt(txs: seq<ChainTx>, k: int, script: string) {
    0 <= k < |txs| && (Pays(txs[k], {script}) || SpendsOurs(txs, k, {script}))
  }

  lemma {:induction false} ValidPrefix(txs: seq<ChainTx>, n: nat)
    requires Valid(txs) && n <= |txs|
    ensures Valid(txs[..n])
    decreases |txs|
  {
    if n < |txs| {
      ValidPrefix(txs[..|txs| - 1], n);
      assert txs[..|txs| - 1][..n] == txs[..n];
    } else {
      assert txs[..n] == txs;
    }
  }

  lemma {:induction false} TxsPrefix(chain: seq<Block>, height: nat, n: nat)
    requires height <= n <= |chain|
    ensures TxsUpTo(chain, height) <= TxsUpTo(chain, n)
    decreases n
  {
    if height < n {
      TxsPrefix(chain, height, n - 1);
    }
  }

  /** A transaction is among those of the first `height` blocks exactly when it is in one of them. */
  lemma {:induction false} InSomeBlock(chain: seq<Block>, height: nat, k: nat) returns (at: nat, i: nat)
    requires height <= |chain| && k < |TxsUpTo(chain, height)|
    ensures at <= height && InBlock(chain, at, i) && chain[at - 1][i] == TxsUpTo(chain, height)[k]
    decreases height
  {
    if k < |TxsUpTo(chain, height - 1)| {
      at, i := InSomeBlock(chain, height - 1, k);
    } else {
      at, i := height, k - |TxsUpTo(chain, height - 1)|;
    }
  }

  lemma {:induction false} BlockInside(chain: seq<Block>, at: nat, i: nat, height: nat) returns (k: nat)
    requires InBlock(chain, at, i) && at <= height <= |chain|
    ensures k < |TxsUpTo(chain, height)| && TxsUpTo(chain, height)[k] == chain[at - 1][i]
    decreases height
  {
    if at == height {
      k := |TxsUpTo(chain, height - 1)| + i;
    } else {
      k := BlockInside(chain, at, i, height - 1);
    }
  }

  /** The book of everything fetched up to the limits. */
  ghost predicate FetchedBook(w: World, parse: Parser, limits: Pair, blockHeight: nat, scripts: set<string>, b: Book) {
    && (forall x :: x in scripts <==> x in Scripts(w, Asked(w, limits)))
    && (forall h :: h in b <==> h in Revealed(w, Asked(w, limits)) && 0 < w.tx(h).height <= blockHeight)
    && (forall h :: h in b ==> b[h] == Entered(parse, scripts, w.tx(h)))
  }

  lemma BookFromChain(w: World, parse: Parser, chain: seq<Block>, limits: Pair, blockHeight: nat,
                      scripts: set<string>, b: Book)
    requires Serves(w, parse, chain, limits) && blockHeight <= |chain|
    requires FetchedBook(w, parse, limits, blockHeight, scripts, b)
    ensures FromChain(TxsUpTo(chain, blockHeight), scripts, b)
  {
    var txs := TxsUpTo(chain, blockHeight);
    forall h | h in b ensures exists k :: At(txs, k, h) && b[h] == EntryOf(txs[k], scripts) {
      var k := EntryFromChain(w, parse, chain, limits, blockHeight, scripts, h);
    }
  }

  lemma EntryFromChain(w: World, parse: Parser, chain: seq<Block>, limits: Pair, blockHeight: nat,
                       scripts: set<string>, h: string) returns (k: nat)
    requires Serves(w, parse, chain, limits) && blockHeight <= |chain|
    requires h in Revealed(w, Asked(w, limits)) && 0 < w.tx(h).height <= blockHeight
    ensures At(TxsUpTo(chain, blockHeight), k, h)
    ensures Entered(parse, scripts, w.tx(h)) == EntryOf(TxsUpTo(chain, blockHeight)[k], scripts)
  {
    var height := w.tx(h).height;
    assert ConfirmedAt(w, chain, h);
    var i :| InBlock(chain, height, i) && chain[height - 1][i].txid == h;
    assert ServesTx(w, parse, height, chain[height - 1][i]);
    k := BlockInside(chain, height, i, blockHeight);
  }

  lemma BookComplete(w: World, parse: Parser, chain: seq<Block>, limits: Pair, blockHeight: nat,
                     scripts: set<string>, b: Book)
    requires Serves(w, parse, chain, limits) && blockHeight <= |chain|
    requires FetchedBook(w, parse, limits, blockHeight, scripts, b)
    ensures Complete(TxsUpTo(chain, blockHeight), scripts, b)
  {
    var txs, all := TxsUpTo(chain, blockHeight), TxsUpTo(chain, |chain|);
    TxsPrefix(chain, blockHeight, |chain|);
    forall k | 0 <= k < |txs| && (Pays(txs[k], scripts) || SpendsOurs(txs, k, scripts)) ensures txs[k].txid in b {
      var x := TouchedScript(txs, all, k, scripts);
      assert x in Scripts(w, Asked(w, limits));
      var a :| a in Asked(w, limits) && w.script(a) == x;
      assert all[k].txid in w.history(a);
      var at, i := InSomeBlock(chain, blockHeight, k);
      assert ServesTx(w, parse, at, chain[at - 1][i]);
    }
  }

  /** A transaction that touches our scripts touches one of them, also in the longer chain. */
  lemma TouchedScript(txs: seq<ChainTx>, all: seq<ChainTx>, k: int, scripts: set<string>) returns (x: string)
    requires txs <= all && 0 <= k < |txs| && (Pays(txs[k], scripts) || SpendsOurs(txs, k, scripts))
    ensures x in scripts && TouchesAt(all, k, x)
  {
    if Pays(txs[k], scripts) {
      var i :| 0 <= i < |txs[k].outs| && txs[k].outs[i].script in scripts;
      x := txs[k].outs[i].script;
    } else {
      var j, o, c :| Spends(txs, k, j, o) && Creates(txs, c, o) && txs[c].outs[o.index].script in scripts;
      x := txs[c].outs[o.index].script;
      assert Spends(all, k, j, o) && Creates(all, c, o);
    }
  }

  /** The ledger of everything fetched, for a world that serves a valid chain: `balance()` returns
      the value of the outputs unspent at the block height that pay the discovered addresses. */
  lemma LedgerIsUtxo(w: World, parse: Parser, chain: seq<Block>, limits: Pair, blockHeight: nat,
                     scripts: set<string>, b: Book, r: Outcome)
    requires Serves(w, parse, chain, limits) && blockHeight <= |chain|
    requires FetchedBook(w, parse, limits, blockHeight, scripts, b) && Settles(b, r)
    requires SumMap(OursOf(UtxoAt(chain, blockHeight), scripts)) < TWO63
    ensures r.Balance? && r.amount == SumMap(OursOf(UtxoAt(chain, blockHeight), scripts))
  {
    var txs, all := TxsUpTo(chain, blockHeight), TxsUpTo(chain, |chain|);
    TxsPrefix(chain, blockHeight, |chain|);
    ValidPrefix(all, |txs|);
    assert all[..|txs|] == txs;
    ReplayExplained(txs);
    ReplayBlocks(chain, blockHeight);
    BookFromChain(w, parse, chain, limits, blockHeight, scripts, b);
    BookComplete(w, parse, chain, limits, blockHeight, scripts, b);
    BalanceIsUtxoValue(txs, scripts, b, r);
  }

  lemma FetchedIsBook(w: World, parse: Parser, blockHeight: nat, core: Core)
    requires Fetched(w, core.lastAddresses, core)
    ensures FetchedBook(w, parse, core.lastAddresses, blockHeight, core.addresses.Keys,
                        BookOf(parse, core.addresses.Keys, blockHeight, core.transactions))
  {
  }

  /** The backend serves this valid chain up to the block height, and the total is an int64. */
  ghost predicate AuditableAt(w: World, parse: Parser, core: Core, blockHeight: nat, chain: seq<Block>) {
    && Serves(w, parse, chain, core.lastAddresses) && blockHeight <= |chain|
    && SumMap(OursOf(UtxoAt(chain, blockHeight), core.addresses.Keys)) < TWO63
  }

  ghost predicate IsUtxoTotal(core: Core, blockHeight: nat, chain: seq<Block>, r: Outcome)
    requires blockHeight <= |chain|
  {
    r.Balance? && r.amount == SumMap(OursOf(UtxoAt(chain, blockHeight), core.addresses.Keys))
  }

  /** On everything fetched from a world that serves a valid chain, every outcome that the ledger
      allows is the value of the unspent outputs of the discovered scripts. */
  lemma FetchedTotal(w: World, parse: Parser, core: Core, chain: seq<Block>, blockHeight: nat, r: Outcome)
    requires Fetched(w, core.lastAddresses, core) && AuditableAt(w, parse, core, blockHeight, chain)
    requires Settles(BookOf(parse, core.addresses.Keys, blockHeight, core.transactions), r)
    ensures IsUtxoTotal(core, blockHeight, chain, r)
  {
    FetchedIsBook(w, parse, blockHeight, core);
    LedgerIsUtxo(w, parse, chain, core.lastAddresses, blockHeight, core.addresses.Keys,
                 BookOf(parse, core.addresses.Keys, blockHeight, core.transactions), r);
  }

  /** End to end: whatever the schedule of derivations, answers and responses, once recvWork has
      returned, every outcome that the ledger allows is the value of the unspent outputs, at the
      block height, that pay the scripts discovered. */
  lemma EndToEnd(w: World, top: Pair, schedule: seq<Action>, parse: Parser, chain: seq<Block>,
                 blockHeight: nat, r: Outcome)
    requires w.Bounded(top) && Run(w, Init(w), schedule)
    requires End(w, Init(w), schedule).core.receiver.Returned?
    requires var core := End(w, Init(w), schedule).core;
      && AuditableAt(w, parse, core, blockHeight, chain)
      && Settles(BookOf(parse, core.addresses.Keys, blockHeight, core.transactions), r)
    ensures var core := End(w, Init(w), schedule).core;
      && w.LeastClosed(core.lastAddresses)
      && (forall x :: x in core.addresses.Keys <==> x in Scripts(w, Asked(w, core.lastAddresses)))
      && IsUtxoTotal(core, blockHeight, chain, r)
  {
    StoppingIsSound(w, top, schedule);
    FetchedTotal(w, parse, End(w, Init(w), schedule).core, chain, blockHeight, r);
  }
}
