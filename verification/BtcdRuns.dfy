/** Whole runs of the accounter over the Btcd backend: the memo tables are invisible. */
module BtcdRuns {
  import opened Basics
  import opened Deriver
  import opened Wallet
  import opened Fetching
  import opened FetchingSafety
  import opened Workers
  import opened Btcd

  /** What a lookup without any table would return. */
  function Uncached(n: Node, hash: string): Option<TxResponse> {
    match n.rawTx(hash)
    case None => None
    case Some(raw) =>
      match n.blockHeight(raw.blockHash)
      case None => None
      case Some(height) => Some(TxResponse(hash, height, raw.hex))
  }

  function HistoryOf(n: Node, x: Address): seq<string> {
    match n.search(x)
    case None => []
    case Some(txs) => TxidsOf(txs)
  }

  /** One and the same chain behind both lookups of the node. */
  ghost predicate OneChain(n: Node) {
    forall x, i {:trigger n.search(x).value[i]} ::
      n.search(x).Some? && 0 <= i < |n.search(x).value| ==>
        n.rawTx(n.search(x).value[i].txid) == Some(n.search(x).value[i])
  }

  /** The listing comes to a transaction again, or to one in `cached`: cacheTxs returns there. */
  predicate Repeats(txs: seq<RawResult>, j: int, cached: set<string>) {
    0 <= j < |txs| && (txs[j].txid in cached || exists i :: 0 <= i < j && txs[i].txid == txs[j].txid)
  }

  predicate Unmined(n: Node, txs: seq<RawResult>, i: int) {
    0 <= i < |txs| && n.blockHeight(txs[i].blockHash).None?
  }

  /** Every transaction outside the known blocks comes after one at which cacheTxs returns. */
  ghost predicate Shielded(n: Node, txs: seq<RawResult>, cached: set<string>) {
    forall i :: Unmined(n, txs, i) ==> exists j :: j < i && Repeats(txs, j, cached)
  }

  /** The backend can answer for an address when these transactions are cached. */
  ghost predicate Answerable(n: Node, x: Address, cached: set<string>) {
    n.search(x).Some? ==>
      |n.search(x).value| <= 1000 && Shielded(n, n.search(x).value, cached)
  }

  /** The identifiers of the first `k` transactions of a listing. */
  function Txids(txs: seq<RawResult>, k: nat): set<string>
    requires k <= |txs|
  {
    set i | 0 <= i < k :: txs[i].txid
  }

  /** cacheTxs has come to transaction `stop` of a listing: the table holds what was in it at entry, the
      transactions before, and what others have added. */
  ghost predicate CachedUpTo(n: Node, txs: seq<RawResult>, stop: nat, entry: set<string>, keys: set<string>,
                             foreign: set<string>)
  {
    && stop <= |txs|
    && (forall i :: 0 <= i < stop ==> !Unmined(n, txs, i) && !Repeats(txs, i, entry))
    && entry + Txids(txs, stop) <= keys <= entry + Txids(txs, stop) + foreign
  }

  lemma CachedStep(n: Node, txs: seq<RawResult>, stop: nat, entry: set<string>, keys: set<string>, foreign: set<string>)
    requires CachedUpTo(n, txs, stop, entry, keys, foreign) && stop < |txs|
    requires !Unmined(n, txs, stop) && !Repeats(txs, stop, entry)
    ensures CachedUpTo(n, txs, stop + 1, entry, keys + {txs[stop].txid}, foreign)
  {
    assert Txids(txs, stop + 1) == Txids(txs, stop) + {txs[stop].txid};
  }

  /** What the check of the table means. */
  lemma CachedCheck(n: Node, txs: seq<RawResult>, stop: nat, entry: set<string>, keys: set<string>,
                    foreign: set<string>)
    requires CachedUpTo(n, txs, stop, entry, keys, foreign) && stop < |txs|
    ensures if txs[stop].txid in keys then Repeats(txs, stop, entry + foreign) else !Repeats(txs, stop, entry)
  {
    if txs[stop].txid in Txids(txs, stop) {
      var i :| 0 <= i < stop && txs[i].txid == txs[stop].txid;
    } else {
      assert forall i :: 0 <= i < stop ==> txs[i].txid in Txids(txs, stop);
    }
  }

  /** Where cacheTxs ends: all before is in known blocks and was met for the first time. It returns early
      only at a transaction that is listed again, was cached at entry or was cached by others meanwhile,
      and panics only at one in an unknown block that is none of the first two. */
  ghost predicate EndsAt(n: Node, txs: seq<RawResult>, stop: nat, ok: bool, entry: set<string>, foreign: set<string>) {
    && stop <= |txs|
    && (forall i :: 0 <= i < stop ==> !Unmined(n, txs, i) && !Repeats(txs, i, entry))
    && (ok && stop < |txs| ==> !Unmined(n, txs, stop) && Repeats(txs, stop, entry + foreign))
    && (!ok ==> Unmined(n, txs, stop) && !Repeats(txs, stop, entry))
  }

  lemma EndMeans(n: Node, txs: seq<RawResult>, stop: nat, ok: bool, entry: set<string>, foreign: set<string>)
    requires EndsAt(n, txs, stop, ok, entry, foreign)
    ensures if ok then Shielded(n, txs, entry + foreign) else !Shielded(n, txs, entry)
  {
    if ok {
      forall i | Unmined(n, txs, i) ensures exists j :: j < i && Repeats(txs, j, entry + foreign) {
        assert stop < i && Repeats(txs, stop, entry + foreign);
      }
    }
  }

  ghost predicate SoundTables(n: Node, cached: map<string, TxResponse>, heights: map<string, int>) {
    && (forall b :: b in heights ==> n.blockHeight(b) == Some(heights[b]))
    && (forall h :: h in cached ==> Uncached(n, h) == Some(cached[h]))
  }

  predicate TooMany(n: Node, x: Address) {
    n.search(x).Some? && |n.search(x).value| > 1000
  }

  predicate TrueResponse(n: Node, r: Response) {
    match r
    case AddrDone(a) => a.txHashes == HistoryOf(n, a.address) && !TooMany(n, a.address)
    case TxDone(t) => Uncached(n, t.hash) == Some(t)
    case BlockDone(b) => n.blockTime(b.height) == Some(b.timestamp)
  }

  predicate TruePurpose(n: Node, k: Purpose) {
    match k
    case ForCache(x, txs, next) => n.search(x) == Some(txs) && !TooMany(n, x) && next < |txs|
    case ForTx(h, raw) => n.rawTx(h) == Some(raw)
  }

  predicate TrueWorker(n: Node, v: Worker) {
    match v
    case Caching(x, txs, next) => n.search(x) == Some(txs) && !TooMany(n, x) && next <= |txs|
    case Lookup(k) => TruePurpose(n, k)
    case AskNode(k) => TruePurpose(n, k)
    case StoreHeight(k, height) => TruePurpose(n, k) && n.blockHeight(BlockHash(k)) == Some(height)
    case GotHeight(k, height) => TruePurpose(n, k) && n.blockHeight(BlockHash(k)) == Some(height)
    case Ready(r) => TrueResponse(n, r)
    case _ => true
  }

  ghost predicate TrueWorkers(n: Node, ws: seq<Worker>) {
    forall i :: 0 <= i < |ws| ==> TrueWorker(n, ws[i])
  }

  ghost predicate Transparent(n: Node, p: Pool) {
    SoundTables(n, p.cached, p.heights) && TrueWorkers(n, p.workers)
  }

  lemma MoveKeepsTruth(n: Node, p: Pool, v: Worker, next: Worker)
    requires SoundTables(n, p.cached, p.heights) && TrueWorker(n, v) && Safe(v) && NextMove(n, p, v) == To(next)
    ensures TrueWorker(n, next)
  {
  }

  lemma SharedKeepsTruth(n: Node, p: Pool, v: Worker, p': Pool)
    requires OneChain(n) && SoundTables(n, p.cached, p.heights) && TrueWorker(n, v) && Safe(v) && p' == Shared(p, v)
    ensures SoundTables(n, p'.cached, p'.heights)
  {
    if v.GotHeight? && v.k.ForCache? {
      assert n.rawTx(n.search(v.k.address).value[v.k.next].txid) == Some(v.k.txs[v.k.next]);
    }
  }

  lemma AdvanceKeepsTruth(n: Node, p: Pool, i: nat, p': Pool)
    requires OneChain(n) && Transparent(n, p) && i < |p.workers| && Safe(p.workers[i]) && p' == Advanced(n, p, i)
    ensures Transparent(n, p')
  {
    var v := p.workers[i];
    assert TrueWorker(n, v);
    match NextMove(n, p, v)
    case Panic(_) =>
    case To(next) =>
      MoveKeepsTruth(n, p, v, next);
      SharedKeepsTruth(n, p, v, Shared(p, v));
  }

  /** No interleaving of lookups and stores, and no early return of cacheTxs, makes a table or a
      worker say anything that the node would not say. */
  lemma PoolKeepsTruth(n: Node, p: Pool, a: PoolAction, p': Pool)
    requires OneChain(n) && Transparent(n, p) && PoolEnabled(p, a) && p' == PoolApply(n, p, a)
    ensures Transparent(n, p')
  {
    match a
    case Advance(i) => AdvanceKeepsTruth(n, p, i, p');
    case _ =>
  }

  datatype Sys = Sys(core: Core, pool: Pool)

  function Start(w: World): Sys { Sys(InitCore(w), Pool(EMPTY, [], map[], map[], None)) }

  predicate StepEnabled(s: Sys, a: Step<PoolAction>) {
    s.pool.crash.None? &&
    match a
    case ByCore(b) => CoreEnabled(s.core, b) && CanTake(s.pool.channels.queues, b)
    case ByWorker(b) => PoolEnabled(s.pool, b)
    case AskBlock(_) => true
    case GetBlock(r) => r in s.pool.channels.blockResponses
  }

  function StepApply(w: World, n: Node, s: Sys, a: Step<PoolAction>): Sys
    requires StepEnabled(s, a)
  {
    if a.ByWorker? then s.(pool := PoolApply(n, s.pool, a.effect))
    else Sys(CoreAfter(w, s.core, a), s.pool.(channels := Outside(w, s.core, s.pool.channels, a)))
  }

  predicate RunOf(w: World, n: Node, s: Sys, run: seq<Step<PoolAction>>)
    decreases |run|
  {
    run == [] || (StepEnabled(s, run[0]) && RunOf(w, n, StepApply(w, n, s, run[0]), run[1..]))
  }

  function EndOf(w: World, n: Node, s: Sys, run: seq<Step<PoolAction>>): Sys
    requires RunOf(w, n, s, run)
    decreases |run|
  {
    if run == [] then s else EndOf(w, n, StepApply(w, n, s, run[0]), run[1..])
  }

  function FloorOf(s: Sys): Floor { Floor(s.core, s.pool.channels, JobsOf(s.pool.workers, JobOf)) }

  function Image(s: Sys, a: Step<PoolAction>): Step<Effect>
    requires StepEnabled(s, a)
  {
    match a
    case ByCore(b) => ByCore(b)
    case ByWorker(b) => ByWorker(EffectOf(s.pool, b))
    case AskBlock(k) => AskBlock(k)
    case GetBlock(r) => GetBlock(r)
  }

  function ImageOf(w: World, n: Node, s: Sys, run: seq<Step<PoolAction>>): seq<Step<Effect>>
    requires RunOf(w, n, s, run)
    decreases |run|
  {
    if run == [] then [] else [Image(s, run[0])] + ImageOf(w, n, StepApply(w, n, s, run[0]), run[1..])
  }

  lemma SoundIsKeyed(n: Node, p: Pool)
    requires SoundTables(n, p.cached, p.heights)
    ensures Keyed(p.cached)
  {
  }

  lemma ImageStep(w: World, n: Node, s: Sys, a: Step<PoolAction>, t: Sys)
    requires StepEnabled(s, a) && t == StepApply(w, n, s, a) && SoundTables(n, s.pool.cached, s.pool.heights)
    ensures FloorEnabled(FloorOf(s), Image(s, a)) && FloorApply(w, FloorOf(s), Image(s, a)) == FloorOf(t)
  {
    if a.ByWorker? {
      SoundIsKeyed(n, s.pool);
      PoolIsEffect(n, s.pool, a.effect, t.pool);
    }
  }

  /** The world that the accounter and the node share: histories are the node's listings, and a transaction is
      what the node has for it, at the height of its block. */
  ghost predicate Mirrors(w: World, times: nat -> int, n: Node) {
    && (forall x :: MirrorsHistory(n, x, w.history(x)))
    && (forall h :: MirrorsTx(n, h, w.tx(h)))
    && (forall k: nat :: n.blockTime(k).Some? ==> n.blockTime(k) == Some(times(k)))
  }

  ghost predicate MirrorsHistory(n: Node, x: Address, history: seq<string>) {
    if n.search(x).None? then history == []
    else |history| == |n.search(x).value|
         && forall i :: 0 <= i < |history| ==> history[i] == n.search(x).value[i].txid
  }

  ghost predicate MirrorsTx(n: Node, h: string, tx: RawTx) {
    n.rawTx(h).Some? && n.blockHeight(n.rawTx(h).value.blockHash).Some? ==>
      tx.height == n.blockHeight(n.rawTx(h).value.blockHash).value && tx.hex == n.rawTx(h).value.hex
  }

  lemma MirroredHistory(w: World, times: nat -> int, n: Node, x: Address)
    requires Mirrors(w, times, n)
    ensures w.history(x) == HistoryOf(n, x)
  {
    assert MirrorsHistory(n, x, w.history(x));
  }

  lemma MirroredTx(w: World, times: nat -> int, n: Node, h: string)
    requires Mirrors(w, times, n) && Uncached(n, h).Some?
    ensures Uncached(n, h) == Some(TxAnswer(w, h))
  {
    assert MirrorsTx(n, h, w.tx(h));
  }

  /** The responses of a run are those of the node's uncached lookups. */
  predicate TrueAnswer(n: Node, a: Step<Effect>) {
    a.ByWorker? && a.effect.Answered? ==> TrueResponse(n, a.effect.response)
  }

  ghost predicate TrueAnswers(n: Node, image: seq<Step<Effect>>) {
    forall k :: 0 <= k < |image| ==> TrueAnswer(n, image[k])
  }

  lemma TrueImage(w: World, times: nat -> int, n: Node, s: Sys, a: Step<PoolAction>)
    requires StepEnabled(s, a) && TrueWorkers(n, s.pool.workers) && Mirrors(w, times, n)
    ensures TrueAnswer(n, Image(s, a)) && HonestStep(w, times, Image(s, a))
  {
    if a.ByWorker? && a.effect.Advance? && s.pool.workers[a.effect.worker].Ready? {
      assert TrueWorker(n, s.pool.workers[a.effect.worker]);
      TrueIsHonest(w, times, n, s.pool.workers[a.effect.worker].response);
    }
  }

  lemma TrueIsHonest(w: World, times: nat -> int, n: Node, r: Response)
    requires Mirrors(w, times, n) && TrueResponse(n, r)
    ensures Workers.Honest(w, times, r)
  {
    match r
    case AddrDone(a) => MirroredHistory(w, times, n, a.address);
    case TxDone(t) => MirroredTx(w, times, n, t.hash);
    case BlockDone(_) =>
  }

  /** Every response of every run is the one that the uncached lookup would have given, which is the
      world's. */
  lemma {:induction false} BtcdAnswers(w: World, times: nat -> int, n: Node, s: Sys, run: seq<Step<PoolAction>>)
    requires OneChain(n) && Mirrors(w, times, n) && Transparent(n, s.pool) && RunOf(w, n, s, run)
    ensures var image := ImageOf(w, n, s, run);
      && TrueAnswers(n, image) && HonestRun(w, times, image) && FloorRun(w, FloorOf(s), image)
      && FloorEnd(w, FloorOf(s), image) == FloorOf(EndOf(w, n, s, run))
    ensures Transparent(n, EndOf(w, n, s, run).pool)
    decreases |run|
  {
    if run != [] {
      var t := StepApply(w, n, s, run[0]);
      if run[0].ByWorker? {
        PoolKeepsTruth(n, s.pool, run[0].effect, t.pool);
      }
      ImageStep(w, n, s, run[0], t);
      TrueImage(w, times, n, s, run[0]);
      BtcdAnswers(w, times, n, t, run[1..]);
      assert ImageOf(w, n, s, run)[1..] == ImageOf(w, n, t, run[1..]);
    }
  }

  /** The accounter over the Btcd backend: when recvWork returns, everything has been fetched, and
      each request was answered exactly as often as it was scheduled, with the uncached answer. */
  lemma BtcdFetches(w: World, times: nat -> int, n: Node, top: Pair, run: seq<Step<PoolAction>>)
    requires w.Bounded(top) && OneChain(n) && Mirrors(w, times, n) && RunOf(w, n, Start(w), run)
    requires EndOf(w, n, Start(w), run).core.receiver.Returned?
    ensures AllFetched(w, FloorOf(EndOf(w, n, Start(w), run)))
    ensures var image := ImageOf(w, n, Start(w), run);
      && TrueAnswers(n, image) && FloorRun(w, Opening(w), image)
      && forall job: Job :: !job.BlockJob? ==>
           TimesAnswered(image, job) == TimesAsked(w, Opening(w), image, job)
  {
    var image := ImageOf(w, n, Start(w), run);
    BtcdAnswers(w, times, n, Start(w), run);
    assert FloorOf(Start(w)) == Opening(w);
    FloorFetches(w, times, top, image);
    forall job: Job | !job.BlockJob? ensures TimesAnswered(image, job) == TimesAsked(w, Opening(w), image, job) {
      RunConserves(w, Opening(w), image, job);
    }
  }

  /** The backend's limits for some addresses: at most 1000 transactions each, all in known blocks. */
  ghost predicate WithinLimits(n: Node, asked: iset<Address>) {
    forall x :: x in asked && n.search(x).Some? ==> |n.search(x).value| <= 1000 && AllMined(n, n.search(x).value)
  }

  ghost predicate AllMined(n: Node, txs: seq<RawResult>) {
    forall i :: 0 <= i < |txs| ==> n.blockHeight(txs[i].blockHash).Some?
  }

  /** What the node can serve. */
  ghost predicate Serves(n: Node, job: Job) {
    match job
    case AddrJob(x) => n.search(x).Some? ==> !TooMany(n, x) && AllMined(n, n.search(x).value)
    case TxJob(h) => Uncached(n, h).Some?
    case BlockJob(k) => n.blockTime(k).Some?
  }

  lemma HistoryIsServed(n: Node, x: Address, h: string)
    requires OneChain(n) && Serves(n, AddrJob(x)) && h in HistoryOf(n, x)
    ensures Uncached(n, h).Some?
  {
    var txs := n.search(x).value;
    var i :| 0 <= i < |txs| && TxidsOf(txs)[i] == h;
    assert n.rawTx(n.search(x).value[i].txid) == Some(txs[i]);
  }

  /** A worker does not panic on a request that the node can serve. */
  lemma ServedMoves(n: Node, p: Pool, v: Worker)
    requires TrueWorker(n, v) && Safe(v) && (JobOf(v).Some? ==> Serves(n, JobOf(v).value))
    ensures NextMove(n, p, v).To?
  {
  }

  lemma {:induction false} LastStep(w: World, n: Node, s: Sys, run: seq<Step<PoolAction>>)
    requires RunOf(w, n, s, run) && run != []
    ensures var pre, a := run[..|run| - 1], run[|run| - 1];
      && RunOf(w, n, s, pre) && StepEnabled(EndOf(w, n, s, pre), a)
      && EndOf(w, n, s, run) == StepApply(w, n, EndOf(w, n, s, pre), a)
    decreases |run|
  {
    if |run| > 1 {
      LastStep(w, n, StepApply(w, n, s, run[0]), run[1..]);
      assert run[1..][..|run| - 2] == run[..|run| - 1][1..];
    }
  }

  lemma {:induction false} ImageAsks(w: World, n: Node, s: Sys, run: seq<Step<PoolAction>>, i: nat)
    requires RunOf(w, n, s, run)
    ensures var image := ImageOf(w, n, s, run);
      |image| == |run| && (i < |run| && image[i].AskBlock? ==> run[i] == AskBlock(image[i].height))
    decreases |run|
  {
    if run != [] {
      ImageAsks(w, n, StepApply(w, n, s, run[0]), run[1..], if i > 0 then i - 1 else 0);
    }
  }

  lemma ReachedFloor(w: World, times: nat -> int, n: Node, top: Pair, run: seq<Step<PoolAction>>)
    requires w.Bounded(top) && OneChain(n) && Mirrors(w, times, n) && RunOf(w, n, Start(w), run)
    ensures Inv(w, top, Workers.Abs(FloorOf(EndOf(w, n, Start(w), run))))
  {
    BtcdAnswers(w, times, n, Start(w), run);
    assert FloorOf(Start(w)) == Opening(w);
    ReachableInv(w, times, top, ImageOf(w, n, Start(w), run));
  }

  lemma BlockIsServed(w: World, times: nat -> int, n: Node, run: seq<Step<PoolAction>>, f: Floor, k: nat)
    requires OneChain(n) && Mirrors(w, times, n) && RunOf(w, n, Start(w), run)
    requires forall j :: 0 <= j < |run| && run[j].AskBlock? ==> n.blockTime(run[j].height).Some?
    requires f == FloorOf(EndOf(w, n, Start(w), run)) && Outstanding(f, BlockJob(k)) > 0
    ensures Serves(n, BlockJob(k))
  {
    var image := ImageOf(w, n, Start(w), run);
    BtcdAnswers(w, times, n, Start(w), run);
    assert FloorOf(Start(w)) == Opening(w);
    RunConserves(w, Opening(w), image, BlockJob(k));
    var j := AskedSomewhere(w, Opening(w), image, k);
    ImageAsks(w, n, Start(w), run, j);
  }

  /** The request in a worker's hands is one that the node can serve. */
  lemma HeldIsServed(w: World, times: nat -> int, n: Node, top: Pair, m: Pair, run: seq<Step<PoolAction>>, i: nat)
    requires w.Bounded(top) && w.Closed(m) && WithinLimits(n, Asked(w, m))
    requires OneChain(n) && Mirrors(w, times, n) && RunOf(w, n, Start(w), run)
    requires forall k :: 0 <= k < |run| && run[k].AskBlock? ==> n.blockTime(run[k].height).Some?
    requires var ws := EndOf(w, n, Start(w), run).pool.workers; i < |ws| && JobOf(ws[i]).Some?
    ensures Serves(n, JobOf(EndOf(w, n, Start(w), run).pool.workers[i]).value)
  {
    var f := FloorOf(EndOf(w, n, Start(w), run));
    var job := f.jobs[i].value;
    HoldersPositive(f.jobs, i);
    if job.BlockJob? {
      BlockIsServed(w, times, n, run, f, job.height);
    } else {
      ReachedFloor(w, times, n, top, run);
      OnlyWalletIsAsked(w, top, m, f, job);
      WalletIsServed(w, times, n, m, job);
    }
  }

  lemma WalletIsServed(w: World, times: nat -> int, n: Node, m: Pair, job: Job)
    requires WithinLimits(n, Asked(w, m)) && OneChain(n) && Mirrors(w, times, n) && !job.BlockJob?
    requires job.AddrJob? ==> job.address in Asked(w, m)
    requires job.TxJob? ==> job.hash in Revealed(w, Asked(w, m))
    ensures Serves(n, job)
  {
    if job.TxJob? {
      var x :| x in Asked(w, m) && job.hash in w.history(x);
      MirroredHistory(w, times, n, x);
      HistoryIsServed(n, x, job.hash);
    }
  }

  /** If the wallet's own addresses, up to any closed limits, are within the limits, then in every
      interleaving no worker panics unless a call to the node fails. */
  lemma PanicsOnlyOnFailure(w: World, times: nat -> int, n: Node, top: Pair, m: Pair, run: seq<Step<PoolAction>>)
    requires w.Bounded(top) && w.Closed(m) && WithinLimits(n, Asked(w, m))
    requires OneChain(n) && Mirrors(w, times, n) && RunOf(w, n, Start(w), run)
    requires forall k :: 0 <= k < |run| && run[k].AskBlock? ==> n.blockTime(run[k].height).Some?
    ensures var crash := EndOf(w, n, Start(w), run).pool.crash;
      crash.Some? ==> crash.value == NodeFailed && run != [] && IsFault(run[|run| - 1])
  {
    if run != [] {
      LastStep(w, n, Start(w), run);
      var pre, a := run[..|run| - 1], run[|run| - 1];
      if a.ByWorker? && a.effect.Advance? {
        var s, i := EndOf(w, n, Start(w), pre), a.effect.worker;
        BtcdAnswers(w, times, n, Start(w), pre);
        if JobOf(s.pool.workers[i]).Some? {
          HeldIsServed(w, times, n, top, m, pre, i);
        }
        AdvanceServed(n, s.pool, i);
      }
    }
  }

  predicate IsFault(a: Step<PoolAction>) { a.ByWorker? && a.effect.Fault? }

  lemma AdvanceServed(n: Node, p: Pool, i: nat)
    requires i < |p.workers| && Safe(p.workers[i]) && TrueWorkers(n, p.workers) && p.crash.None?
    requires JobOf(p.workers[i]).Some? ==> Serves(n, JobOf(p.workers[i]).value)
    ensures Advanced(n, p, i).crash.None?
  {
    assert TrueWorker(n, p.workers[i]);
    ServedMoves(n, p, p.workers[i]);
  }
}
