/** The Btcd backend: workers that fill two memo tables, one of transactions and one of block
    heights, with every lookup and every store a critical section of its own. */
module Btcd {
  import opened Basics
  import opened Deriver
  import opened Fetching
  import opened Workers

  datatype RawResult = RawResult(txid: string, blockHash: string, hex: string)

  /** What the node answers; an address that was never used is an error of its own kind. */
  datatype Node = Node(
    search: Address -> Option<seq<RawResult>>,
    rawTx: string -> Option<RawResult>,
    blockHeight: string -> Option<int>,
    blockTime: nat -> Option<int>)

  const MAX_TXS_PER_ADDR := 1000

  /** What `getBlockHeight` is called for: transaction `next` of a history, or one transaction. */
  datatype Purpose = ForCache(address: Address, txs: seq<RawResult>, next: nat) | ForTx(hash: string, raw: RawResult)

  function BlockHash(k: Purpose): string
    requires k.ForCache? ==> k.next < |k.txs|
  {
    match k
    case ForCache(_, txs, next) => txs[next].blockHash
    case ForTx(_, raw) => raw.blockHash
  }

  /** Where a worker is. */
  datatype Worker =
    | Waiting
    | Taken(job: Job)                                              // request taken from its channel
    | Caching(address: Address, txs: seq<RawResult>, next: nat)    // in cacheTxs, before the check of txs[next]
    | Fetching(hash: string)                                       // transaction not cached
    | Lookup(k: Purpose)                                           // before the check of blockHeightLookup
    | AskNode(k: Purpose)                                          // block not cached
    | StoreHeight(k: Purpose, height: int)                         // before the store into blockHeightLookup
    | GotHeight(k: Purpose, height: int)                           // getBlockHeight has returned
    | Ready(response: Response)                                    // response not yet sent

  datatype Crash = TooManyTxs | UnknownBlock | UnknownTx | NodeFailed

  datatype Pool = Pool(
    channels: Channels, workers: seq<Worker>, cached: map<string, TxResponse>, heights: map<string, int>,
    crash: Option<Crash>)

  datatype PoolAction = Join | Take(worker: nat, job: Job) | Advance(worker: nat) | Fault(worker: nat)

  function TxidsOf(txs: seq<RawResult>): (hs: seq<string>)
    ensures |hs| == |txs|
  {
    seq(|txs|, i requires 0 <= i < |txs| => txs[i].txid)
  }

  function Listing(x: Address, txs: seq<RawResult>): Response { AddrDone(AddrResponse(x, TxidsOf(txs))) }

  /** Where a worker goes next, or why it panics. */
  datatype Move = To(next: Worker) | Panic(why: Crash)

  predicate Safe(v: Worker) {
    match v
    case Lookup(ForCache(_, txs, next)) => next < |txs|
    case AskNode(ForCache(_, txs, next)) => next < |txs|
    case StoreHeight(ForCache(_, txs, next), _) => next < |txs|
    case GotHeight(ForCache(_, txs, next), _) => next < |txs|
    case Caching(_, txs, next) => next <= |txs|
    case _ => true
  }

  function NextMove(n: Node, p: Pool, v: Worker): Move
    requires Safe(v)
  {
    match v
    case Waiting => To(Waiting)
    case Taken(AddrJob(x)) =>
      (match n.search(x)
       case None => To(Ready(Listing(x, [])))
       case Some(txs) => if |txs| > MAX_TXS_PER_ADDR then Panic(TooManyTxs) else To(Caching(x, txs, 0)))
    case Taken(TxJob(h)) => To(if h in p.cached then Ready(TxDone(p.cached[h])) else Fetching(h))
    case Taken(BlockJob(height)) =>
      (match n.blockTime(height)
       case None => Panic(UnknownBlock)
       case Some(t) => To(Ready(BlockDone(BlockResponse(height, t)))))
    case Caching(x, txs, next) =>
      // at the first transaction that is cached already, cacheTxs returns
      To(if next == |txs| || txs[next].txid in p.cached then Ready(Listing(x, txs)) else Lookup(ForCache(x, txs, next)))
    case Fetching(h) =>
      (match n.rawTx(h)
       case None => Panic(UnknownTx)
       case Some(raw) => To(Lookup(ForTx(h, raw))))
    case Lookup(k) =>
      To(if BlockHash(k) in p.heights then GotHeight(k, p.heights[BlockHash(k)]) else AskNode(k))
    case AskNode(k) =>
      (match n.blockHeight(BlockHash(k))
       case None => Panic(UnknownBlock)
       case Some(height) => To(StoreHeight(k, height)))
    case StoreHeight(k, height) => To(GotHeight(k, height))
    case GotHeight(ForCache(x, txs, next), _) => To(Caching(x, txs, next + 1))
    case GotHeight(ForTx(h, raw), height) => To(Ready(TxDone(TxResponse(h, height, raw.hex))))
    case Ready(_) => To(Waiting)
  }

  /** What the worker does to the tables and channels on the way. */
  function Shared(p: Pool, v: Worker): Pool
    requires Safe(v)
  {
    match v
    case StoreHeight(k, height) => p.(heights := p.heights[BlockHash(k) := height])
    case GotHeight(ForCache(_, txs, next), height) =>
      p.(cached := p.cached[txs[next].txid := TxResponse(txs[next].txid, height, txs[next].hex)])
    case Ready(r) => p.(channels := Delivered(p.channels, r))
    case _ => p
  }

  predicate PoolEnabled(p: Pool, a: PoolAction) {
    p.crash.None? && (!a.Join? ==> a.worker < |p.workers|) &&
    match a
    case Join => true
    case Take(i, job) => p.workers[i].Waiting? && InQueue(p.channels, job) > 0
    case Advance(i) => !p.workers[i].Waiting? && Safe(p.workers[i])
    case Fault(i) => AsksNode(p.workers[i])
  }

  /** A remote call is under way, and may fail. */
  predicate AsksNode(v: Worker) {
    v.Fetching? || v.AskNode? || (v.Taken? && !v.job.TxJob?)
  }

  function PoolApply(n: Node, p: Pool, a: PoolAction): Pool
    requires PoolEnabled(p, a)
  {
    match a
    case Join => p.(workers := p.workers + [Waiting])
    case Take(i, job) => p.(channels := Dequeued(p.channels, job), workers := p.workers[i := Taken(job)])
    case Advance(i) => Advanced(n, p, i)
    case Fault(_) => p.(crash := Some(NodeFailed))
  }

  function Advanced(n: Node, p: Pool, i: nat): Pool
    requires i < |p.workers| && Safe(p.workers[i])
  {
    match NextMove(n, p, p.workers[i])
    case Panic(why) => p.(crash := Some(why))
    case To(next) => Shared(p, p.workers[i]).(workers := p.workers[i := next])
  }

  /** The request that a worker holds. */
  function JobOf(v: Worker): Option<Job> {
    match v
    case Waiting => None
    case Taken(job) => Some(job)
    case Caching(x, _, _) => Some(AddrJob(x))
    case Fetching(h) => Some(TxJob(h))
    case Lookup(k) => Some(PurposeJob(k))
    case AskNode(k) => Some(PurposeJob(k))
    case StoreHeight(k, _) => Some(PurposeJob(k))
    case GotHeight(k, _) => Some(PurposeJob(k))
    case Ready(r) => Some(JobFor(r))
  }

  function PurposeJob(k: Purpose): Job {
    match k
    case ForCache(x, _, _) => AddrJob(x)
    case ForTx(h, _) => TxJob(h)
  }

  function EffectOf(p: Pool, a: PoolAction): Effect
    requires PoolEnabled(p, a)
  {
    match a
    case Join => Joined
    case Take(i, job) => Started(i, job)
    case Advance(i) => if p.workers[i].Ready? then Answered(i, p.workers[i].response) else Silent
    case Fault(_) => Silent
  }

  /** A cached transaction keeps its key, so that it answers the request it is used for. */
  ghost predicate Keyed(cached: map<string, TxResponse>) {
    forall h :: h in cached ==> cached[h].hash == h
  }

  lemma MoveKeepsJob(n: Node, p: Pool, v: Worker)
    requires Safe(v) && Keyed(p.cached) && NextMove(n, p, v).To?
    ensures JobOf(NextMove(n, p, v).next) == if v.Ready? then None else JobOf(v)
  {
  }

  lemma AdvanceIsEffect(n: Node, p: Pool, i: nat, p': Pool)
    requires PoolEnabled(p, Advance(i)) && p' == Advanced(n, p, i) && Keyed(p.cached)
    ensures IsEffect(p.channels, JobsOf(p.workers, JobOf), EffectOf(p, Advance(i)),
                     p'.channels, JobsOf(p'.workers, JobOf))
  {
    if NextMove(n, p, p.workers[i]).To? {
      MoveKeepsJob(n, p, p.workers[i]);
    }
  }

  /** Every step of the pool takes a request, answers one, or leaves the work in hand as it is. */
  lemma PoolIsEffect(n: Node, p: Pool, a: PoolAction, p': Pool)
    requires PoolEnabled(p, a) && p' == PoolApply(n, p, a) && Keyed(p.cached)
    ensures IsEffect(p.channels, JobsOf(p.workers, JobOf), EffectOf(p, a), p'.channels, JobsOf(p'.workers, JobOf))
  {
    match a
    case Advance(i) => AdvanceIsEffect(n, p, i, p');
    case _ =>
  }
}
