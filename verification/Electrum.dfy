/** The Electrum backend: one worker goroutine per connected node, shared request queues, requests
    put back when a node fails, and a cache of transaction heights. */
module Electrum {
  import opened Basics
  import opened Deriver
  import opened Fetching
  import opened Workers

  datatype HistoryTx = HistoryTx(hash: string, height: int)

  /** What a server may answer; `Header(None)` is a header that cannot be parsed. */
  datatype Reply = Error | History(txs: seq<HistoryTx>) | Raw(hex: string) | Header(timestamp: Option<int>)

  /** Where a worker is in the handling of a request. */
  datatype Worker =
    | Waiting                                             // in select
    | Calling(job: Job)                                   // request taken, waiting for its node
    | Failed(job: Job)                                    // node removed, request not yet requeued
    | GotHistory(address: Address, txs: seq<HistoryTx>)   // heights not yet cached
    | Listed(response: AddrResponse)                      // heights cached, response not yet sent
    | GotTx(hash: string, hex: string)                    // height not yet looked up
    | Priced(tx: TxResponse)                              // response not yet sent
    | GotBlock(block: BlockResponse)                      // response not yet sent
    | Stopped

  datatype Crash = CacheMiss | InconsistentCache | BadHeader

  datatype Pool = Pool(
    channels: Channels, workers: seq<Worker>, heights: map<string, int>, crash: Option<Crash>)

  datatype PoolAction =
    | Join                              // a new node is connected
    | Take(worker: nat, job: Job)       // a waiting worker takes a request
    | Hear(worker: nat, reply: Reply)   // its node answers, or fails
    | Advance(worker: nat)              // the worker's next step
    | LosePeers(worker: nat)            // a request for peers failed: the worker returns

  function HashesOf(txs: seq<HistoryTx>): (hs: seq<string>)
    ensures |hs| == |txs|
    ensures forall i :: 0 <= i < |txs| ==> hs[i] == txs[i].hash
  {
    seq(|txs|, i requires 0 <= i < |txs| => txs[i].hash)
  }

  /** `cacheTxs`: stores all heights, or panics at one that contradicts the cache. */
  function CacheAll(heights: map<string, int>, txs: seq<HistoryTx>): Option<map<string, int>>
    decreases |txs|
  {
    if txs == [] then Some(heights) else
      var n := |txs| - 1;
      match CacheAll(heights, txs[..n])
      case None => None
      case Some(m) =>
        if txs[n].hash in m && m[txs[n].hash] != txs[n].height then None
        else Some(m[txs[n].hash := txs[n].height])
  }

  /** The heights reported agree with the cache and with one another. */
  ghost predicate Consistent(heights: map<string, int>, txs: seq<HistoryTx>) {
    && (forall i :: 0 <= i < |txs| && txs[i].hash in heights ==> heights[txs[i].hash] == txs[i].height)
    && (forall i, j :: 0 <= i < j < |txs| && txs[i].hash == txs[j].hash ==> txs[i].height == txs[j].height)
  }

  /** The table learns exactly what is in the history and forgets nothing. */
  ghost predicate Learns(heights: map<string, int>, txs: seq<HistoryTx>, m: map<string, int>) {
    && (forall h :: h in m <==> h in heights || h in HashesOf(txs))
    && (forall h :: h in heights ==> m[h] == heights[h])
    && (forall i :: 0 <= i < |txs| ==> txs[i].hash in m && m[txs[i].hash] == txs[i].height)
  }

  lemma LearnsOne(heights: map<string, int>, txs: seq<HistoryTx>, m: map<string, int>)
    requires |txs| > 0 && Learns(heights, txs[..|txs| - 1], m)
    requires var last := txs[|txs| - 1]; last.hash in m ==> m[last.hash] == last.height
    ensures Learns(heights, txs, m[txs[|txs| - 1].hash := txs[|txs| - 1].height])
  {
    var n := |txs| - 1;
    assert HashesOf(txs) == HashesOf(txs[..n]) + [txs[n].hash];
    assert forall i :: 0 <= i < n ==> txs[..n][i] == txs[i];
  }

  lemma ConsistentOne(heights: map<string, int>, txs: seq<HistoryTx>, m: map<string, int>)
    requires |txs| > 0 && Learns(heights, txs[..|txs| - 1], m) && Consistent(heights, txs[..|txs| - 1])
    ensures var last := txs[|txs| - 1]; (last.hash in m ==> m[last.hash] == last.height) <==> Consistent(heights, txs)
  {
    var n := |txs| - 1;
    var last := txs[n];
    assert forall i :: 0 <= i < n ==> txs[..n][i] == txs[i];
    if last.hash in m && last.hash !in heights {
      var i :| 0 <= i < n && HashesOf(txs[..n])[i] == last.hash;
      assert m[txs[..n][i].hash] == txs[..n][i].height;
    }
  }

  /** The cache panics exactly on inconsistent heights; otherwise it keeps what it knew and learns
      exactly the transactions listed. */
  lemma {:induction false} CacheExactly(heights: map<string, int>, txs: seq<HistoryTx>)
    ensures CacheAll(heights, txs).Some? <==> Consistent(heights, txs)
    ensures CacheAll(heights, txs).Some? ==> Learns(heights, txs, CacheAll(heights, txs).value)
    decreases |txs|
  {
    if txs != [] {
      var pre := txs[..|txs| - 1];
      CacheExactly(heights, pre);
      if CacheAll(heights, pre).Some? {
        ConsistentOne(heights, txs, CacheAll(heights, pre).value);
        if Consistent(heights, txs) {
          LearnsOne(heights, txs, CacheAll(heights, pre).value);
        }
      } else {
        Inconsistent(heights, txs);
      }
    }
  }

  lemma Inconsistent(heights: map<string, int>, txs: seq<HistoryTx>)
    requires |txs| > 0 && !Consistent(heights, txs[..|txs| - 1])
    ensures !Consistent(heights, txs)
  {
    assert forall i :: 0 <= i < |txs| - 1 ==> txs[..|txs| - 1][i] == txs[i];
  }

  predicate PoolEnabled(p: Pool, a: PoolAction) {
    p.crash.None? && (!a.Join? ==> a.worker < |p.workers|) &&
    match a
    case Join => true
    case Take(i, job) => p.workers[i].Waiting? && InQueue(p.channels, job) > 0
    case Hear(i, r) => p.workers[i].Calling? && Fits(p.workers[i].job, r)
    case Advance(i) => Busy(p.workers[i])
    case LosePeers(i) => p.workers[i].Waiting?
  }

  predicate Fits(job: Job, r: Reply) {
    match r
    case Error => true
    case History(_) => job.AddrJob?
    case Raw(_) => job.TxJob?
    case Header(_) => job.BlockJob?
  }

  function Moved(p: Pool, i: nat, v: Worker): Pool
    requires i < |p.workers|
  {
    p.(workers := p.workers[i := v])
  }

  function PoolApply(p: Pool, a: PoolAction): Pool
    requires PoolEnabled(p, a)
  {
    match a
    case Join => p.(workers := p.workers + [Waiting])
    case Take(i, job) => Moved(p.(channels := Dequeued(p.channels, job)), i, Calling(job))
    case Hear(i, r) => Heard(p, i, p.workers[i].job, r)
    case Advance(i) => Advanced(p, i)
    case LosePeers(i) => Moved(p, i, Stopped)
  }

  function Heard(p: Pool, i: nat, job: Job, r: Reply): Pool
    requires i < |p.workers| && Fits(job, r)
  {
    match r
    case Error => Moved(p, i, Failed(job))
    case History(txs) => Moved(p, i, GotHistory(job.address, txs))
    case Raw(hex) => Moved(p, i, GotTx(job.hash, hex))
    case Header(None) => p.(crash := Some(BadHeader))
    case Header(Some(t)) => Moved(p, i, GotBlock(BlockResponse(job.height, t)))
  }

  predicate Busy(v: Worker) { !v.Waiting? && !v.Calling? && !v.Stopped? }

  /** The two sanity checks of the height cache. */
  function Crashes(heights: map<string, int>, v: Worker): Option<Crash> {
    if v.GotHistory? && CacheAll(heights, v.txs).None? then Some(InconsistentCache)
    else if v.GotTx? && v.hash !in heights then Some(CacheMiss)
    else None
  }

  /** Where a worker goes next. */
  function Next(heights: map<string, int>, v: Worker): Worker
    requires Busy(v) && Crashes(heights, v).None?
  {
    match v
    case Failed(_) => Stopped
    case GotHistory(x, txs) => Listed(AddrResponse(x, HashesOf(txs)))
    case GotTx(h, hex) => Priced(TxResponse(h, heights[h], hex))
    case _ => Waiting
  }

  /** What it does to the channels and the cache on the way. */
  function Shared(p: Pool, v: Worker): Pool
    requires Busy(v) && Crashes(p.heights, v).None?
  {
    match v
    case Failed(job) => p.(channels := Requeued(p.channels, job))
    case GotHistory(_, txs) => p.(heights := CacheAll(p.heights, txs).value)
    case Listed(r) => p.(channels := Delivered(p.channels, AddrDone(r)))
    case Priced(r) => p.(channels := Delivered(p.channels, TxDone(r)))
    case GotBlock(r) => p.(channels := Delivered(p.channels, BlockDone(r)))
    case _ => p
  }

  function Advanced(p: Pool, i: nat): Pool
    requires i < |p.workers| && Busy(p.workers[i])
  {
    var v := p.workers[i];
    match Crashes(p.heights, v)
    case Some(crash) => p.(crash := Some(crash))
    case None => Moved(Shared(p, v), i, Next(p.heights, v))
  }

  /** The request that a worker holds. */
  function JobOf(v: Worker): Option<Job> {
    match v
    case Calling(job) => Some(job)
    case Failed(job) => Some(job)
    case GotHistory(x, _) => Some(AddrJob(x))
    case Listed(r) => Some(AddrJob(r.address))
    case GotTx(h, _) => Some(TxJob(h))
    case Priced(r) => Some(TxJob(r.hash))
    case GotBlock(r) => Some(BlockJob(r.height))
    case _ => None
  }

  /** What a worker's next step does to the work in hand. */
  function NextEffect(i: nat, v: Worker): Effect {
    match v
    case Failed(_) => GaveUp(i)
    case Listed(r) => Answered(i, AddrDone(r))
    case Priced(r) => Answered(i, TxDone(r))
    case GotBlock(r) => Answered(i, BlockDone(r))
    case _ => Silent
  }

  function EffectOf(p: Pool, a: PoolAction): Effect
    requires PoolEnabled(p, a)
  {
    match a
    case Join => Joined
    case Take(i, job) => Started(i, job)
    case Advance(i) => NextEffect(i, p.workers[i])
    case _ => Silent
  }

  lemma AdvanceIsEffect(p: Pool, i: nat, p': Pool)
    requires i < |p.workers| && Busy(p.workers[i]) && p' == Advanced(p, i)
    ensures IsEffect(p.channels, JobsOf(p.workers, JobOf), NextEffect(i, p.workers[i]),
                     p'.channels, JobsOf(p'.workers, JobOf))
  {
    if Crashes(p.heights, p.workers[i]).None? {
      SharedIsEffect(p, i, p.workers[i], Shared(p, p.workers[i]));
      assert JobsOf(p'.workers, JobOf) == JobsOf(p.workers, JobOf)[i := JobOf(Next(p.heights, p.workers[i]))];
    }
  }

  lemma SharedIsEffect(p: Pool, i: nat, v: Worker, shared: Pool)
    requires Busy(v) && Crashes(p.heights, v).None? && shared == Shared(p, v)
    ensures match NextEffect(i, v)
      case GaveUp(_) => JobOf(v).Some? && shared.channels == Requeued(p.channels, JobOf(v).value)
                        && JobOf(Next(p.heights, v)).None?
      case Answered(_, r) => JobOf(v) == Some(JobFor(r)) && shared.channels == Delivered(p.channels, r)
                             && JobOf(Next(p.heights, v)).None?
      case _ => shared.channels == p.channels && JobOf(Next(p.heights, v)) == JobOf(v)
    ensures shared.workers == p.workers
  {
  }

  /** Every step of the pool takes a request, puts one back, answers one, or leaves the work in hand
      as it is. */
  lemma PoolIsEffect(p: Pool, a: PoolAction, p': Pool)
    requires PoolEnabled(p, a) && p' == PoolApply(p, a)
    ensures IsEffect(p.channels, JobsOf(p.workers, JobOf), EffectOf(p, a), p'.channels, JobsOf(p'.workers, JobOf))
  {
    match a
    case Advance(i) => AdvanceIsEffect(p, i, p');
    case _ =>
  }
}
