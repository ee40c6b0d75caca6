/** Whole runs of the accounter over the Electrum backend: work is conserved, the height cache never
    misses, and with servers that agree every run is a run of the fetch protocol. */
module ElectrumRuns {
  import opened Basics
  import opened Deriver
  import opened Wallet
  import opened Fetching
  import opened FetchingSafety
  import opened Workers
  import opened Electrum

  datatype Sys = Sys(core: Core, pool: Pool)

  function Start(w: World): Sys { Sys(InitCore(w), Pool(EMPTY, [], map[], None)) }

  predicate StepEnabled(s: Sys, a: Step<PoolAction>) {
    s.pool.crash.None? &&
    match a
    case ByCore(b) => CoreEnabled(s.core, b) && CanTake(s.pool.channels.queues, b)
    case ByWorker(b) => PoolEnabled(s.pool, b)
    case AskBlock(_) => true
    case GetBlock(r) => r in s.pool.channels.blockResponses
  }

  function StepApply(w: World, s: Sys, a: Step<PoolAction>): Sys
    requires StepEnabled(s, a)
  {
    if a.ByWorker? then s.(pool := PoolApply(s.pool, a.effect))
    else Sys(CoreAfter(w, s.core, a), s.pool.(channels := Outside(w, s.core, s.pool.channels, a)))
  }

  predicate RunOf(w: World, s: Sys, run: seq<Step<PoolAction>>)
    decreases |run|
  {
    run == [] || (StepEnabled(s, run[0]) && RunOf(w, StepApply(w, s, run[0]), run[1..]))
  }

  function EndOf(w: World, s: Sys, run: seq<Step<PoolAction>>): Sys
    requires RunOf(w, s, run)
    decreases |run|
  {
    if run == [] then s else EndOf(w, StepApply(w, s, run[0]), run[1..])
  }

  /** The floor of workers that the pool is, and a run as a run of the floor. */
  function FloorOf(s: Sys): Floor { Floor(s.core, s.pool.channels, JobsOf(s.pool.workers, JobOf)) }

  function Image(s: Sys, a: Step<PoolAction>): Step<Effect>
    requires StepEnabled(s, a)
  {
    match a
    case ByCore(b) => ByCore(b)
    case ByWorker(b) => ByWorker(EffectOf(s.pool, b))
    case AskBlock(n) => AskBlock(n)
    case GetBlock(r) => GetBlock(r)
  }

  function ImageOf(w: World, s: Sys, run: seq<Step<PoolAction>>): (image: seq<Step<Effect>>)
    requires RunOf(w, s, run)
    decreases |run|
  {
    if run == [] then [] else [Image(s, run[0])] + ImageOf(w, StepApply(w, s, run[0]), run[1..])
  }

  lemma ImageStep(w: World, s: Sys, a: Step<PoolAction>, t: Sys)
    requires StepEnabled(s, a) && t == StepApply(w, s, a)
    ensures FloorEnabled(FloorOf(s), Image(s, a)) && FloorApply(w, FloorOf(s), Image(s, a)) == FloorOf(t)
  {
    if a.ByWorker? {
      PoolIsEffect(s.pool, a.effect, t.pool);
    }
  }

  lemma {:induction false} ImageRun(w: World, s: Sys, run: seq<Step<PoolAction>>)
    requires RunOf(w, s, run)
    ensures FloorRun(w, FloorOf(s), ImageOf(w, s, run))
    ensures FloorEnd(w, FloorOf(s), ImageOf(w, s, run)) == FloorOf(EndOf(w, s, run))
    decreases |run|
  {
    if run != [] {
      ImageStep(w, s, run[0], StepApply(w, s, run[0]));
      ImageRun(w, StepApply(w, s, run[0]), run[1..]);
      assert ImageOf(w, s, run)[1..] == ImageOf(w, StepApply(w, s, run[0]), run[1..]);
    }
  }

  /** Whatever nodes fail, and however often: along every run each request was scheduled exactly as
      often as it is queued, held by a worker, or was answered. */
  lemma ElectrumConserves(w: World, run: seq<Step<PoolAction>>, job: Job)
    requires RunOf(w, Start(w), run)
    ensures var s, image := Start(w), ImageOf(w, Start(w), run);
      && FloorRun(w, FloorOf(s), image)
      && TimesAsked(w, FloorOf(s), image, job)
         == Outstanding(FloorOf(EndOf(w, s, run)), job) + TimesAnswered(image, job)
  {
    ImageRun(w, Start(w), run);
    RunConserves(w, FloorOf(Start(w)), ImageOf(w, Start(w), run), job);
  }

  /** Every hash that may still be asked for, or was asked for and not answered, is in the cache. */
  ghost predicate AllIn(hashes: seq<string>, known: set<string>) {
    forall h :: h in hashes ==> h in known
  }

  ghost predicate QueuesKnown(q: Queues, known: set<string>) {
    && (forall h :: h in q.txRequests ==> h in known)
    && (forall r :: r in q.addrResponses ==> AllIn(r.txHashes, known))
  }

  ghost predicate WorkerKnown(v: Worker, known: set<string>) {
    && (v.Listed? ==> AllIn(v.response.txHashes, known))
    && (JobOf(v).Some? && JobOf(v).value.TxJob? ==> JobOf(v).value.hash in known)
  }

  ghost predicate WorkersKnown(ws: seq<Worker>, known: set<string>) {
    forall i :: 0 <= i < |ws| ==> WorkerKnown(ws[i], known)
  }

  ghost predicate CoreKnown(c: Core, known: set<string>) {
    HeldAddr(c).Some? ==> AllIn(HeldAddr(c).value.txHashes, known)
  }

  ghost predicate CacheInv(s: Sys) {
    && PoolKnown(s.pool) && CoreKnown(s.core, s.pool.heights.Keys)
    && s.pool.crash != Some(CacheMiss)
  }

  lemma CoreKeepsCache(w: World, c: Core, q: Queues, b: CoreAction, c': Core, q': Queues, known: set<string>)
    requires CoreEnabled(c, b) && CanTake(q, b) && QueuesKnown(q, known) && CoreKnown(c, known)
    requires c' == CoreApply(w, c, b) && q' == Exchange(w, c, q, b)
    ensures QueuesKnown(q', known) && CoreKnown(c', known)
  {
    if b.OnAddr? {
      AddrKeepsCache(w, c, q, b.onAddr, c', q', known);
    } else {
      OtherQueues(w, c, q, b, c', q');
    }
  }

  lemma OtherQueues(w: World, c: Core, q: Queues, b: CoreAction, c': Core, q': Queues)
    requires CoreEnabled(c, b) && !b.OnAddr? && c' == CoreApply(w, c, b) && q' == Exchange(w, c, q, b)
    ensures q'.txRequests == q.txRequests && q'.addrResponses == q.addrResponses
    ensures HeldAddr(c').Some? ==> HeldAddr(c') == HeldAddr(c)
  {
    match b
    case Send(a) => SendQueues(w, c, q, a);
    case OnTx(a) => TxQueues(w, c, q, a);
    case Tick =>
  }

  lemma SendQueues(w: World, c: Core, q: Queues, a: SenderAction)
    requires SendEnabled(c, a)
    ensures SendApply(c, a).receiver == c.receiver
    ensures Exchange(w, c, q, Send(a)) == q.(addrRequests := Exchange(w, c, q, Send(a)).addrRequests)
  {
  }

  lemma TxQueues(w: World, c: Core, q: Queues, a: TxAction)
    requires TxEnabled(c, a)
    ensures HeldAddr(TxApply(c, a)) == HeldAddr(c) == None
    ensures Exchange(w, c, q, OnTx(a)) == q.(txResponses := Exchange(w, c, q, OnTx(a)).txResponses)
  {
  }

  lemma AddrKeepsCache(w: World, c: Core, q: Queues, a: AddrAction, c': Core, q': Queues, known: set<string>)
    requires AddrEnabled(c, a) && CanTake(q, OnAddr(a)) && QueuesKnown(q, known) && CoreKnown(c, known)
    requires c' == AddrApply(w, c, a) && q' == Exchange(w, c, q, OnAddr(a))
    ensures QueuesKnown(q', known) && CoreKnown(c', known)
  {
  }

  lemma HistoryKeepsCache(heights: map<string, int>, txs: seq<HistoryTx>)
    requires CacheAll(heights, txs).Some?
    ensures heights.Keys <= CacheAll(heights, txs).value.Keys
    ensures AllIn(HashesOf(txs), CacheAll(heights, txs).value.Keys)
  {
    CacheExactly(heights, txs);
  }

  /** A worker's next step never misses the cache, which only grows. */
  lemma AdvanceKeepsWorker(p: Pool, v: Worker, p': Pool, v': Worker)
    requires Busy(v) && WorkerKnown(v, p.heights.Keys) && Crashes(p.heights, v).None?
    requires p' == Shared(p, v) && v' == Next(p.heights, v)
    ensures p.heights.Keys <= p'.heights.Keys && WorkerKnown(v', p'.heights.Keys)
  {
    if v.GotHistory? {
      HistoryKeepsCache(p.heights, v.txs);
    }
  }

  lemma AdvanceKeepsQueues(p: Pool, v: Worker, p': Pool)
    requires Busy(v) && WorkerKnown(v, p.heights.Keys) && Crashes(p.heights, v).None?
    requires p' == Shared(p, v) && p.heights.Keys <= p'.heights.Keys && QueuesKnown(p.channels.queues, p.heights.Keys)
    ensures QueuesKnown(p'.channels.queues, p'.heights.Keys)
  {
  }

  lemma UpdateKeepsKnown(ws: seq<Worker>, i: nat, v: Worker, known: set<string>, known': set<string>)
    requires i < |ws| && WorkersKnown(ws, known) && known <= known' && WorkerKnown(v, known')
    ensures WorkersKnown(ws[i := v], known')
  {
  }

  ghost predicate PoolKnown(p: Pool) {
    QueuesKnown(p.channels.queues, p.heights.Keys) && WorkersKnown(p.workers, p.heights.Keys)
  }

  lemma AdvanceKeepsCache(p: Pool, i: nat, p': Pool)
    requires i < |p.workers| && Busy(p.workers[i]) && p' == Advanced(p, i) && PoolKnown(p)
    ensures PoolKnown(p') && p.heights.Keys <= p'.heights.Keys
    ensures p'.crash == Some(CacheMiss) ==> p.crash == Some(CacheMiss)
  {
    var v := p.workers[i];
    assert WorkerKnown(v, p.heights.Keys);
    if Crashes(p.heights, v).None? {
      AdvanceKeepsWorker(p, v, Shared(p, v), Next(p.heights, v));
      AdvanceKeepsQueues(p, v, Shared(p, v));
      UpdateKeepsKnown(p.workers, i, Next(p.heights, v), p.heights.Keys, p'.heights.Keys);
    }
  }

  lemma TakeKeepsCache(p: Pool, i: nat, job: Job, p': Pool)
    requires i < |p.workers| && InQueue(p.channels, job) > 0 && PoolKnown(p)
    requires p' == Moved(p.(channels := Dequeued(p.channels, job)), i, Calling(job))
    ensures PoolKnown(p')
  {
    UpdateKeepsKnown(p.workers, i, Calling(job), p.heights.Keys, p.heights.Keys);
  }

  lemma HearKeepsCache(p: Pool, i: nat, r: Reply, p': Pool)
    requires i < |p.workers| && p.workers[i].Calling? && Fits(p.workers[i].job, r) && PoolKnown(p)
    requires p' == Heard(p, i, p.workers[i].job, r)
    ensures PoolKnown(p')
  {
    assert WorkerKnown(p.workers[i], p.heights.Keys);
  }

  lemma PoolKeepsCache(p: Pool, a: PoolAction, p': Pool)
    requires PoolEnabled(p, a) && p' == PoolApply(p, a) && PoolKnown(p)
    ensures PoolKnown(p') && p.heights.Keys <= p'.heights.Keys && p'.crash != Some(CacheMiss)
  {
    if a.Advance? {
      AdvanceKeepsCache(p, a.worker, p');
    } else {
      RestKeepsCache(p, a, p');
    }
  }

  lemma RestKeepsCache(p: Pool, a: PoolAction, p': Pool)
    requires PoolEnabled(p, a) && !a.Advance? && p' == PoolApply(p, a) && PoolKnown(p)
    ensures PoolKnown(p') && p.heights == p'.heights && p'.crash != Some(CacheMiss)
  {
    if a.Take? {
      TakeKeepsCache(p, a.worker, a.job, p');
    } else if a.Hear? {
      HearKeepsCache(p, a.worker, a.reply, p');
    }
  }

  lemma StepKeepsCache(w: World, s: Sys, a: Step<PoolAction>, t: Sys)
    requires StepEnabled(s, a) && t == StepApply(w, s, a) && CacheInv(s)
    ensures CacheInv(t)
  {
    match a
    case ByCore(b) =>
      var q, q' := s.pool.channels.queues, t.pool.channels.queues;
      CoreKeepsCache(w, s.core, q, b, t.core, q', s.pool.heights.Keys);
    case ByWorker(b) => PoolKeepsCache(s.pool, b, t.pool);
    case _ =>
  }

  lemma {:induction false} RunKeepsCache(w: World, s: Sys, run: seq<Step<PoolAction>>)
    requires RunOf(w, s, run) && CacheInv(s)
    ensures CacheInv(EndOf(w, s, run))
    decreases |run|
  {
    if run != [] {
      StepKeepsCache(w, s, run[0], StepApply(w, s, run[0]));
      RunKeepsCache(w, StepApply(w, s, run[0]), run[1..]);
    }
  }

  /** Whatever the servers answer and whichever nodes fail, `getTxHeight` never misses. */
  lemma NeverMisses(w: World, run: seq<Step<PoolAction>>)
    requires RunOf(w, Start(w), run)
    ensures var p := EndOf(w, Start(w), run).pool;
      && p.crash != Some(CacheMiss)
      && (forall h :: h in p.channels.queues.txRequests ==> h in p.heights)
  {
    RunKeepsCache(w, Start(w), run);
  }

  /** What a server that agrees with the world answers, if it answers. */
  function TrueHistory(w: World, x: Address): seq<HistoryTx> {
    seq(|w.history(x)|, i requires 0 <= i < |w.history(x)| => HistoryTx(w.history(x)[i], w.tx(w.history(x)[i]).height))
  }

  predicate HonestReply(w: World, times: nat -> int, job: Job, r: Reply)
    requires Fits(job, r)
  {
    match r
    case Error => true
    case History(txs) => txs == TrueHistory(w, job.address)
    case Raw(hex) => hex == w.tx(job.hash).hex
    case Header(t) => t == Some(times(job.height))
  }

  predicate HonestHearing(w: World, times: nat -> int, s: Sys, a: Step<PoolAction>)
    requires StepEnabled(s, a)
  {
    a.ByWorker? && a.effect.Hear? ==> HonestReply(w, times, s.pool.workers[a.effect.worker].job, a.effect.reply)
  }

  /** A run in which all servers agree with the world; any of them may fail at any time. */
  predicate HonestServers(w: World, times: nat -> int, s: Sys, run: seq<Step<PoolAction>>)
    requires RunOf(w, s, run)
    decreases |run|
  {
    run == [] || (HonestHearing(w, times, s, run[0]) && HonestServers(w, times, StepApply(w, s, run[0]), run[1..]))
  }

  predicate TrueWorker(w: World, times: nat -> int, v: Worker) {
    match v
    case GotHistory(x, txs) => txs == TrueHistory(w, x)
    case Listed(r) => r == AddrAnswer(w, r.address)
    case GotTx(h, hex) => hex == w.tx(h).hex
    case Priced(r) => r == TxAnswer(w, r.hash)
    case GotBlock(r) => r.timestamp == times(r.height)
    case _ => true
  }

  ghost predicate TrueHeights(w: World, heights: map<string, int>) {
    forall h :: h in heights ==> heights[h] == w.tx(h).height
  }

  ghost predicate TrueWorkers(w: World, times: nat -> int, ws: seq<Worker>) {
    forall i :: 0 <= i < |ws| ==> TrueWorker(w, times, ws[i])
  }

  ghost predicate TrueBlocks(times: nat -> int, blocks: multiset<BlockResponse>) {
    forall r :: r in blocks ==> r.timestamp == times(r.height)
  }

  ghost predicate TruthInv(w: World, times: nat -> int, p: Pool) {
    && TrueHeights(w, p.heights) && TrueWorkers(w, times, p.workers) && TrueBlocks(times, p.channels.blockResponses)
    && p.crash.None?
  }

  lemma TrueHistoryCaches(w: World, heights: map<string, int>, x: Address)
    requires TrueHeights(w, heights)
    ensures CacheAll(heights, TrueHistory(w, x)).Some?
    ensures TrueHeights(w, CacheAll(heights, TrueHistory(w, x)).value)
    ensures HashesOf(TrueHistory(w, x)) == w.history(x)
  {
    var txs := TrueHistory(w, x);
    CacheExactly(heights, txs);
    var m := CacheAll(heights, txs).value;
    forall h | h in m ensures m[h] == w.tx(h).height {
      if h !in heights {
        assert h in HashesOf(txs);
        var i :| 0 <= i < |txs| && HashesOf(txs)[i] == h;
        assert txs[i].hash in m && m[txs[i].hash] == txs[i].height;
      }
    }
  }

  /** With true answers a worker's next step does not crash, and what it holds and shares is true. */
  lemma AdvanceKeepsTruth(w: World, times: nat -> int, p: Pool, v: Worker)
    requires Busy(v) && TrueWorker(w, times, v) && WorkerKnown(v, p.heights.Keys)
    requires TrueHeights(w, p.heights) && TrueBlocks(times, p.channels.blockResponses)
    ensures Crashes(p.heights, v).None? && TrueWorker(w, times, Next(p.heights, v))
    ensures TrueHeights(w, Shared(p, v).heights) && TrueBlocks(times, Shared(p, v).channels.blockResponses)
  {
    if v.GotHistory? {
      TrueHistoryCaches(w, p.heights, v.address);
    }
  }

  lemma PoolKeepsTruth(w: World, times: nat -> int, p: Pool, a: PoolAction, p': Pool)
    requires PoolEnabled(p, a) && p' == PoolApply(p, a) && TruthInv(w, times, p)
    requires WorkersKnown(p.workers, p.heights.Keys)
    requires a.Hear? ==> HonestReply(w, times, p.workers[a.worker].job, a.reply)
    ensures TruthInv(w, times, p')
  {
    if a.Advance? {
      AdvanceTruth(w, times, p, a.worker, p');
    } else {
      RestTruth(w, times, p, a, p');
    }
  }

  lemma AdvanceTruth(w: World, times: nat -> int, p: Pool, i: nat, p': Pool)
    requires i < |p.workers| && Busy(p.workers[i]) && p' == Advanced(p, i) && TruthInv(w, times, p)
    requires WorkersKnown(p.workers, p.heights.Keys)
    ensures TruthInv(w, times, p')
  {
    assert WorkerKnown(p.workers[i], p.heights.Keys) && TrueWorker(w, times, p.workers[i]);
    AdvanceKeepsTruth(w, times, p, p.workers[i]);
    UpdateKeepsTruth(w, times, p.workers, i, Next(p.heights, p.workers[i]));
  }

  lemma UpdateKeepsTruth(w: World, times: nat -> int, ws: seq<Worker>, i: nat, v: Worker)
    requires i < |ws| && TrueWorkers(w, times, ws) && TrueWorker(w, times, v)
    ensures TrueWorkers(w, times, ws[i := v])
  {
  }

  lemma RestTruth(w: World, times: nat -> int, p: Pool, a: PoolAction, p': Pool)
    requires PoolEnabled(p, a) && !a.Advance? && p' == PoolApply(p, a) && TruthInv(w, times, p)
    requires a.Hear? ==> HonestReply(w, times, p.workers[a.worker].job, a.reply)
    ensures TruthInv(w, times, p')
  {
    if !a.Join? {
      assert p'.workers == p.workers[a.worker := p'.workers[a.worker]];
      UpdateKeepsTruth(w, times, p.workers, a.worker, p'.workers[a.worker]);
    }
  }

  lemma StepKeepsTruth(w: World, times: nat -> int, s: Sys, a: Step<PoolAction>, t: Sys)
    requires StepEnabled(s, a) && t == StepApply(w, s, a) && HonestHearing(w, times, s, a)
    requires CacheInv(s) && TruthInv(w, times, s.pool)
    ensures TruthInv(w, times, t.pool)
  {
    match a
    case ByWorker(b) => PoolKeepsTruth(w, times, s.pool, b, t.pool);
    case _ =>
  }

  /** What true workers send is true. */
  lemma TrueImage(w: World, times: nat -> int, s: Sys, a: Step<PoolAction>)
    requires StepEnabled(s, a) && TrueWorkers(w, times, s.pool.workers)
    ensures HonestStep(w, times, Image(s, a))
  {
    if a.ByWorker? && a.effect.Advance? {
      assert TrueWorker(w, times, s.pool.workers[a.effect.worker]);
    }
  }

  lemma {:induction false} HonestServersAnswer(w: World, times: nat -> int, s: Sys, run: seq<Step<PoolAction>>)
    requires RunOf(w, s, run) && HonestServers(w, times, s, run) && CacheInv(s) && TruthInv(w, times, s.pool)
    ensures HonestRun(w, times, ImageOf(w, s, run)) && EndOf(w, s, run).pool.crash.None?
    decreases |run|
  {
    if run != [] {
      var t := StepApply(w, s, run[0]);
      StepKeepsCache(w, s, run[0], t);
      StepKeepsTruth(w, times, s, run[0], t);
      TrueImage(w, times, s, run[0]);
      HonestServersAnswer(w, times, t, run[1..]);
    }
  }

  /** The accounter over the Electrum pool: with servers that agree no run crashes, whatever nodes
      fail, and when recvWork returns everything has been fetched and no request is left behind. */
  lemma ElectrumFetches(w: World, times: nat -> int, top: Pair, run: seq<Step<PoolAction>>)
    requires w.Bounded(top) && RunOf(w, Start(w), run) && HonestServers(w, times, Start(w), run)
    ensures EndOf(w, Start(w), run).pool.crash.None?
    ensures EndOf(w, Start(w), run).core.receiver.Returned? ==> AllFetched(w, FloorOf(EndOf(w, Start(w), run)))
  {
    HonestServersAnswer(w, times, Start(w), run);
    ImageRun(w, Start(w), run);
    assert FloorOf(Start(w)) == Opening(w);
    if EndOf(w, Start(w), run).core.receiver.Returned? {
      FloorFetches(w, times, top, ImageOf(w, Start(w), run));
    }
  }
}
