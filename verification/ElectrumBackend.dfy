/** The Electrum backend as code: the steps of its workers over shared channels and maps. */
module ElectrumBackend {
  import opened Basics
  import opened Deriver
  import opened Fetching
  import opened Workers
  import opened Electrum
  import opened ElectrumRuns

  class ElectrumBackend {
    // channels
    var addrRequests: multiset<Address>
    var addrResponses: multiset<AddrResponse>
    var txRequests: multiset<string>
    var txResponses: multiset<TxResponse>
    var blockRequests: multiset<nat>
    var blockResponses: multiset<BlockResponse>

    var transactions: map<string, int>   // heights of the transactions seen in histories
    var workers: seq<Worker>             // where each processRequests goroutine is
    var panic: Option<Crash>

    constructor ()
      ensures View() == Pool(EMPTY, [], map[], None)
    {
      addrRequests, addrResponses, txRequests, txResponses := multiset{}, multiset{}, multiset{}, multiset{};
      blockRequests, blockResponses, transactions, workers, panic := multiset{}, multiset{}, map[], [], None;
    }

    ghost function View(): Pool
      reads this
    {
      Pool(Channels(Queues(addrRequests, addrResponses, txRequests, txResponses), blockRequests, blockResponses),
           workers, transactions, panic)
    }

    /** Stores the heights of a history, and stops at one that contradicts the cache. */
    method CacheTxs(txs: seq<HistoryTx>) returns (consistent: bool)
      modifies this`transactions
      ensures CacheAll(old(transactions), txs) == if consistent then Some(transactions) else None
      ensures consistent <==> Consistent(old(transactions), txs)
    {
      CacheExactly(transactions, txs);
      for i := 0 to |txs|
        invariant CacheAll(old(transactions), txs[..i]) == Some(transactions)
      {
        var tx := txs[i];
        assert txs[..i + 1][..i] == txs[..i];
        if tx.hash in transactions && transactions[tx.hash] != tx.height {
          CacheStops(old(transactions), txs, i + 1);
          return false;
        }
        transactions := transactions[tx.hash := tx.height];
      }
      assert txs[..|txs|] == txs;
      consistent := true;
    }

    /** A transaction that no history has listed is a panic. */
    method GetTxHeight(hash: string) returns (height: int)
      modifies this`panic
      ensures hash in transactions ==> height == transactions[hash] && panic == old(panic)
      ensures hash !in transactions ==> panic == Some(CacheMiss)
    {
      if hash in transactions {
        height := transactions[hash];
      } else {
        height, panic := 0, Some(CacheMiss);
      }
    }

    /** Takes a request from some channel that has one. */
    method Select() returns (job: Job)
      requires addrRequests != multiset{} || txRequests != multiset{} || blockRequests != multiset{}
      modifies this
      ensures InQueue(old(View()).channels, job) > 0
      ensures View() == old(View()).(channels := Dequeued(old(View()).channels, job))
    {
      if
      case addrRequests != multiset{} =>
        var addr :| addr in addrRequests;
        addrRequests := addrRequests - multiset{addr};
        job := AddrJob(addr);
      case txRequests != multiset{} =>
        var tx :| tx in txRequests;
        txRequests := txRequests - multiset{tx};
        job := TxJob(tx);
      case blockRequests != multiset{} =>
        var block :| block in blockRequests;
        blockRequests := blockRequests - multiset{block};
        job := BlockJob(block);
    }

    /** The select of a waiting worker. */
    method TakeRequest(i: nat) returns (job: Job)
      requires panic.None? && i < |workers| && workers[i].Waiting?
      requires addrRequests != multiset{} || txRequests != multiset{} || blockRequests != multiset{}
      modifies this
      ensures PoolEnabled(old(View()), Take(i, job)) && View() == PoolApply(old(View()), Take(i, job))
    {
      job := Select();
      workers := workers[i := Calling(job)];
    }

    /** The node's answer to the request in hand. */
    method HearReply(i: nat, reply: Reply)
      requires panic.None? && i < |workers| && workers[i].Calling? && Fits(workers[i].job, reply)
      modifies this
      ensures View() == PoolApply(old(View()), Hear(i, reply))
    {
      var job := workers[i].job;
      match reply {
        case Error => workers := workers[i := Failed(job)];
        case History(txs) => workers := workers[i := GotHistory(job.address, txs)];
        case Raw(hex) => workers := workers[i := GotTx(job.hash, hex)];
        case Header(timestamp) =>
          if timestamp.None? {
            panic := Some(BadHeader);
          } else {
            workers := workers[i := GotBlock(BlockResponse(job.height, timestamp.value))];
          }
      }
    }

    method Enqueue(job: Job)
      modifies this
      ensures View() == old(View()).(channels := Requeued(old(View()).channels, job))
    {
      match job {
        case AddrJob(address) => addrRequests := addrRequests + multiset{address};
        case TxJob(hash) => txRequests := txRequests + multiset{hash};
        case BlockJob(height) => blockRequests := blockRequests + multiset{height};
      }
    }

    /** The end of a failed request: back into its queue, and the worker is gone. */
    method Requeue(i: nat)
      requires i < |workers| && workers[i].Failed?
      modifies this
      ensures View() == Advanced(old(View()), i)
    {
      Enqueue(workers[i].job);
      workers := workers[i := Stopped];
    }

    /** The rest of an address request, in two steps: cache the heights, then send the response. A
        panic ends the program, with the cache as it then is. */
    method ProceedAddr(i: nat)
      requires panic.None? && i < |workers| && (workers[i].GotHistory? || workers[i].Listed?)
      modifies this
      ensures panic == Advanced(old(View()), i).crash
      ensures panic.None? ==> View() == Advanced(old(View()), i)
    {
      match workers[i] {
        case GotHistory(address, txs) =>
          var txHashes: seq<string> := [];
          for k := 0 to |txs|
            invariant txHashes == HashesOf(txs)[..k]
          {
            txHashes := txHashes + [txs[k].hash];
          }
          assert txHashes == HashesOf(txs);
          var consistent := CacheTxs(txs);
          if consistent {
            workers := workers[i := Listed(AddrResponse(address, txHashes))];
          } else {
            panic := Some(InconsistentCache);
          }
        case Listed(response) =>
          addrResponses := addrResponses + multiset{response};
          workers := workers[i := Waiting];
      }
    }

    /** The rest of a transaction request: look its height up, then send the response. */
    method ProceedTx(i: nat)
      requires panic.None? && i < |workers| && (workers[i].GotTx? || workers[i].Priced?)
      modifies this
      ensures View() == Advanced(old(View()), i)
    {
      match workers[i] {
        case GotTx(hash, hex) =>
          var height := GetTxHeight(hash);
          if panic.None? {
            workers := workers[i := Priced(TxResponse(hash, height, hex))];
          }
        case Priced(response) =>
          txResponses := txResponses + multiset{response};
          workers := workers[i := Waiting];
      }
    }

    method ProceedBlock(i: nat)
      requires panic.None? && i < |workers| && workers[i].GotBlock?
      modifies this
      ensures View() == Advanced(old(View()), i)
    {
      blockResponses := blockResponses + multiset{workers[i].block};
      workers := workers[i := Waiting];
    }

    /** A node was connected. */
    method AddNode()
      modifies this`workers
      ensures workers == old(workers) + [Waiting]
    {
      workers := workers + [Waiting];
    }

    /** A worker whose node does not answer a request for peers returns. */
    method LosePeers(i: nat)
      requires i < |workers|
      modifies this`workers
      ensures workers == old(workers)[i := Stopped]
    {
      workers := workers[i := Stopped];
    }

    /** The next step of a worker that has heard from its node. */
    method Proceed(i: nat)
      requires panic.None? && i < |workers| && Busy(workers[i])
      modifies this
      ensures panic == Advanced(old(View()), i).crash
      ensures panic.None? ==> View() == Advanced(old(View()), i)
    {
      match workers[i] {
        case Failed(_) => Requeue(i);
        case GotHistory(_, _) => ProceedAddr(i);
        case Listed(_) => ProceedAddr(i);
        case GotTx(_, _) => ProceedTx(i);
        case Priced(_) => ProceedTx(i);
        case GotBlock(_) => ProceedBlock(i);
      }
    }

    /** One step of whichever worker the scheduler picks: its node answers `reply`, fails, or a new node is
        connected. */
    method RunWorkers(reply: Reply) returns (ghost a: PoolAction)
      requires panic.None?
      modifies this
      ensures PoolEnabled(old(View()), a) && panic == PoolApply(old(View()), a).crash
      ensures panic.None? ==> View() == PoolApply(old(View()), a)
    {
      var i: int := *;
      if i < 0 || i >= |workers| || workers[i].Stopped? {
        a := Join;
        AddNode();
      } else if workers[i].Calling? {
        var answer := if Fits(workers[i].job, reply) then reply else Error;
        a := Hear(i, answer);
        HearReply(i, answer);
      } else if !workers[i].Waiting? {
        a := Advance(i);
        Proceed(i);
      } else if addrRequests != multiset{} || txRequests != multiset{} || blockRequests != multiset{} {
        var job := TakeRequest(i);
        a := Take(i, job);
      } else {
        a := PoolAction.LosePeers(i);
        LosePeers(i);
      }
    }

    /** The client's side: it receives any response, and the hashes listed in it. */
    method Receive() returns (ghost r: Response, txHashes: seq<string>)
      requires addrResponses != multiset{} || txResponses != multiset{} || blockResponses != multiset{}
      modifies this
      ensures Workers.Waiting(old(View()).channels, r) > 0
      ensures View() == old(View()).(channels := Received(old(View()).channels, r))
      ensures txHashes == if r.AddrDone? then r.addr.txHashes else []
    {
      txHashes := [];
      if
      case addrResponses != multiset{} =>
        var resp :| resp in addrResponses;
        addrResponses := addrResponses - multiset{resp};
        r, txHashes := AddrDone(resp), resp.txHashes;
      case txResponses != multiset{} =>
        var resp :| resp in txResponses;
        txResponses := txResponses - multiset{resp};
        r := TxDone(resp);
      case blockResponses != multiset{} =>
        var resp :| resp in blockResponses;
        blockResponses := blockResponses - multiset{resp};
        r := BlockDone(resp);
    }

    /** The backend at work for any time, with any client that asks only for transactions of histories it
        has received, and any nodes: it never misses the cache, and every request is waiting, in the hands
        of one worker, or was answered once. */
    method Serve(wanted: nat -> Job, replies: nat -> Reply)
      returns (ghost asked: multiset<Job>, ghost answered: multiset<Job>)
      requires View() == Pool(EMPTY, [], map[], None)
      modifies this
      ensures panic != Some(CacheMiss)
      ensures panic.None? ==> PoolKnown(View()) && Conserved(View(), asked, answered)
    {
      var rounds: nat := *;
      var listed: set<string> := {};
      asked, answered := multiset{}, multiset{};
      while rounds > 0 && panic.None?
        invariant panic != Some(CacheMiss)
        invariant panic.None? ==> Sound(View(), listed, asked, answered)
      {
        rounds := rounds - 1;
        ghost var p := View();
        var job := wanted(rounds);
        if
        case job.TxJob? ==> job.hash in listed =>
          Enqueue(job);
          AskKeepsSound(p, View(), listed, asked, answered, job);
          asked := asked + multiset{job};
        case addrResponses != multiset{} || txResponses != multiset{} || blockResponses != multiset{} =>
          ghost var r;
          var txHashes;
          r, txHashes := Receive();
          ReceiveKeepsSound(p, View(), listed, asked, answered, r, txHashes);
          listed := listed + (set h | h in txHashes);
        case true =>
          ghost var a := RunWorkers(replies(rounds));
          WorkersKeepSound(p, a, PoolApply(p, a), listed, asked, answered);
          answered := answered + Bag(Workers.Answer(EffectOf(p, a)));
      }
    }
  }

  function Bag(one: Option<Job>): multiset<Job> { if one.Some? then multiset{one.value} else multiset{} }

  /** Every request asked for is waiting, held by a worker, or answered. */
  ghost predicate Conserved(p: Pool, asked: multiset<Job>, answered: multiset<Job>) {
    forall job :: asked[job] == InQueue(p.channels, job) + Holders(JobsOf(p.workers, JobOf), job) + answered[job]
  }

  ghost predicate Sound(p: Pool, listed: set<string>, asked: multiset<Job>, answered: multiset<Job>) {
    PoolKnown(p) && listed <= p.heights.Keys && Conserved(p, asked, answered)
  }

  lemma AskKeepsSound(p: Pool, p': Pool, listed: set<string>, asked: multiset<Job>, answered: multiset<Job>, job: Job)
    requires Sound(p, listed, asked, answered) && (job.TxJob? ==> job.hash in listed)
    requires p' == p.(channels := Requeued(p.channels, job))
    ensures Sound(p', listed, asked + multiset{job}, answered)
  {
    forall other ensures InQueue(p'.channels, other) == InQueue(p.channels, other) + Count(Some(job), other) {
      RequeueReturns(p.channels, job, other);
    }
  }

  lemma ReceiveKeepsSound(p: Pool, p': Pool, listed: set<string>, asked: multiset<Job>, answered: multiset<Job>,
                          r: Response, txHashes: seq<string>)
    requires Sound(p, listed, asked, answered) && Workers.Waiting(p.channels, r) > 0
    requires p' == p.(channels := Received(p.channels, r))
    requires txHashes == if r.AddrDone? then r.addr.txHashes else []
    ensures Sound(p', listed + (set h | h in txHashes), asked, answered)
  {
    forall job ensures InQueue(p'.channels, job) == InQueue(p.channels, job) {
      ResponsesLeaveRequests(p.channels, r, job);
    }
    assert r.AddrDone? ==> AllIn(r.addr.txHashes, p.heights.Keys);
  }

  lemma WorkersKeepSound(p: Pool, a: PoolAction, p': Pool,
                         listed: set<string>, asked: multiset<Job>, answered: multiset<Job>)
    requires PoolEnabled(p, a) && p' == PoolApply(p, a) && Sound(p, listed, asked, answered)
    ensures p'.crash != Some(CacheMiss)
    ensures Sound(p', listed, asked, answered + Bag(Workers.Answer(EffectOf(p, a))))
  {
    PoolKeepsCache(p, a, p');
    PoolIsEffect(p, a, p');
    forall job
      ensures asked[job] == InQueue(p'.channels, job) + Holders(JobsOf(p'.workers, JobOf), job)
                            + (answered + Bag(Workers.Answer(EffectOf(p, a))))[job]
    {
      EffectConserves(p.channels, JobsOf(p.workers, JobOf), EffectOf(p, a),
                      p'.channels, JobsOf(p'.workers, JobOf), job);
    }
  }

  /** An inconsistency in a prefix is one of the whole. */
  lemma {:induction false} CacheStops(heights: map<string, int>, txs: seq<HistoryTx>, n: nat)
    requires n <= |txs| && CacheAll(heights, txs[..n]).None?
    ensures CacheAll(heights, txs).None?
    decreases |txs|
  {
    if n < |txs| {
      assert txs[..|txs| - 1][..n] == txs[..n];
      CacheStops(heights, txs[..|txs| - 1], n);
    } else {
      assert txs[..n] == txs;
    }
  }
}
