/** The fixture as code: a goroutine that answers from the maps loaded from a file. */
module FixtureBackend {
  import opened Basics
  import opened Deriver
  import opened Fetching
  import opened Workers
  import opened Recorder
  import opened Replay
  import RecorderBackend
  import RecorderRuns

  class FixtureBackend {
    // channels used to communicate with the accounter
    var addrRequests: multiset<Address>
    var addrResponses: multiset<AddrResponse>
    var txRequests: multiset<string>
    var txResponses: multiset<TxResponse>

    // channels used to communicate with the block finder
    var blockRequests: multiset<nat>
    var blockResponses: multiset<BlockResponse>

    var addrIndex: map<string, AddrResponse>
    var txIndex: map<string, TxResponse>
    var blockIndex: map<nat, BlockResponse>
    var height: nat
    var hand: Hand                            // what the goroutine is doing
    var panicked: bool

    constructor (file: File)
      ensures Loaded(file, IndexView()) && height == file.height
      ensures Silent() && hand == Free && !panicked
    {
      addrRequests, addrResponses, txRequests, txResponses := multiset{}, multiset{}, multiset{}, multiset{};
      blockRequests, blockResponses, hand, panicked := multiset{}, multiset{}, Free, false;
      new;
      var chainHeight, index := LoadFromFile(file);
      height, addrIndex, txIndex, blockIndex := chainHeight, index.addrs, index.txs, index.blocks;
    }

    ghost function IndexView(): Index
      reads this
    {
      Index(addrIndex, txIndex, blockIndex)
    }

    ghost function View(): Channels
      reads this
    {
      Channels(Queues(addrRequests, addrResponses, txRequests, txResponses), blockRequests, blockResponses)
    }

    /** Nothing is in any channel. */
    predicate Silent()
      reads this
    {
      && addrRequests == multiset{} && txRequests == multiset{} && blockRequests == multiset{}
      && addrResponses == multiset{} && txResponses == multiset{} && blockResponses == multiset{}
    }

    /** The handling of an address request: an address without an entry has not been used. */
    method ProcessAddrRequest(addr: Address) returns (resp: AddrResponse)
      ensures Replay.Answer(IndexView(), AddrJob(addr)) == Some(AddrDone(resp))
    {
      if addr.addr in addrIndex {
        resp := addrIndex[addr.addr];
      } else {
        resp := AddrResponse(addr, []);
      }
    }

    /** A transaction without an entry gets no response. */
    method ProcessTxRequest(txHash: string) returns (resp: Option<TxResponse>)
      ensures Replay.Answer(IndexView(), TxJob(txHash)) == if resp.Some? then Some(TxDone(resp.value)) else None
    {
      resp := if txHash in txIndex then Some(txIndex[txHash]) else None;
    }

    /** A block without an entry is a panic. */
    method ProcessBlockRequest(block: nat) returns (resp: Option<BlockResponse>)
      ensures Replay.Answer(IndexView(), BlockJob(block)) == if resp.Some? then Some(BlockDone(resp.value)) else None
    {
      resp := if block in blockIndex then Some(blockIndex[block]) else None;
    }

    /** Looks the request in hand up. */
    method Look()
      requires hand.Looking?
      modifies this`hand, this`panicked
      ensures match Replay.Answer(IndexView(), old(hand).job)
        case Some(r) => hand == Sending(r) && panicked == old(panicked)
        case None => if old(hand).job.BlockJob? then panicked && hand == old(hand)
                     else hand == Free && panicked == old(panicked)
    {
      match hand.job {
        case AddrJob(addr) =>
          var resp := ProcessAddrRequest(addr);
          hand := Sending(AddrDone(resp));
        case TxJob(txHash) =>
          var resp := ProcessTxRequest(txHash);
          hand := if resp.Some? then Sending(TxDone(resp.value)) else Free;
        case BlockJob(block) =>
          var resp := ProcessBlockRequest(block);
          if resp.None? {
            panicked := true;
          } else {
            hand := Sending(BlockDone(resp.value));
          }
      }
    }

    predicate Ready()
      reads this
    {
      || addrRequests != multiset{} || txRequests != multiset{} || blockRequests != multiset{}
      || addrResponses != multiset{} || txResponses != multiset{}
    }

    /** The select, when it takes a request of any kind. */
    method TakeRequest() returns (job: Job)
      requires addrRequests != multiset{} || txRequests != multiset{} || blockRequests != multiset{}
      modifies this`addrRequests, this`txRequests, this`blockRequests
      ensures InQueue(old(View()), job) > 0 && View() == Dequeued(old(View()), job)
    {
      if
      case addrRequests != multiset{} =>
        var addr :| addr in addrRequests;
        addrRequests := addrRequests - multiset{addr};
        job := AddrJob(addr);
      case txRequests != multiset{} =>
        var tx :| tx in txRequests;
        txRequests := txRequests - multiset{tx};
        job := TxJob(tx);
      case blockRequests != multiset{} =>
        var block :| block in blockRequests;
        blockRequests := blockRequests - multiset{block};
        job := BlockJob(block);
    }

    /** The select, when it takes one of its own responses back. */
    method TakeBack() returns (r: Response)
      requires addrResponses != multiset{} || txResponses != multiset{}
      modifies this`addrResponses, this`txResponses
      ensures !r.BlockDone? && Waiting(old(View()), r) > 0 && View() == Received(old(View()), r)
    {
      if
      case addrResponses != multiset{} =>
        var addrResp :| addrResp in addrResponses;
        addrResponses := addrResponses - multiset{addrResp};
        r := AddrDone(addrResp);
      case txResponses != multiset{} =>
        var txResp :| txResp in txResponses;
        txResponses := txResponses - multiset{txResp};
        r := TxDone(txResp);
    }

    /** The select. */
    method Select(ghost asked: multiset<Job>, ghost looked: seq<Job>, ghost taken: multiset<Response>)
      requires hand.Free? && Ready() && Replaying(View(), hand, IndexView(), asked, looked, taken)
      modifies this`addrRequests, this`txRequests, this`blockRequests, this`addrResponses, this`txResponses, this`hand
      ensures !hand.Free? && Replaying(View(), hand, IndexView(), asked, looked, taken)
    {
      ghost var ch := View();
      if
      case addrRequests != multiset{} || txRequests != multiset{} || blockRequests != multiset{} =>
        var job := TakeRequest();
        TakeKeeps(ch, IndexView(), asked, looked, taken, job);
        hand := Looking(job);
      case addrResponses != multiset{} || txResponses != multiset{} =>
        var r := TakeBack();
        TakeBackKeeps(ch, IndexView(), asked, looked, taken, r);
        hand := Sending(r);
    }

    method Send()
      requires hand.Sending?
      modifies this`addrResponses, this`txResponses, this`blockResponses, this`hand
      ensures View() == Delivered(old(View()), old(hand).response) && hand == Free
    {
      match hand.response {
        case AddrDone(addrResp) => addrResponses := addrResponses + multiset{addrResp};
        case TxDone(txResp) => txResponses := txResponses + multiset{txResp};
        case BlockDone(block) => blockResponses := blockResponses + multiset{block};
      }
      hand := Free;
    }

    /** AddrRequest, TxRequest and BlockRequest. */
    method Schedule(job: Job)
      modifies this`addrRequests, this`txRequests, this`blockRequests
      ensures View() == Requeued(old(View()), job)
    {
      match job {
        case AddrJob(address) => addrRequests := addrRequests + multiset{address};
        case TxJob(hash) => txRequests := txRequests + multiset{hash};
        case BlockJob(block) => blockRequests := blockRequests + multiset{block};
      }
    }

    /** The accounter or the block finder takes a response. */
    method Deliver() returns (ghost r: Response)
      requires addrResponses != multiset{} || txResponses != multiset{} || blockResponses != multiset{}
      modifies this`addrResponses, this`txResponses, this`blockResponses
      ensures Waiting(old(View()), r) > 0 && View() == Received(old(View()), r)
    {
      if
      case addrResponses != multiset{} =>
        var addrResp :| addrResp in addrResponses;
        addrResponses := addrResponses - multiset{addrResp};
        r := AddrDone(addrResp);
      case txResponses != multiset{} =>
        var txResp :| txResp in txResponses;
        txResponses := txResponses - multiset{txResp};
        r := TxDone(txResp);
      case blockResponses != multiset{} =>
        var block :| block in blockResponses;
        blockResponses := blockResponses - multiset{block};
        r := BlockDone(block);
    }

    /** Clients ask and take responses as they like. */
    method RunClients(job: Job, ghost asked: multiset<Job>, ghost looked: seq<Job>, ghost taken: multiset<Response>)
      returns (ghost asked': multiset<Job>, ghost taken': multiset<Response>)
      requires Replaying(View(), hand, IndexView(), asked, looked, taken)
      modifies this`addrRequests, this`txRequests, this`blockRequests,
               this`addrResponses, this`txResponses, this`blockResponses
      ensures Replaying(View(), hand, IndexView(), asked', looked, taken')
    {
      ghost var ch := View();
      if
      case true =>
        Schedule(job);
        ScheduleKeeps(ch, hand, IndexView(), asked, looked, taken, job);
        asked', taken' := asked + multiset{job}, taken;
      case addrResponses != multiset{} || txResponses != multiset{} || blockResponses != multiset{} =>
        ghost var r := Deliver();
        DeliverKeeps(ch, hand, IndexView(), asked, looked, taken, r);
        asked', taken' := asked, taken + multiset{r};
    }

    /** The handling of a request. */
    method Handle(ghost asked: multiset<Job>, ghost looked: seq<Job>, ghost taken: multiset<Response>)
      returns (ghost looked': seq<Job>)
      requires !panicked && hand.Looking? && Replaying(View(), hand, IndexView(), asked, looked, taken)
      modifies this`hand, this`panicked
      ensures Replaying(View(), hand, IndexView(), asked, looked', taken)
      ensures panicked ==> hand.Looking? && hand.job.BlockJob? && hand.job.height !in blockIndex
    {
      ghost var job := hand.job;
      looked' := looked;
      Look();
      if !panicked {
        LookKeeps(View(), job, hand, IndexView(), asked, looked, taken);
        looked' := looked + [job];
      }
    }

    /** The goroutine's next step. */
    method RunGoroutine(ghost asked: multiset<Job>, ghost looked: seq<Job>, ghost taken: multiset<Response>)
      returns (ghost looked': seq<Job>)
      requires !panicked && (hand.Free? ==> Ready())
      requires Replaying(View(), hand, IndexView(), asked, looked, taken)
      modifies this`addrRequests, this`txRequests, this`blockRequests,
               this`addrResponses, this`txResponses, this`blockResponses, this`hand, this`panicked
      ensures Replaying(View(), hand, IndexView(), asked, looked', taken)
      ensures panicked ==> hand.Looking? && hand.job.BlockJob? && hand.job.height !in blockIndex
    {
      looked' := looked;
      match hand {
        case Free => Select(asked, looked, taken);
        case Looking(_) => looked' := Handle(asked, looked, taken);
        case Sending(r) =>
          SendKeeps(View(), r, IndexView(), asked, looked, taken);
          Send();
      }
    }

    /** The goroutine among such clients, for any time: every request is waiting, in hand, or was looked up
        once; every response that there ever was answers one lookup, and is waiting, in hand, or was taken
        once, however often it was taken back; and the goroutine panics only over a block that the file does
        not have. */
    method ProcessRequests(wanted: nat -> Job)
      returns (ghost asked: multiset<Job>, ghost looked: seq<Job>, ghost taken: multiset<Response>)
      requires Silent() && hand == Free && !panicked
      modifies this`addrRequests, this`txRequests, this`blockRequests,
               this`addrResponses, this`txResponses, this`blockResponses, this`hand, this`panicked
      ensures Replaying(View(), hand, IndexView(), asked, looked, taken)
      ensures panicked ==> hand.Looking? && hand.job.BlockJob? && hand.job.height !in blockIndex
    {
      var rounds: nat := *;
      asked, looked, taken := multiset{}, [], multiset{};
      while rounds > 0 && !panicked
        invariant Replaying(View(), hand, IndexView(), asked, looked, taken)
        invariant panicked ==> hand.Looking? && hand.job.BlockJob? && hand.job.height !in blockIndex
      {
        rounds := rounds - 1;
        if
        case true =>
          asked, taken := RunClients(wanted(rounds), asked, looked, taken);
        case !hand.Free? || Ready() =>
          looked := RunGoroutine(asked, looked, taken);
      }
    }
  }

  /** The responses to requests that were looked up. */
  function Given(index: Index, looked: seq<Job>): multiset<Response> {
    if looked == [] then multiset{} else
      var n := |looked| - 1;
      match Replay.Answer(index, looked[n])
      case Some(r) => Given(index, looked[..n]) + multiset{r}
      case None => Given(index, looked[..n])
  }

  ghost predicate Replaying(ch: Channels, hand: Hand, index: Index,
                            asked: multiset<Job>, looked: seq<Job>, taken: multiset<Response>)
  {
    && (forall job ::
          InQueue(ch, job) + (if hand == Looking(job) then 1 else 0) + multiset(looked)[job] == asked[job])
    && (forall r ::
          Waiting(ch, r) + (if hand == Sending(r) then 1 else 0) + taken[r] == Given(index, looked)[r])
  }

  lemma ScheduleKeeps(ch: Channels, hand: Hand, index: Index,
                      asked: multiset<Job>, looked: seq<Job>, taken: multiset<Response>, job: Job)
    requires Replaying(ch, hand, index, asked, looked, taken)
    ensures Replaying(Requeued(ch, job), hand, index, asked + multiset{job}, looked, taken)
  {
    forall other
      ensures InQueue(Requeued(ch, job), other) + (if hand == Looking(other) then 1 else 0) + multiset(looked)[other]
           == (asked + multiset{job})[other]
    {
      RequeueReturns(ch, job, other);
    }
    forall r ensures Waiting(Requeued(ch, job), r) == Waiting(ch, r) {
      RequestsLeaveResponses(ch, job, r);
    }
  }

  lemma DeliverKeeps(ch: Channels, hand: Hand, index: Index,
                     asked: multiset<Job>, looked: seq<Job>, taken: multiset<Response>, r: Response)
    requires Replaying(ch, hand, index, asked, looked, taken) && Waiting(ch, r) > 0
    ensures Replaying(Received(ch, r), hand, index, asked, looked, taken + multiset{r})
  {
    forall other
      ensures Waiting(Received(ch, r), other) + (if hand == Sending(other) then 1 else 0) + (taken + multiset{r})[other]
           == Given(index, looked)[other]
    {
      ReceivedTakes(ch, r, other);
    }
    forall job ensures InQueue(Received(ch, r), job) == InQueue(ch, job) {
      ResponsesLeaveRequests(ch, r, job);
    }
  }

  lemma TakeKeeps(ch: Channels, index: Index,
                  asked: multiset<Job>, looked: seq<Job>, taken: multiset<Response>, job: Job)
    requires Replaying(ch, Free, index, asked, looked, taken) && InQueue(ch, job) > 0
    ensures Replaying(Dequeued(ch, job), Looking(job), index, asked, looked, taken)
  {
    forall other ensures InQueue(Dequeued(ch, job), other) + (if other == job then 1 else 0) == InQueue(ch, other) {
      DequeueTakes(ch, job, other);
    }
    forall r ensures Waiting(Dequeued(ch, job), r) == Waiting(ch, r) {
      RequestsLeaveResponses(ch, job, r);
    }
  }

  lemma TakeBackKeeps(ch: Channels, index: Index,
                      asked: multiset<Job>, looked: seq<Job>, taken: multiset<Response>, r: Response)
    requires Replaying(ch, Free, index, asked, looked, taken) && Waiting(ch, r) > 0
    ensures Replaying(Received(ch, r), Sending(r), index, asked, looked, taken)
  {
    forall other ensures Waiting(Received(ch, r), other) + (if other == r then 1 else 0) == Waiting(ch, other) {
      ReceivedTakes(ch, r, other);
    }
    forall job ensures InQueue(Received(ch, r), job) == InQueue(ch, job) {
      ResponsesLeaveRequests(ch, r, job);
    }
  }

  lemma LookKeeps(ch: Channels, job: Job, hand: Hand, index: Index,
                  asked: multiset<Job>, looked: seq<Job>, taken: multiset<Response>)
    requires Replaying(ch, Looking(job), index, asked, looked, taken)
    requires match Replay.Answer(index, job)
      case Some(r) => hand == Sending(r)
      case None => hand == Free
    ensures Replaying(ch, hand, index, asked, looked + [job], taken)
  {
    assert (looked + [job])[..|looked|] == looked;
  }

  lemma SendKeeps(ch: Channels, r: Response, index: Index,
                  asked: multiset<Job>, looked: seq<Job>, taken: multiset<Response>)
    requires Replaying(ch, Sending(r), index, asked, looked, taken)
    ensures Replaying(Delivered(ch, r), Free, index, asked, looked, taken)
  {
    forall other ensures Waiting(Delivered(ch, r), other) == Waiting(ch, other) + (if other == r then 1 else 0) {
      DeliveredAdds(ch, r, other);
    }
    forall job ensures InQueue(Delivered(ch, r), job) == InQueue(ch, job) {
      ResponsesLeaveRequests(ch, r, job);
    }
  }

  /** A fixture loaded from a recorder's file answers every request with the response that the recorder passed
      on, exactly when the backend behind the recorder was steady. */
  lemma AnswersWhatWasPassedOn(passed: seq<Response>, file: File, height: nat, index: Index)
    requires Holds(file, height, RecorderBackend.RecordingOf(passed)) && Loaded(file, index)
    ensures (forall r :: r in passed ==> Replay.Answer(index, JobFor(r)) == Some(r)) <==> RecorderBackend.Steady(passed)
  {
    RecorderBackend.RecordingIsKeyed(passed);
    WriteThenLoad(file, height, RecorderBackend.RecordingOf(passed), index);
    RecorderBackend.RecordsAll(passed);
    forall r | r in passed
      ensures Replay.Answer(index, JobFor(r)) == Some(r) <==> RecorderRuns.Recorded(index, r)
    {
      RecorderBackend.RecordsLatest(passed, r);
    }
  }
}
