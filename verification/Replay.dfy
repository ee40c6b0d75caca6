/** The fixture replays a recording: one goroutine that answers from the loaded maps, and that may
    also take a response back out of its own channel and put it in again. */
module Replay {
  import opened Basics
  import opened Deriver
  import opened Wallet
  import opened Fetching
  import opened FetchingSafety
  import opened FetchingResults
  import opened Ledger
  import opened Workers
  import opened Recorder
  import RecorderRuns

  /** The world as a fixture presents it: an address without an entry was never used. */
  function FixtureWorld(w: World, index: Index): World {
    w.(history := (x: Address) => if x.addr in index.addrs then index.addrs[x.addr].txHashes else [],
       tx := (h: string) => if h in index.txs then RawTx(index.txs[h].height, index.txs[h].hex) else RawTx(0, ""))
  }

  /** An address of the wallet has an entry only if it was asked for in the recorded run, and then the
      entry is its own. */
  lemma EntryIsOwn(w: World, limits: Pair, index: Index, c: nat, i: nat)
    requires c < 2 && RecorderRuns.Unambiguous(w) && RecorderRuns.CompleteIndex(w, limits, index)
    requires w.Addr(c, i).addr in index.addrs
    ensures w.Addr(c, i) in Asked(w, limits) && index.addrs[w.Addr(c, i).addr] == AddrAnswer(w, w.Addr(c, i))
  {
    var r := index.addrs[w.Addr(c, i).addr];
    var c': nat, i': nat :| c' < 2 && i' < limits[c'] && r.address == w.Addr(c', i');
  }

  lemma SameAsked(w: World, index: Index, n: Pair)
    ensures Asked(FixtureWorld(w, index), n) == Asked(w, n)
    ensures Scripts(FixtureWorld(w, index), Asked(w, n)) == Scripts(w, Asked(w, n))
  {
    var v := FixtureWorld(w, index);
    forall x ensures x in Asked(v, n) <==> x in Asked(w, n) {
      forall c: nat, i: nat | c < 2 ensures v.Addr(c, i) == w.Addr(c, i) {}
      if Requested(v, n, x) {
        var c: nat, i: nat :| c < 2 && i < n[c] && x == v.Addr(c, i);
        assert x == w.Addr(c, i);
      }
      if Requested(w, n, x) {
        var c: nat, i: nat :| c < 2 && i < n[c] && x == w.Addr(c, i);
        assert x == v.Addr(c, i);
      }
    }
  }

  /** Below the recorded limits the fixture knows every history; beyond them no more than the truth. */
  lemma SameHistory(w: World, limits: Pair, index: Index, c: nat, i: nat)
    requires c < 2 && RecorderRuns.Unambiguous(w) && RecorderRuns.CompleteIndex(w, limits, index)
    ensures var v := FixtureWorld(w, index);
      && v.Addr(c, i) == w.Addr(c, i)
      && (i < limits[c] ==> v.history(v.Addr(c, i)) == w.history(w.Addr(c, i)))
      && (v.Used(c, i) ==> v.history(v.Addr(c, i)) == w.history(w.Addr(c, i)))
  {
    var x := w.Addr(c, i);
    if i < limits[c] {
      assert Requested(w, limits, x);
      assert x in Asked(w, limits);
    }
    if x.addr in index.addrs {
      EntryIsOwn(w, limits, index, c, i);
    }
  }

  lemma StillClosed(w: World, limits: Pair, index: Index, v: World)
    requires RecorderRuns.Unambiguous(w) && RecorderRuns.CompleteIndex(w, limits, index) && w.Closed(limits)
    requires v == FixtureWorld(w, index)
    ensures v.Closed(limits)
  {
    forall c: nat, i: nat | c < 2 && i < limits[c] && v.Used(c, i) ensures v.Within(limits, c, i) {
      SameHistory(w, limits, index, c, i);
      assert w.Used(c, i);
      assert w.Within(limits, c, i);
    }
  }

  /** What is closed for the fixture is closed for the wallet below the recorded limits. */
  lemma ClosedBelow(w: World, limits: Pair, index: Index, v: World, m: Pair, least: Pair)
    requires RecorderRuns.Unambiguous(w) && RecorderRuns.CompleteIndex(w, limits, index) && w.Closed(limits)
    requires v == FixtureWorld(w, index) && v.Closed(m) && least == [Min(m[0], limits[0]), Min(m[1], limits[1])]
    ensures w.Closed(least)
  {
    forall c: nat, i: nat | c < 2 && i < least[c] && w.Used(c, i) ensures w.Within(least, c, i) {
      SameHistory(w, limits, index, c, i);
      assert v.Used(c, i);
      assert v.Within(m, c, i) && w.Within(limits, c, i);
    }
  }

  /** The recorded limits are the least closed ones for the fixture too. */
  lemma SameLimits(w: World, limits: Pair, index: Index)
    requires RecorderRuns.Unambiguous(w) && RecorderRuns.CompleteIndex(w, limits, index) && w.LeastClosed(limits)
    ensures FixtureWorld(w, index).LeastClosed(limits)
  {
    var v := FixtureWorld(w, index);
    StillClosed(w, limits, index, v);
    forall m: Pair | v.Closed(m) ensures limits[0] <= m[0] && limits[1] <= m[1] {
      ClosedBelow(w, limits, index, v, m, [Min(m[0], limits[0]), Min(m[1], limits[1])]);
    }
  }

  lemma {:induction false} SameHistorySum(w: World, limits: Pair, index: Index, c: nat, n: nat)
    requires c < 2 && n <= limits[c]
    requires RecorderRuns.Unambiguous(w) && RecorderRuns.CompleteIndex(w, limits, index)
    ensures FixtureWorld(w, index).HistorySum(c, n) == w.HistorySum(c, n)
    decreases n
  {
    if n > 0 {
      SameHistorySum(w, limits, index, c, n - 1);
      SameHistory(w, limits, index, c, n - 1);
    }
  }

  lemma SameBound(w: World, top: Pair, limits: Pair, index: Index)
    requires RecorderRuns.Unambiguous(w) && RecorderRuns.CompleteIndex(w, limits, index)
    requires w.LeastClosed(limits) && w.Bounded(top)
    ensures FixtureWorld(w, index).Bounded(limits)
  {
    SameLimits(w, limits, index);
    SameHistorySum(w, limits, index, 0, limits[0]);
    SameHistorySum(w, limits, index, 1, limits[1]);
    w.HistorySumMonotone(0, limits[0], top[0]);
    w.HistorySumMonotone(1, limits[1], top[1]);
  }

  lemma SameRevealed(w: World, limits: Pair, index: Index)
    requires RecorderRuns.CompleteIndex(w, limits, index)
    ensures var v, asked := FixtureWorld(w, index), Asked(w, limits);
      && Revealed(v, asked) == Revealed(w, asked)
      && (forall h :: h in Revealed(w, asked) ==> v.tx(h) == w.tx(h))
  {
    var v, asked := FixtureWorld(w, index), Asked(w, limits);
    forall x | x in asked ensures v.history(x) == w.history(x) {}
    SameHashes(v, w, asked);
    forall h | h in Revealed(w, asked) ensures v.tx(h) == w.tx(h) {
      assert index.txs[h] == TxAnswer(w, h);
    }
  }

  lemma SameHashes(v: World, w: World, asked: iset<Address>)
    requires forall x :: x in asked ==> v.history(x) == w.history(x)
    ensures Revealed(v, asked) == Revealed(w, asked)
  {
  }

  // ----- The fixture's goroutine -----

  datatype Hand = Free | Looking(job: Job) | Sending(response: Response)

  /** `panicked`: a block was asked for that the recording does not have. */
  datatype Sys = Sys(core: Core, channels: Channels, hand: Hand, panicked: bool)

  datatype FixAction = Take(job: Job) | TakeBack(response: Response) | Proceed

  function Start(w: World): Sys { Sys(InitCore(w), EMPTY, Free, false) }

  function Answer(index: Index, job: Job): Option<Response> {
    match job
    case AddrJob(x) => Some(AddrDone(if x.addr in index.addrs then index.addrs[x.addr] else AddrResponse(x, [])))
    case TxJob(h) => if h in index.txs then Some(TxDone(index.txs[h])) else None
    case BlockJob(k) => if k in index.blocks then Some(BlockDone(index.blocks[k])) else None
  }

  predicate StepEnabled(s: Sys, a: Step<FixAction>) {
    !s.panicked &&
    match a
    case ByCore(b) => CoreEnabled(s.core, b) && CanTake(s.channels.queues, b)
    case ByWorker(Take(job)) => s.hand.Free? && InQueue(s.channels, job) > 0
    case ByWorker(TakeBack(r)) => s.hand.Free? && !r.BlockDone? && Waiting(s.channels, r) > 0
    case ByWorker(Proceed) => !s.hand.Free?
    case AskBlock(_) => true
    case GetBlock(r) => r in s.channels.blockResponses
  }

  /** A transaction that the recording does not have is never answered. */
  function Looked(s: Sys, job: Job, answer: Option<Response>): Sys {
    match answer
    case Some(r) => s.(hand := Sending(r))
    case None => if job.BlockJob? then s.(panicked := true) else s.(hand := Free)
  }

  function StepApply(w: World, index: Index, s: Sys, a: Step<FixAction>): Sys
    requires StepEnabled(s, a)
  {
    match a
    case ByWorker(Take(job)) => s.(channels := Dequeued(s.channels, job), hand := Looking(job))
    case ByWorker(TakeBack(r)) => s.(channels := Received(s.channels, r), hand := Sending(r))
    case ByWorker(Proceed) =>
      if s.hand.Looking? then Looked(s, s.hand.job, Answer(index, s.hand.job))
      else s.(channels := Delivered(s.channels, s.hand.response), hand := Free)
    case _ => s.(core := CoreAfter(w, s.core, a), channels := Outside(w, s.core, s.channels, a))
  }

  predicate RunOf(w: World, index: Index, s: Sys, run: seq<Step<FixAction>>)
    decreases |run|
  {
    run == [] || (StepEnabled(s, run[0]) && RunOf(w, index, StepApply(w, index, s, run[0]), run[1..]))
  }

  function EndOf(w: World, index: Index, s: Sys, run: seq<Step<FixAction>>): Sys
    requires RunOf(w, index, s, run)
    decreases |run|
  {
    if run == [] then s else EndOf(w, index, StepApply(w, index, s, run[0]), run[1..])
  }

  function LookedUpAddrs(h: Hand): multiset<Address> {
    if h.Looking? && h.job.AddrJob? then multiset{h.job.address} else multiset{}
  }

  function LookedUpTxs(h: Hand): multiset<string> {
    if h.Looking? && h.job.TxJob? then multiset{h.job.hash} else multiset{}
  }

  function SendingAddrs(h: Hand): multiset<AddrResponse> { if h.Sending? then AddrsIn(h.response) else multiset{} }

  function SendingTxs(h: Hand): multiset<TxResponse> { if h.Sending? then TxsIn(h.response) else multiset{} }

  /** Whatever is in the goroutine's hand is still under way. */
  function Abs(s: Sys): State {
    var q := s.channels.queues;
    State(s.core, Queues(q.addrRequests + LookedUpAddrs(s.hand), q.addrResponses + SendingAddrs(s.hand),
                         q.txRequests + LookedUpTxs(s.hand), q.txResponses + SendingTxs(s.hand)))
  }

  function Shadow(s: Sys, a: Step<FixAction>): seq<Action> {
    match a
    case ByCore(b) => [CoreStep(b)]
    case ByWorker(Proceed) =>
      (match s.hand
       case Looking(AddrJob(x)) => [AnswerAddr(x)]
       case Looking(TxJob(h)) => [AnswerTx(h)]
       case _ => [])
    case _ => []
  }

  lemma PutBack<T>(a: multiset<T>, x: multiset<T>)
    requires x <= a
    ensures a - x + x == a + multiset{}
  {
  }

  lemma DequeuedQueues(ch: Channels, job: Job)
    requires InQueue(ch, job) > 0
    ensures LookedUpAddrs(Looking(job)) <= ch.queues.addrRequests && LookedUpTxs(Looking(job)) <= ch.queues.txRequests
    ensures Dequeued(ch, job).queues
         == ch.queues.(addrRequests := ch.queues.addrRequests - LookedUpAddrs(Looking(job)),
                       txRequests := ch.queues.txRequests - LookedUpTxs(Looking(job)))
  {
    var q := ch.queues;
    match job
    case AddrJob(_) => assert q.txRequests - multiset{} == q.txRequests;
    case TxJob(_) => assert q.addrRequests - multiset{} == q.addrRequests;
    case BlockJob(_) =>
      assert q.txRequests - multiset{} == q.txRequests;
      assert q.addrRequests - multiset{} == q.addrRequests;
  }

  /** Taking a request up, and taking a response back or putting it in again, change nothing. */
  lemma TakeRefines(s: Sys, job: Job, t: Sys)
    requires s.hand.Free? && InQueue(s.channels, job) > 0
    requires t == s.(channels := Dequeued(s.channels, job), hand := Looking(job))
    ensures Abs(t) == Abs(s)
  {
    DequeuedQueues(s.channels, job);
    PutBack(s.channels.queues.addrRequests, LookedUpAddrs(t.hand));
    PutBack(s.channels.queues.txRequests, LookedUpTxs(t.hand));
  }

  lemma TakeBackRefines(s: Sys, r: Response, t: Sys)
    requires s.hand.Free? && Waiting(s.channels, r) > 0
    requires t == s.(channels := Received(s.channels, r), hand := Sending(r))
    ensures Abs(t) == Abs(s)
  {
    RecorderRuns.ReceivedQueues(s.channels, r);
    PutBack(s.channels.queues.addrResponses, AddrsIn(r));
    PutBack(s.channels.queues.txResponses, TxsIn(r));
  }

  lemma SendRefines(s: Sys)
    requires s.hand.Sending?
    ensures Abs(s.(channels := Delivered(s.channels, s.hand.response), hand := Free)) == Abs(s)
  {
    RecorderRuns.DeliveredQueues(s.channels, s.hand.response);
  }

  /** Posting a response again after taking it back leaves the channels as they were. */
  lemma RepostIsNoOp(ch: Channels, r: Response)
    requires Waiting(ch, r) > 0
    ensures Delivered(Received(ch, r), r) == ch
  {
    match r
    case AddrDone(a) => assert ch.queues.addrResponses - multiset{a} + multiset{a} == ch.queues.addrResponses;
    case TxDone(t) => assert ch.queues.txResponses - multiset{t} + multiset{t} == ch.queues.txResponses;
    case BlockDone(b) => assert ch.blockResponses - multiset{b} + multiset{b} == ch.blockResponses;
  }

  /** Looking an address of the wallet up gives the fixture world's answer. */
  lemma AddrLookup(w: World, limits: Pair, index: Index, n: Pair, x: Address)
    requires RecorderRuns.Unambiguous(w) && RecorderRuns.CompleteIndex(w, limits, index)
    requires x in Asked(FixtureWorld(w, index), n)
    ensures Answer(index, AddrJob(x)) == Some(AddrDone(AddrAnswer(FixtureWorld(w, index), x)))
  {
    var v := FixtureWorld(w, index);
    var c: nat, i: nat :| c < 2 && i < n[c] && x == v.Addr(c, i);
    if x.addr in index.addrs {
      EntryIsOwn(w, limits, index, c, i);
    }
  }

  /** A transaction from one of the fixture's histories is in the recording. */
  lemma TxLookup(w: World, limits: Pair, index: Index, n: Pair, h: string)
    requires RecorderRuns.Unambiguous(w) && RecorderRuns.CompleteIndex(w, limits, index)
    requires h in Revealed(FixtureWorld(w, index), Asked(FixtureWorld(w, index), n))
    ensures Answer(index, TxJob(h)) == Some(TxDone(TxAnswer(FixtureWorld(w, index), h)))
  {
    var v := FixtureWorld(w, index);
    var x :| x in Asked(v, n) && h in v.history(x);
    var c: nat, i: nat :| c < 2 && i < n[c] && x == v.Addr(c, i);
    assert v.Addr(c, i) == w.Addr(c, i);
    HistoryIsRecorded(w, limits, index, c, i, h);
  }

  lemma HistoryIsRecorded(w: World, limits: Pair, index: Index, c: nat, i: nat, h: string)
    requires c < 2 && RecorderRuns.Unambiguous(w) && RecorderRuns.CompleteIndex(w, limits, index)
    requires h in FixtureWorld(w, index).history(w.Addr(c, i))
    ensures h in index.txs && index.txs[h].hash == h
  {
    EntryIsOwn(w, limits, index, c, i);
    var x := w.Addr(c, i);
    assert x in Asked(w, limits) && h in w.history(x);
    assert h in Revealed(w, Asked(w, limits));
  }

  lemma Moves<T, U>(requests: multiset<T>, x: T, responses: multiset<U>, r: U)
    ensures requests + multiset{x} - multiset{x} == requests + multiset{}
    ensures responses + multiset{} + multiset{r} == responses + multiset{r}
  {
  }

  lemma AddrLooked(v: World, s: Sys, x: Address, t: Sys)
    requires s.hand == Looking(AddrJob(x)) && t == s.(hand := Sending(AddrDone(AddrAnswer(v, x))))
    ensures Leads(v, Abs(s), [AnswerAddr(x)], Abs(t))
  {
    Moves(s.channels.queues.addrRequests, x, s.channels.queues.addrResponses, AddrAnswer(v, x));
    OneStep(v, Abs(s), AnswerAddr(x), Abs(t));
  }

  lemma TxLooked(v: World, s: Sys, h: string, t: Sys)
    requires s.hand == Looking(TxJob(h)) && t == s.(hand := Sending(TxDone(TxAnswer(v, h))))
    ensures Leads(v, Abs(s), [AnswerTx(h)], Abs(t))
  {
    Moves(s.channels.queues.txRequests, h, s.channels.queues.txResponses, TxAnswer(v, h));
    OneStep(v, Abs(s), AnswerTx(h), Abs(t));
  }

  /** The goroutine's own step, given that what it looks up is what the fixture's world answers. */
  lemma ProceedRefines(v: World, index: Index, s: Sys, t: Sys)
    requires StepEnabled(s, ByWorker(Proceed)) && t == StepApply(v, index, s, ByWorker(Proceed))
    requires s.hand.Looking? && s.hand.job.AddrJob? ==>
      Answer(index, s.hand.job) == Some(AddrDone(AddrAnswer(v, s.hand.job.address)))
    requires s.hand.Looking? && s.hand.job.TxJob? ==>
      Answer(index, s.hand.job) == Some(TxDone(TxAnswer(v, s.hand.job.hash)))
    ensures Leads(v, Abs(s), Shadow(s, ByWorker(Proceed)), Abs(t))
  {
    match s.hand
    case Looking(AddrJob(x)) => AddrLooked(v, s, x, t);
    case Looking(TxJob(h)) => TxLooked(v, s, h, t);
    case Looking(BlockJob(_)) =>
    case Sending(_) => SendRefines(s);
  }

  lemma TakenOut<T>(a: multiset<T>, r: T, held: multiset<T>)
    requires r in a
    ensures a - multiset{r} + held == a + held - multiset{r}
  {
  }

  lemma TakeCommutes(q: Queues, h: Hand, b: CoreAction)
    requires CanTake(q, b)
    ensures b.OnAddr? && b.onAddr.TakeAddr? ==>
      var r := multiset{b.onAddr.addr};
      q.addrResponses - r + SendingAddrs(h) == q.addrResponses + SendingAddrs(h) - r
    ensures b.OnTx? && b.onTx.TakeTx? ==>
      var r := multiset{b.onTx.tx};
      q.txResponses - r + SendingTxs(h) == q.txResponses + SendingTxs(h) - r
  {
    match b
    case OnAddr(TakeAddr(r)) => TakenOut(q.addrResponses, r, SendingAddrs(h));
    case OnTx(TakeTx(r)) => TakenOut(q.txResponses, r, SendingTxs(h));
    case _ =>
  }

  lemma OutsideRefines(v: World, index: Index, s: Sys, b: CoreAction, t: Sys)
    requires StepEnabled(s, ByCore(b)) && t == StepApply(v, index, s, ByCore(b))
    ensures Enabled(Abs(s), CoreStep(b)) && Apply(v, Abs(s), CoreStep(b)) == Abs(t)
  {
    ExchangeCommutes(v, s.core, s.channels.queues, LookedUpAddrs(s.hand), LookedUpTxs(s.hand), b);
    TakeCommutes(s.channels.queues, s.hand, b);
  }

  lemma StepRefines(v: World, index: Index, s: Sys, a: Step<FixAction>, t: Sys)
    requires StepEnabled(s, a) && t == StepApply(v, index, s, a)
    requires s.hand.Looking? && s.hand.job.AddrJob? ==>
      Answer(index, s.hand.job) == Some(AddrDone(AddrAnswer(v, s.hand.job.address)))
    requires s.hand.Looking? && s.hand.job.TxJob? ==>
      Answer(index, s.hand.job) == Some(TxDone(TxAnswer(v, s.hand.job.hash)))
    ensures Leads(v, Abs(s), Shadow(s, a), Abs(t))
  {
    match a
    case ByCore(b) =>
      OutsideRefines(v, index, s, b, t);
      OneStep(v, Abs(s), CoreStep(b), Abs(t));
    case ByWorker(Take(job)) => TakeRefines(s, job, t);
    case ByWorker(TakeBack(r)) => TakeBackRefines(s, r, t);
    case ByWorker(Proceed) => ProceedRefines(v, index, s, t);
    case _ =>
  }

  /** Whatever the goroutine looks up for the accounter is recorded: no request is dropped. */
  lemma LookupsHit(w: World, limits: Pair, index: Index, s: Sys)
    requires RecorderRuns.Unambiguous(w) && RecorderRuns.CompleteIndex(w, limits, index)
    requires HonestInv(FixtureWorld(w, index), Abs(s)) && s.hand.Looking?
    ensures s.hand.job.AddrJob? ==>
      Answer(index, s.hand.job) == Some(AddrDone(AddrAnswer(FixtureWorld(w, index), s.hand.job.address)))
    ensures s.hand.job.TxJob? ==>
      Answer(index, s.hand.job) == Some(TxDone(TxAnswer(FixtureWorld(w, index), s.hand.job.hash)))
  {
    match s.hand.job
    case AddrJob(x) =>
      assert x in Abs(s).queues.addrRequests;
      AddrLookup(w, limits, index, SentPair(s.core), x);
    case TxJob(h) =>
      assert h in Abs(s).queues.txRequests;
      TxLookup(w, limits, index, SentPair(s.core), h);
    case BlockJob(_) =>
  }

  /** The recording of a settled run, and the world that a fixture makes of it. */
  ghost predicate Recording(w: World, limits: Pair, index: Index, v: World) {
    && RecorderRuns.Unambiguous(w) && RecorderRuns.CompleteIndex(w, limits, index)
    && v == FixtureWorld(w, index) && v.Bounded(limits)
  }

  lemma StepReplays(w: World, limits: Pair, index: Index, v: World, s: Sys, a: Step<FixAction>, t: Sys)
    requires Recording(w, limits, index, v) && RunInv(v, limits, Abs(s))
    requires StepEnabled(s, a) && t == StepApply(v, index, s, a)
    ensures Leads(v, Abs(s), Shadow(s, a), Abs(t)) && RunInv(v, limits, Abs(t))
  {
    if s.hand.Looking? {
      LookupsHit(w, limits, index, s);
    }
    StepRefines(v, index, s, a, t);
    RunKeepsInv(v, limits, Abs(s), Shadow(s, a));
  }

  lemma {:induction false} RunReplays(w: World, limits: Pair, index: Index, v: World, s: Sys, run: seq<Step<FixAction>>)
    requires Recording(w, limits, index, v) && RunInv(v, limits, Abs(s)) && RunOf(v, index, s, run)
    ensures RunInv(v, limits, Abs(EndOf(v, index, s, run)))
    decreases |run|
  {
    if run != [] {
      var t := StepApply(v, index, s, run[0]);
      StepReplays(w, limits, index, v, s, run[0], t);
      RunReplays(w, limits, index, v, t, run[1..]);
    }
  }

  lemma StartReplays(w: World, limits: Pair, index: Index, v: World)
    requires Recording(w, limits, index, v)
    ensures RunInv(v, limits, Abs(Start(w)))
  {
    assert Abs(Start(w)) == Init(v);
    InitInv(v, limits);
  }

  /** Two runs have fetched the same: limits, scripts, transactions, and the path and history of each
      script if no two addresses share one. */
  ghost predicate SameResult(w: World, a: Core, b: Core) {
    && b.lastAddresses == a.lastAddresses
    && b.addresses.Keys == a.addresses.Keys
    && b.transactions == a.transactions
    && (OneAddressPerScript(w, Asked(w, a.lastAddresses)) ==> b.addresses == a.addresses)
  }

  /** What a recording leaves behind. */
  ghost predicate RecordedBy(w: World, s: RecorderRuns.Sys) {
    && Keyed(s.index) && RecorderRuns.CompleteIndex(w, s.core.lastAddresses, s.index)
    && Settled(w, RecorderRuns.Abs(s))
  }

  lemma LoadedIsRecording(w: World, top: Pair, s: RecorderRuns.Sys, file: File, height: nat, index: Index)
    requires w.Bounded(top) && RecorderRuns.Unambiguous(w) && RecordedBy(w, s)
    requires Holds(file, height, s.index) && Loaded(file, index)
    ensures index == s.index && Recording(w, s.core.lastAddresses, index, FixtureWorld(w, index))
  {
    WriteThenLoad(file, height, s.index, index);
    SameBound(w, top, s.core.lastAddresses, index);
  }

  /** A recorded run and a run of the fixture loaded from its file, with the same deriver and
      lookahead and each under any schedule, end with the same result. */
  lemma ReplayIsFaithful(w: World, times: nat -> int, top: Pair, recording: seq<Step<RecorderRuns.RecAction>>,
                         file: File, height: nat, index: Index, run: seq<Step<FixAction>>)
    requires w.Bounded(top) && RecorderRuns.Unambiguous(w)
    requires RecorderRuns.RunOf(w, times, RecorderRuns.Start(w), recording)
    requires var s := RecorderRuns.EndOf(w, times, RecorderRuns.Start(w), recording);
      s.core.receiver.Returned? && Holds(file, height, s.index) && Loaded(file, index)
    requires RunOf(FixtureWorld(w, index), index, Start(w), run)
    requires EndOf(FixtureWorld(w, index), index, Start(w), run).core.receiver.Returned?
    ensures SameResult(w, RecorderRuns.EndOf(w, times, RecorderRuns.Start(w), recording).core,
                       EndOf(FixtureWorld(w, index), index, Start(w), run).core)
  {
    var s := RecorderRuns.EndOf(w, times, RecorderRuns.Start(w), recording);
    RecorderRuns.RecordingIsComplete(w, times, top, recording);
    LoadedIsRecording(w, top, s, file, height, index);
    var v, limits := FixtureWorld(w, index), s.core.lastAddresses;
    StartReplays(w, limits, index, v);
    RunReplays(w, limits, index, v, Start(w), run);
    SameOutcome(w, limits, index, v, s.core, EndOf(v, index, Start(w), run).core);
  }

  lemma SameOutcome(w: World, limits: Pair, index: Index, v: World, a: Core, b: Core)
    requires Recording(w, limits, index, v)
    requires w.LeastClosed(limits) && a.lastAddresses == limits && Fetched(w, limits, a)
    requires v.LeastClosed(b.lastAddresses) && Fetched(v, b.lastAddresses, b)
    ensures SameResult(w, a, b)
  {
    SameLimits(w, limits, index);
    v.LeastUnique(limits, b.lastAddresses);
    FetchedForReal(w, limits, index, v, b);
    SameFetched(w, a, b);
  }

  /** What was fetched from the fixture is what the world has. */
  lemma FetchedForReal(w: World, limits: Pair, index: Index, v: World, b: Core)
    requires Recording(w, limits, index, v) && Fetched(v, limits, b)
    ensures Fetched(w, limits, b)
  {
    SameAsked(w, index, limits);
    SameRevealed(w, limits, index);
    var asked := Asked(w, limits);
    forall x | x in b.addresses ensures HonestEntry(w, asked, x, b.addresses[x]) {
      assert HonestEntry(v, asked, x, b.addresses[x]);
    }
  }

  /** So the two balances are the same: either both runs return the same amount or both panic. */
  lemma SameBalance(parse: Parser, blockHeight: nat, a: Core, b: Core, r: Outcome, r': Outcome)
    requires a.addresses.Keys == b.addresses.Keys && a.transactions == b.transactions
    requires Settles(BookOf(parse, a.addresses.Keys, blockHeight, a.transactions), r)
    requires Settles(BookOf(parse, b.addresses.Keys, blockHeight, b.transactions), r')
    ensures r.Balance? || r'.Balance? ==> r == r'
  {
    OrderIrrelevant(BookOf(parse, a.addresses.Keys, blockHeight, a.transactions), r, r');
  }
}
