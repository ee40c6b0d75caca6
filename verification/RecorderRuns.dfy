/** The recorder between the accounter and another backend: one goroutine that takes a response,
    stores it, and only then passes it on. */
module RecorderRuns {
  import opened Basics
  import opened Deriver
  import opened Wallet
  import opened Fetching
  import opened FetchingSafety
  import opened FetchingResults
  import opened FetchingSteps
  import opened Workers
  import opened Recorder

  /** What the goroutine is doing. */
  datatype Hand = Empty | Picked(response: Response) | Noted(response: Response)

  /** `inner` are the channels of the backend behind it, `outer` the recorder's own responses. */
  datatype Sys = Sys(core: Core, inner: Channels, hand: Hand, outer: Channels, index: Index)

  datatype RecAction =
    | Reply(job: Job)            // the backend behind answers a request
    | Pick(response: Response)   // the goroutine takes a response
    | Note                       // and stores it
    | Forward                    // and passes it on

  const NOTHING_YET: Index := Index(map[], map[], map[])

  function Start(w: World): Sys { Sys(InitCore(w), EMPTY, Empty, EMPTY, NOTHING_YET) }

  function TrueResponse(w: World, times: nat -> int, job: Job): Response {
    match job
    case AddrJob(x) => AddrDone(AddrAnswer(w, x))
    case TxJob(h) => TxDone(TxAnswer(w, h))
    case BlockJob(k) => BlockDone(BlockResponse(k, times(k)))
  }

  function Stored(index: Index, r: Response): Index {
    match r
    case AddrDone(a) => index.(addrs := index.addrs[a.address.addr := a])
    case TxDone(t) => index.(txs := index.txs[t.hash := t])
    case BlockDone(b) => index.(blocks := index.blocks[b.height := b])
  }

  /** The accounter's side: requests go straight to the backend behind, responses come from the recorder. */
  function Facing(s: Sys): Queues {
    s.inner.queues.(addrResponses := s.outer.queues.addrResponses, txResponses := s.outer.queues.txResponses)
  }

  predicate StepEnabled(s: Sys, a: Step<RecAction>) {
    match a
    case ByCore(b) => CoreEnabled(s.core, b) && CanTake(Facing(s), b)
    case ByWorker(Reply(job)) => InQueue(s.inner, job) > 0
    case ByWorker(Pick(r)) => s.hand.Empty? && Waiting(s.inner, r) > 0
    case ByWorker(Note) => s.hand.Picked?
    case ByWorker(Forward) => s.hand.Noted?
    case AskBlock(_) => true
    case GetBlock(r) => r in s.outer.blockResponses
  }

  function StepApply(w: World, times: nat -> int, s: Sys, a: Step<RecAction>): Sys
    requires StepEnabled(s, a)
  {
    match a
    case ByCore(b) =>
      var q := Exchange(w, s.core, Facing(s), b);
      s.(core := CoreApply(w, s.core, b),
         inner := s.inner.(queues := s.inner.queues.(addrRequests := q.addrRequests, txRequests := q.txRequests)),
         outer := s.outer.(queues := s.outer.queues.(addrResponses := q.addrResponses, txResponses := q.txResponses)))
    case ByWorker(Reply(job)) => s.(inner := Delivered(Dequeued(s.inner, job), TrueResponse(w, times, job)))
    case ByWorker(Pick(r)) => s.(inner := Received(s.inner, r), hand := Picked(r))
    case ByWorker(Note) => s.(index := Stored(s.index, s.hand.response), hand := Noted(s.hand.response))
    case ByWorker(Forward) => s.(outer := Delivered(s.outer, s.hand.response), hand := Empty)
    case AskBlock(k) => s.(inner := s.inner.(blockRequests := s.inner.blockRequests + multiset{k}))
    case GetBlock(r) => s.(outer := s.outer.(blockResponses := s.outer.blockResponses - multiset{r}))
  }

  predicate RunOf(w: World, times: nat -> int, s: Sys, run: seq<Step<RecAction>>)
    decreases |run|
  {
    run == [] || (StepEnabled(s, run[0]) && RunOf(w, times, StepApply(w, times, s, run[0]), run[1..]))
  }

  function EndOf(w: World, times: nat -> int, s: Sys, run: seq<Step<RecAction>>): Sys
    requires RunOf(w, times, s, run)
    decreases |run|
  {
    if run == [] then s else EndOf(w, times, StepApply(w, times, s, run[0]), run[1..])
  }

  // ----- The fetch protocol's view -----

  function HandAddrs(h: Hand): multiset<AddrResponse> { if h.Empty? then multiset{} else AddrsIn(h.response) }

  function HandTxs(h: Hand): multiset<TxResponse> { if h.Empty? then multiset{} else TxsIn(h.response) }

  /** A response on its way through the recorder is a response under way. */
  function Abs(s: Sys): State {
    var q := s.inner.queues;
    State(s.core, Queues(q.addrRequests, q.addrResponses + HandAddrs(s.hand) + s.outer.queues.addrResponses,
                         q.txRequests, q.txResponses + HandTxs(s.hand) + s.outer.queues.txResponses))
  }

  function Shadow(a: Step<RecAction>): seq<Action> {
    match a
    case ByCore(b) => [CoreStep(b)]
    case ByWorker(Reply(AddrJob(x))) => [AnswerAddr(x)]
    case ByWorker(Reply(TxJob(h))) => [AnswerTx(h)]
    case _ => []
  }

  lemma TakenLast<T>(a: multiset<T>, h: multiset<T>, o: multiset<T>, r: T)
    requires r in o
    ensures r in a + h + o && a + h + (o - multiset{r}) == a + h + o - multiset{r}
  {
  }

  lemma CoreRefines(w: World, times: nat -> int, s: Sys, b: CoreAction, t: Sys)
    requires StepEnabled(s, ByCore(b)) && t == StepApply(w, times, s, ByCore(b))
    ensures Enabled(Abs(s), CoreStep(b)) && Apply(w, Abs(s), CoreStep(b)) == Abs(t)
  {
    var q, outer := s.inner.queues, s.outer.queues;
    match b
    case OnAddr(TakeAddr(r)) => TakenLast(q.addrResponses, HandAddrs(s.hand), outer.addrResponses, r);
    case OnTx(TakeTx(r)) => TakenLast(q.txResponses, HandTxs(s.hand), outer.txResponses, r);
    case _ =>
  }

  lemma Behind<T>(a: multiset<T>, r: multiset<T>, h: multiset<T>, o: multiset<T>)
    ensures a + r + h + o == a + h + o + r
  {
  }

  lemma AddrReplyRefines(w: World, s: Sys, x: Address, t: Sys)
    requires x in s.inner.queues.addrRequests
    requires t == s.(inner := Delivered(Dequeued(s.inner, AddrJob(x)), AddrDone(AddrAnswer(w, x))))
    ensures Leads(w, Abs(s), [AnswerAddr(x)], Abs(t))
  {
    Behind(s.inner.queues.addrResponses, multiset{AddrAnswer(w, x)}, HandAddrs(s.hand), s.outer.queues.addrResponses);
    OneStep(w, Abs(s), AnswerAddr(x), Abs(t));
  }

  lemma TxReplyRefines(w: World, s: Sys, h: string, t: Sys)
    requires h in s.inner.queues.txRequests
    requires t == s.(inner := Delivered(Dequeued(s.inner, TxJob(h)), TxDone(TxAnswer(w, h))))
    ensures Leads(w, Abs(s), [AnswerTx(h)], Abs(t))
  {
    Behind(s.inner.queues.txResponses, multiset{TxAnswer(w, h)}, HandTxs(s.hand), s.outer.queues.txResponses);
    OneStep(w, Abs(s), AnswerTx(h), Abs(t));
  }

  lemma TakeOut<T>(a: multiset<T>, x: multiset<T>, o: multiset<T>)
    requires x <= a
    ensures a - x + x + o == a + multiset{} + o
  {
  }

  lemma PutOut<T>(a: multiset<T>, x: multiset<T>, o: multiset<T>)
    ensures a + multiset{} + (o + x) == a + x + o
  {
  }

  lemma ReceivedQueues(ch: Channels, r: Response)
    requires Waiting(ch, r) > 0
    ensures AddrsIn(r) <= ch.queues.addrResponses && TxsIn(r) <= ch.queues.txResponses
    ensures Received(ch, r).queues == ch.queues.(addrResponses := ch.queues.addrResponses - AddrsIn(r),
                                                 txResponses := ch.queues.txResponses - TxsIn(r))
  {
  }

  lemma DeliveredQueues(ch: Channels, r: Response)
    ensures Delivered(ch, r).queues == ch.queues.(addrResponses := ch.queues.addrResponses + AddrsIn(r),
                                                  txResponses := ch.queues.txResponses + TxsIn(r))
  {
  }

  /** Picking up, storing and passing on a response is not visible. */
  lemma PickRefines(s: Sys, r: Response)
    requires s.hand.Empty? && Waiting(s.inner, r) > 0
    ensures Abs(s.(inner := Received(s.inner, r), hand := Picked(r))) == Abs(s)
  {
    ReceivedQueues(s.inner, r);
    TakeOut(s.inner.queues.addrResponses, AddrsIn(r), s.outer.queues.addrResponses);
    TakeOut(s.inner.queues.txResponses, TxsIn(r), s.outer.queues.txResponses);
  }

  lemma ForwardRefines(s: Sys)
    requires s.hand.Noted?
    ensures Abs(s.(outer := Delivered(s.outer, s.hand.response), hand := Empty)) == Abs(s)
  {
    DeliveredQueues(s.outer, s.hand.response);
    PutOut(s.inner.queues.addrResponses, AddrsIn(s.hand.response), s.outer.queues.addrResponses);
    PutOut(s.inner.queues.txResponses, TxsIn(s.hand.response), s.outer.queues.txResponses);
  }

  lemma StepRefines(w: World, times: nat -> int, s: Sys, a: Step<RecAction>, t: Sys)
    requires StepEnabled(s, a) && t == StepApply(w, times, s, a)
    ensures Leads(w, Abs(s), Shadow(a), Abs(t))
  {
    match a
    case ByCore(b) =>
      CoreRefines(w, times, s, b, t);
      OneStep(w, Abs(s), CoreStep(b), Abs(t));
    case ByWorker(Reply(AddrJob(x))) => AddrReplyRefines(w, s, x, t);
    case ByWorker(Reply(TxJob(h))) => TxReplyRefines(w, s, h, t);
    case ByWorker(Pick(r)) => PickRefines(s, r);
    case ByWorker(Forward) => ForwardRefines(s);
    case _ =>
  }

  // ----- What the recorder has stored -----

  /** Different addresses of the wallet have different address strings. */
  ghost predicate Unambiguous(w: World) {
    forall c: nat, i: nat, c': nat, i': nat {:trigger w.Addr(c, i), w.Addr(c', i')} ::
      c < 2 && c' < 2 && w.Addr(c, i).addr == w.Addr(c', i').addr ==> w.Addr(c, i) == w.Addr(c', i')
  }

  /** Everything stored is a true response, under its own key. */
  ghost predicate IndexTrue(w: World, times: nat -> int, asked: iset<Address>, known: iset<string>, index: Index) {
    && (forall k :: k in index.addrs ==> index.addrs[k].address.addr == k && HonestAddr(w, asked, index.addrs[k]))
    && (forall h :: h in index.txs ==> index.txs[h].hash == h && HonestTx(w, known, index.txs[h]))
    && (forall k :: k in index.blocks ==> index.blocks[k] == BlockResponse(k, times(k)))
  }

  predicate HasKey(index: Index, r: Response) {
    match r
    case AddrDone(a) => a.address.addr in index.addrs
    case TxDone(t) => t.hash in index.txs
    case BlockDone(b) => b.height in index.blocks
  }

  /** Everything that faces the accounter, or is with it already, has an entry. */
  ghost predicate CorePassed(index: Index, core: Core, facing: Queues) {
    && (forall r :: r in facing.addrResponses ==> r.address.addr in index.addrs)
    && (forall r :: r in facing.txResponses ==> r.hash in index.txs)
    && (HeldAddr(core).Some? ==> HeldAddr(core).value.address.addr in index.addrs)
    && (HeldTx(core).Some? ==> HeldTx(core).value.hash in index.txs)
    && (forall h :: h in core.transactions ==> h in index.txs)
  }

  ghost predicate PassedOn(s: Sys) {
    && CorePassed(s.index, s.core, Facing(s))
    && (forall r :: r in s.outer.blockResponses ==> r.height in s.index.blocks)
    && (s.hand.Noted? ==> HasKey(s.index, s.hand.response))
  }

  /** An address that was asked for has not come back yet, or has an entry. */
  ghost predicate Pending(w: World, inner: Channels, hand: Hand, index: Index, x: Address) {
    || x in inner.queues.addrRequests || AddrAnswer(w, x) in inner.queues.addrResponses
    || hand == Picked(AddrDone(AddrAnswer(w, x))) || x.addr in index.addrs
  }

  ghost predicate AllPending(w: World, asked: iset<Address>, inner: Channels, hand: Hand, index: Index) {
    forall x :: x in asked ==> Pending(w, inner, hand, index, x)
  }

  ghost predicate TrueBlocks(times: nat -> int,
                             inner: multiset<BlockResponse>, outer: multiset<BlockResponse>, hand: Hand)
  {
    && (forall b :: b in inner ==> b.timestamp == times(b.height))
    && (forall b :: b in outer ==> b.timestamp == times(b.height))
    && (!hand.Empty? && hand.response.BlockDone? ==> hand.response.block.timestamp == times(hand.response.block.height))
  }

  ghost predicate RecInv(w: World, times: nat -> int, s: Sys) {
    var asked := Asked(w, SentPair(s.core));
    && IndexTrue(w, times, asked, Revealed(w, asked), s.index)
    && PassedOn(s)
    && AllPending(w, asked, s.inner, s.hand, s.index)
    && TrueBlocks(times, s.inner.blockResponses, s.outer.blockResponses, s.hand)
  }

  lemma IndexGrows(w: World, times: nat -> int, asked: iset<Address>, asked': iset<Address>, index: Index)
    requires IndexTrue(w, times, asked, Revealed(w, asked), index) && asked <= asked'
    ensures IndexTrue(w, times, asked', Revealed(w, asked'), index)
  {
    RevealedGrows(w, asked, asked');
  }

  lemma TakesKeepsPassed(c: Core, q: Queues, c': Core, q': Queues, index: Index)
    requires Takes(c, q, c', q') && CorePassed(index, c, q)
    ensures CorePassed(index, c', q')
  {
    forall r | r in q'.addrResponses ensures r in q.addrResponses {}
    forall r | r in q'.txResponses ensures r in q.txResponses {}
  }

  lemma CoreKeepsRec(w: World, times: nat -> int, top: Pair, s: Sys, b: CoreAction, t: Sys)
    requires StepEnabled(s, ByCore(b)) && t == StepApply(w, times, s, ByCore(b)) && RecInv(w, times, s)
    requires w.Bounded(top) && SenderInv(w, top, s.core)
    ensures RecInv(w, times, t)
  {
    var q' := Exchange(w, s.core, Facing(s), b);
    CoreTakes(w, s.core, Facing(s), b, t.core, q');
    TakesKeepsPassed(s.core, Facing(s), t.core, q', s.index);
    CoreRefines(w, times, s, b, t);
    CoreAsks(w, top, Abs(s), b, t.core);
    var asked, asked' := Asked(w, SentPair(s.core)), Asked(w, SentPair(t.core));
    IndexGrows(w, times, asked, asked', s.index);
    CoreKeepsPending(w, s, b, t, asked, asked');
  }

  lemma CoreKeepsPending(w: World, s: Sys, b: CoreAction, t: Sys, asked: iset<Address>, asked': iset<Address>)
    requires CoreEnabled(s.core, b) && AllPending(w, asked, s.inner, s.hand, s.index)
    requires t.hand == s.hand && t.index == s.index
    requires t.inner.queues.addrRequests == Exchange(w, s.core, Facing(s), b).addrRequests
    requires t.inner.queues.addrResponses == s.inner.queues.addrResponses
    requires forall x :: x in asked' ==> x in asked || (b == Send(SendRequest) && x == NextAddr(w, s.core))
    ensures AllPending(w, asked', t.inner, t.hand, t.index)
  {
    RequestsGrow(w, s.core, Facing(s), b);
    forall x | x in asked' ensures Pending(w, t.inner, t.hand, t.index, x) {
    }
  }

  lemma RequestsGrow(w: World, c: Core, q: Queues, b: CoreAction)
    requires CoreEnabled(c, b)
    ensures q.addrRequests <= Exchange(w, c, q, b).addrRequests
    ensures b == Send(SendRequest) ==> NextAddr(w, c) in Exchange(w, c, q, b).addrRequests
  {
  }

  lemma ReplyKeepsRec(w: World, times: nat -> int, s: Sys, job: Job, t: Sys)
    requires InQueue(s.inner, job) > 0 && RecInv(w, times, s)
    requires t == s.(inner := Delivered(Dequeued(s.inner, job), TrueResponse(w, times, job)))
    ensures RecInv(w, times, t)
  {
    forall x | x in Asked(w, SentPair(s.core)) ensures Pending(w, t.inner, t.hand, t.index, x) {
      assert Pending(w, s.inner, s.hand, s.index, x);
      AnswerPends(w, times, s.inner, job, t.inner, x);
    }
  }

  lemma AnswerPends(w: World, times: nat -> int, ch: Channels, job: Job, ch': Channels, x: Address)
    requires InQueue(ch, job) > 0 && ch' == Delivered(Dequeued(ch, job), TrueResponse(w, times, job))
    ensures x in ch.queues.addrRequests ==>
      x in ch'.queues.addrRequests || AddrAnswer(w, x) in ch'.queues.addrResponses
    ensures ch.queues.addrResponses <= ch'.queues.addrResponses
  {
  }

  lemma PickKeepsRec(w: World, times: nat -> int, s: Sys, r: Response, t: Sys)
    requires s.hand.Empty? && Waiting(s.inner, r) > 0 && RecInv(w, times, s)
    requires t == s.(inner := Received(s.inner, r), hand := Picked(r))
    ensures RecInv(w, times, t)
  {
    forall x | x in Asked(w, SentPair(s.core)) ensures Pending(w, t.inner, t.hand, t.index, x) {
      assert Pending(w, s.inner, s.hand, s.index, x);
    }
  }

  /** The response in hand is a true one, because it is under way in the fetch protocol. */
  lemma HandIsHonest(w: World, times: nat -> int, s: Sys)
    requires HonestInv(w, Abs(s)) && !s.hand.Empty?
    requires TrueBlocks(times, s.inner.blockResponses, s.outer.blockResponses, s.hand)
    ensures var asked := Asked(w, SentPair(s.core));
      match s.hand.response
      case AddrDone(a) => HonestAddr(w, asked, a)
      case TxDone(x) => HonestTx(w, Revealed(w, asked), x)
      case BlockDone(b) => b == BlockResponse(b.height, times(b.height))
  {
    match s.hand.response
    case AddrDone(a) => assert a in Abs(s).queues.addrResponses;
    case TxDone(x) => assert x in Abs(s).queues.txResponses;
    case BlockDone(_) =>
  }

  lemma StoredKeepsTrue(w: World, times: nat -> int, asked: iset<Address>, known: iset<string>,
                        index: Index, r: Response)
    requires IndexTrue(w, times, asked, known, index)
    requires match r
      case AddrDone(a) => HonestAddr(w, asked, a)
      case TxDone(x) => HonestTx(w, known, x)
      case BlockDone(b) => b == BlockResponse(b.height, times(b.height))
    ensures IndexTrue(w, times, asked, known, Stored(index, r))
  {
  }

  lemma NoteKeepsRec(w: World, times: nat -> int, s: Sys, t: Sys)
    requires s.hand.Picked? && HonestInv(w, Abs(s)) && RecInv(w, times, s)
    requires t == s.(index := Stored(s.index, s.hand.response), hand := Noted(s.hand.response))
    ensures RecInv(w, times, t)
  {
    HandIsHonest(w, times, s);
    var asked := Asked(w, SentPair(s.core));
    StoredKeepsTrue(w, times, asked, Revealed(w, asked), s.index, s.hand.response);
    forall x | x in Asked(w, SentPair(s.core)) ensures Pending(w, t.inner, t.hand, t.index, x) {
      assert Pending(w, s.inner, s.hand, s.index, x);
    }
  }

  lemma ForwardKeepsRec(w: World, times: nat -> int, s: Sys, t: Sys)
    requires s.hand.Noted? && RecInv(w, times, s)
    requires t == s.(outer := Delivered(s.outer, s.hand.response), hand := Empty)
    ensures RecInv(w, times, t)
  {
    forall x | x in Asked(w, SentPair(s.core)) ensures Pending(w, t.inner, t.hand, t.index, x) {
      assert Pending(w, s.inner, s.hand, s.index, x);
    }
  }

  lemma BlockStepKeepsRec(w: World, times: nat -> int, s: Sys, a: Step<RecAction>, t: Sys)
    requires (a.AskBlock? || a.GetBlock?) && RecInv(w, times, s)
    requires StepEnabled(s, a) && t == StepApply(w, times, s, a)
    ensures RecInv(w, times, t)
  {
    forall x | x in Asked(w, SentPair(s.core)) ensures Pending(w, t.inner, t.hand, t.index, x) {
      assert Pending(w, s.inner, s.hand, s.index, x);
    }
  }

  lemma StepKeepsRec(w: World, times: nat -> int, top: Pair, s: Sys, a: Step<RecAction>, t: Sys)
    requires w.Bounded(top) && Inv(w, top, Abs(s)) && RecInv(w, times, s)
    requires StepEnabled(s, a) && t == StepApply(w, times, s, a)
    ensures RecInv(w, times, t)
  {
    match a
    case ByCore(b) => CoreKeepsRec(w, times, top, s, b, t);
    case ByWorker(Reply(job)) => ReplyKeepsRec(w, times, s, job, t);
    case ByWorker(Pick(r)) => PickKeepsRec(w, times, s, r, t);
    case ByWorker(Note) => NoteKeepsRec(w, times, s, t);
    case ByWorker(Forward) => ForwardKeepsRec(w, times, s, t);
    case _ => BlockStepKeepsRec(w, times, s, a, t);
  }

  ghost predicate RecordingInv(w: World, times: nat -> int, top: Pair, s: Sys) {
    RunInv(w, top, Abs(s)) && RecInv(w, times, s)
  }

  lemma StepKeepsRecording(w: World, times: nat -> int, top: Pair, s: Sys, a: Step<RecAction>, t: Sys)
    requires w.Bounded(top) && RecordingInv(w, times, top, s)
    requires StepEnabled(s, a) && t == StepApply(w, times, s, a)
    ensures RecordingInv(w, times, top, t)
  {
    StepKeepsRec(w, times, top, s, a, t);
    StepRefines(w, times, s, a, t);
    RunKeepsInv(w, top, Abs(s), Shadow(a));
  }

  lemma {:induction false} RunKeepsRecording(w: World, times: nat -> int, top: Pair, s: Sys, run: seq<Step<RecAction>>)
    requires w.Bounded(top) && RecordingInv(w, times, top, s) && RunOf(w, times, s, run)
    ensures RecordingInv(w, times, top, EndOf(w, times, s, run))
    decreases |run|
  {
    if run != [] {
      var t := StepApply(w, times, s, run[0]);
      StepKeepsRecording(w, times, top, s, run[0], t);
      RunKeepsRecording(w, times, top, t, run[1..]);
    }
  }

  lemma StartKeepsRecording(w: World, times: nat -> int, top: Pair)
    requires w.Bounded(top)
    ensures RecordingInv(w, times, top, Start(w))
  {
    assert Abs(Start(w)) == Init(w);
    InitInv(w, top);
  }

  predicate Recorded(index: Index, r: Response) {
    HasKey(index, r) &&
    match r
    case AddrDone(a) => index.addrs[a.address.addr] == a
    case TxDone(t) => index.txs[t.hash] == t
    case BlockDone(b) => index.blocks[b.height] == b
  }

  lemma SameEntry(w: World, asked: iset<Address>, a: AddrResponse, b: AddrResponse, n: Pair)
    requires Unambiguous(w) && asked == Asked(w, n) && HonestAddr(w, asked, a) && HonestAddr(w, asked, b)
    requires a.address.addr == b.address.addr
    ensures a == b
  {
    var c: nat, i: nat :| c < 2 && i < n[c] && a.address == w.Addr(c, i);
    var c': nat, i': nat :| c' < 2 && i' < n[c'] && b.address == w.Addr(c', i');
  }

  /** Each response that the accounter or the block finder can take, or is busy with, is in the
      index as it was received. */
  ghost predicate AllRecorded(s: Sys) {
    AddrsRecorded(s) && TxsRecorded(s) && BlocksRecorded(s.outer.blockResponses, s.index)
  }

  ghost predicate AddrsRecorded(s: Sys) {
    forall r :: r in s.outer.queues.addrResponses || HeldAddr(s.core) == Some(r) ==> Recorded(s.index, AddrDone(r))
  }

  ghost predicate TxsRecorded(s: Sys) {
    forall r :: r in s.outer.queues.txResponses || HeldTx(s.core) == Some(r) ==> Recorded(s.index, TxDone(r))
  }

  ghost predicate BlocksRecorded(blocks: multiset<BlockResponse>, index: Index) {
    forall r :: r in blocks ==> Recorded(index, BlockDone(r))
  }

  lemma AddrRecorded(w: World, times: nat -> int, s: Sys, r: AddrResponse)
    requires Unambiguous(w) && HonestInv(w, Abs(s)) && RecInv(w, times, s)
    requires r in s.outer.queues.addrResponses || HeldAddr(s.core) == Some(r)
    ensures Recorded(s.index, AddrDone(r))
  {
    assert r in Abs(s).queues.addrResponses || HeldAddr(s.core) == Some(r);
    SameEntry(w, Asked(w, SentPair(s.core)), r, s.index.addrs[r.address.addr], SentPair(s.core));
  }

  lemma TxRecorded(w: World, times: nat -> int, s: Sys, r: TxResponse)
    requires HonestInv(w, Abs(s)) && RecInv(w, times, s)
    requires r in s.outer.queues.txResponses || HeldTx(s.core) == Some(r)
    ensures Recorded(s.index, TxDone(r))
  {
    assert r in Abs(s).queues.txResponses || HeldTx(s.core) == Some(r);
  }

  /** Record first, then forward, in every run. */
  lemma RecordedFirst(w: World, times: nat -> int, top: Pair, run: seq<Step<RecAction>>)
    requires w.Bounded(top) && Unambiguous(w) && RunOf(w, times, Start(w), run)
    ensures AllRecorded(EndOf(w, times, Start(w), run))
  {
    StartKeepsRecording(w, times, top);
    RunKeepsRecording(w, times, top, Start(w), run);
    var s := EndOf(w, times, Start(w), run);
    EveryAddrRecorded(w, times, s);
    EveryTxRecorded(w, times, s);
    EveryBlockRecorded(w, times, s);
  }

  lemma EveryBlockRecorded(w: World, times: nat -> int, s: Sys)
    requires RecInv(w, times, s)
    ensures BlocksRecorded(s.outer.blockResponses, s.index)
  {
  }

  lemma EveryAddrRecorded(w: World, times: nat -> int, s: Sys)
    requires Unambiguous(w) && HonestInv(w, Abs(s)) && RecInv(w, times, s)
    ensures AddrsRecorded(s)
  {
    forall r | r in s.outer.queues.addrResponses || HeldAddr(s.core) == Some(r) ensures Recorded(s.index, AddrDone(r)) {
      AddrRecorded(w, times, s, r);
    }
  }

  lemma EveryTxRecorded(w: World, times: nat -> int, s: Sys)
    requires HonestInv(w, Abs(s)) && RecInv(w, times, s)
    ensures TxsRecorded(s)
  {
    forall r | r in s.outer.queues.txResponses || HeldTx(s.core) == Some(r) ensures Recorded(s.index, TxDone(r)) {
      TxRecorded(w, times, s, r);
    }
  }

  /** The index holds the true response for exactly the addresses up to the limits and exactly the
      transactions in their histories. */
  ghost predicate CompleteIndex(w: World, limits: Pair, index: Index) {
    var asked := Asked(w, limits);
    && (forall x :: x in asked ==> x.addr in index.addrs && index.addrs[x.addr] == AddrAnswer(w, x))
    && (forall k :: k in index.addrs ==> index.addrs[k].address in asked && index.addrs[k].address.addr == k)
    && (forall h :: h in index.txs <==> h in Revealed(w, asked))
    && (forall h :: h in index.txs ==> index.txs[h] == TxAnswer(w, h))
  }

  /** When recvWork returns, the recording is complete and can be written and loaded back. */
  lemma RecordingIsComplete(w: World, times: nat -> int, top: Pair, run: seq<Step<RecAction>>)
    requires w.Bounded(top) && Unambiguous(w) && RunOf(w, times, Start(w), run)
    requires EndOf(w, times, Start(w), run).core.receiver.Returned?
    ensures var s := EndOf(w, times, Start(w), run);
      && Settled(w, Abs(s)) && Keyed(s.index) && CompleteIndex(w, s.core.lastAddresses, s.index)
  {
    StartKeepsRecording(w, times, top);
    RunKeepsRecording(w, times, top, Start(w), run);
    IndexCompletes(w, times, EndOf(w, times, Start(w), run));
  }

  lemma IndexCompletes(w: World, times: nat -> int, s: Sys)
    requires Unambiguous(w) && RecInv(w, times, s) && Settled(w, Abs(s))
    ensures Keyed(s.index) && CompleteIndex(w, s.core.lastAddresses, s.index)
  {
    NothingPending(s);
    var asked := Asked(w, s.core.lastAddresses);
    forall x | x in asked ensures x.addr in s.index.addrs && s.index.addrs[x.addr] == AddrAnswer(w, x) {
      assert Pending(w, s.inner, s.hand, s.index, x);
      SameEntry(w, asked, AddrAnswer(w, x), s.index.addrs[x.addr], s.core.lastAddresses);
    }
  }

  lemma {:induction false} BlocksStay(w: World, times: nat -> int, s: Sys, run: seq<Step<RecAction>>)
    requires RunOf(w, times, s, run)
    ensures s.index.blocks.Keys <= EndOf(w, times, s, run).index.blocks.Keys
    decreases |run|
  {
    if run != [] {
      BlocksStay(w, times, StepApply(w, times, s, run[0]), run[1..]);
    }
  }

  lemma ReceiptIsHeld(w: World, times: nat -> int, s: Sys, r: BlockResponse)
    requires RecInv(w, times, s) && StepEnabled(s, GetBlock(r))
    ensures r.height in s.index.blocks
  {
  }

  lemma {:induction false} ReceivedIsKept(w: World, times: nat -> int, top: Pair, s: Sys,
                                          run: seq<Step<RecAction>>, r: BlockResponse)
    requires w.Bounded(top) && RecordingInv(w, times, top, s) && RunOf(w, times, s, run) && GetBlock(r) in run
    ensures r.height in EndOf(w, times, s, run).index.blocks
    decreases |run|
  {
    if run[0] == GetBlock(r) {
      ReceiptIsHeld(w, times, s, r);
      BlocksStay(w, times, s, run);
    } else {
      var t := StepApply(w, times, s, run[0]);
      StepKeepsRecording(w, times, top, s, run[0], t);
      ReceivedIsKept(w, times, top, t, run[1..], r);
    }
  }

  lemma HeldIsTrue(w: World, times: nat -> int, s: Sys)
    requires RecInv(w, times, s)
    ensures Keyed(s.index) && forall h :: h in s.index.blocks ==> s.index.blocks[h] == BlockResponse(h, times(h))
  {
  }

  /** Every block that the block finder received is recorded, with its time. */
  lemma ReceivedIsRecorded(w: World, times: nat -> int, top: Pair, run: seq<Step<RecAction>>, r: BlockResponse)
    requires w.Bounded(top) && RunOf(w, times, Start(w), run) && GetBlock(r) in run
    ensures var blocks := EndOf(w, times, Start(w), run).index.blocks;
      r.height in blocks && blocks[r.height] == BlockResponse(r.height, times(r.height))
  {
    StartKeepsRecording(w, times, top);
    ReceivedIsKept(w, times, top, Start(w), run, r);
    RunKeepsRecording(w, times, top, Start(w), run);
    HeldIsTrue(w, times, EndOf(w, times, Start(w), run));
  }

  /** At any time, what has been recorded can be written and loaded back. */
  lemma RecordingIsKeyed(w: World, times: nat -> int, top: Pair, run: seq<Step<RecAction>>)
    requires w.Bounded(top) && RunOf(w, times, Start(w), run)
    ensures Keyed(EndOf(w, times, Start(w), run).index)
  {
    StartKeepsRecording(w, times, top);
    RunKeepsRecording(w, times, top, Start(w), run);
    HeldIsTrue(w, times, EndOf(w, times, Start(w), run));
  }

  lemma AllEmpty<T>(a: multiset<T>, b: multiset<T>, c: multiset<T>)
    requires a + b + c == multiset{}
    ensures a == multiset{} && b == multiset{} && c == multiset{}
  {
    assert |a + b + c| == |a| + |b| + |c|;
  }

  lemma NothingPending(s: Sys)
    requires Quiet(Abs(s).queues)
    ensures s.inner.queues.addrRequests == multiset{} && s.inner.queues.addrResponses == multiset{}
    ensures HandAddrs(s.hand) == multiset{} && HandTxs(s.hand) == multiset{}
    ensures s.hand.Empty? || s.hand.response.BlockDone?
  {
    AllEmpty(s.inner.queues.addrResponses, HandAddrs(s.hand), s.outer.queues.addrResponses);
    AllEmpty(s.inner.queues.txResponses, HandTxs(s.hand), s.outer.queues.txResponses);
    if !s.hand.Empty? {
      InHand(s.hand.response);
    }
  }

  lemma InHand(r: Response)
    ensures AddrsIn(r) == multiset{} && TxsIn(r) == multiset{} ==> r.BlockDone?
  {
    match r
    case AddrDone(a) => assert AddrsIn(r)[a] == 1;
    case TxDone(t) => assert TxsIn(r)[t] == 1;
    case BlockDone(_) =>
  }
}
