/** A backend as a floor of workers who take requests from shared channels: what each step does to
    the work in hand, why no request is lost or answered twice, and why the accounter over such a
    backend runs the fetch protocol. */
module Workers {
  import opened Basics
  import opened Deriver
  import opened Wallet
  import opened Fetching
  import opened FetchingSafety
  import opened FetchingResults

  datatype BlockResponse = BlockResponse(height: nat, timestamp: int)

  datatype Job = AddrJob(address: Address) | TxJob(hash: string) | BlockJob(height: nat)

  datatype Response = AddrDone(addr: AddrResponse) | TxDone(tx: TxResponse) | BlockDone(block: BlockResponse)

  function JobFor(r: Response): Job {
    match r
    case AddrDone(a) => AddrJob(a.address)
    case TxDone(t) => TxJob(t.hash)
    case BlockDone(b) => BlockJob(b.height)
  }

  /** The channels of a backend, to the accounter and to the block finder. */
  datatype Channels = Channels(queues: Queues, blockRequests: multiset<nat>, blockResponses: multiset<BlockResponse>)

  const EMPTY: Channels :=
    Channels(Queues(multiset{}, multiset{}, multiset{}, multiset{}), multiset{}, multiset{})

  function InQueue(ch: Channels, job: Job): nat {
    match job
    case AddrJob(x) => ch.queues.addrRequests[x]
    case TxJob(h) => ch.queues.txRequests[h]
    case BlockJob(n) => ch.blockRequests[n]
  }

  function Dequeued(ch: Channels, job: Job): Channels {
    match job
    case AddrJob(x) => ch.(queues := ch.queues.(addrRequests := ch.queues.addrRequests - multiset{x}))
    case TxJob(h) => ch.(queues := ch.queues.(txRequests := ch.queues.txRequests - multiset{h}))
    case BlockJob(n) => ch.(blockRequests := ch.blockRequests - multiset{n})
  }

  function Requeued(ch: Channels, job: Job): Channels {
    match job
    case AddrJob(x) => ch.(queues := ch.queues.(addrRequests := ch.queues.addrRequests + multiset{x}))
    case TxJob(h) => ch.(queues := ch.queues.(txRequests := ch.queues.txRequests + multiset{h}))
    case BlockJob(n) => ch.(blockRequests := ch.blockRequests + multiset{n})
  }

  function Delivered(ch: Channels, r: Response): Channels {
    match r
    case AddrDone(a) => ch.(queues := ch.queues.(addrResponses := ch.queues.addrResponses + multiset{a}))
    case TxDone(t) => ch.(queues := ch.queues.(txResponses := ch.queues.txResponses + multiset{t}))
    case BlockDone(b) => ch.(blockResponses := ch.blockResponses + multiset{b})
  }

  function Waiting(ch: Channels, r: Response): nat {
    match r
    case AddrDone(a) => ch.queues.addrResponses[a]
    case TxDone(t) => ch.queues.txResponses[t]
    case BlockDone(b) => ch.blockResponses[b]
  }

  function Received(ch: Channels, r: Response): Channels {
    match r
    case AddrDone(a) => ch.(queues := ch.queues.(addrResponses := ch.queues.addrResponses - multiset{a}))
    case TxDone(t) => ch.(queues := ch.queues.(txResponses := ch.queues.txResponses - multiset{t}))
    case BlockDone(b) => ch.(blockResponses := ch.blockResponses - multiset{b})
  }

  lemma DeliveredAdds(ch: Channels, r: Response, other: Response)
    ensures Waiting(Delivered(ch, r), other) == Waiting(ch, other) + if other == r then 1 else 0
  {
  }

  lemma ReceivedTakes(ch: Channels, r: Response, other: Response)
    requires Waiting(ch, r) > 0
    ensures Waiting(Received(ch, r), other) + (if other == r then 1 else 0) == Waiting(ch, other)
  {
  }

  lemma ResponsesLeaveRequests(ch: Channels, r: Response, job: Job)
    ensures InQueue(Delivered(ch, r), job) == InQueue(ch, job) && InQueue(Received(ch, r), job) == InQueue(ch, job)
  {
  }

  lemma RequestsLeaveResponses(ch: Channels, job: Job, r: Response)
    ensures Waiting(Requeued(ch, job), r) == Waiting(ch, r) && Waiting(Dequeued(ch, job), r) == Waiting(ch, r)
  {
  }

  /** The accounter, the channels, and the request in each worker's hands. */
  datatype Floor = Floor(core: Core, channels: Channels, jobs: seq<Option<Job>>)

  /** What a worker's step does to the work in hand. */
  datatype Effect =
    | Silent
    | Joined                                  // a new worker
    | Started(worker: nat, job: Job)          // a request is taken
    | GaveUp(worker: nat)                     // the request in hand goes back into its queue
    | Answered(worker: nat, response: Response)   // the request in hand is answered

  /** Steps of the accounter, of a backend's workers, and of the block finder at its channels. */
  datatype Step<E> =
    | ByCore(step: CoreAction)
    | ByWorker(effect: E)
    | AskBlock(height: nat)
    | GetBlock(block: BlockResponse)

  function Opening(w: World): Floor { Floor(InitCore(w), EMPTY, []) }

  predicate EffectEnabled(ch: Channels, jobs: seq<Option<Job>>, e: Effect) {
    match e
    case Silent => true
    case Joined => true
    case Started(i, job) => i < |jobs| && jobs[i].None? && InQueue(ch, job) > 0
    case GaveUp(i) => i < |jobs| && jobs[i].Some?
    case Answered(i, r) => i < |jobs| && jobs[i] == Some(JobFor(r))
  }

  function ChannelsAfter(ch: Channels, jobs: seq<Option<Job>>, e: Effect): Channels
    requires EffectEnabled(ch, jobs, e)
  {
    match e
    case Started(_, job) => Dequeued(ch, job)
    case GaveUp(i) => Requeued(ch, jobs[i].value)
    case Answered(_, r) => Delivered(ch, r)
    case _ => ch
  }

  function JobsAfter(ch: Channels, jobs: seq<Option<Job>>, e: Effect): seq<Option<Job>>
    requires EffectEnabled(ch, jobs, e)
  {
    match e
    case Silent => jobs
    case Joined => jobs + [None]
    case Started(i, job) => jobs[i := Some(job)]
    case GaveUp(i) => jobs[i := None]
    case Answered(i, _) => jobs[i := None]
  }

  /** The requests in the hands of a backend's workers, whatever states those have. */
  function JobsOf<V>(workers: seq<V>, jobOf: V -> Option<Job>): (jobs: seq<Option<Job>>)
    ensures |jobs| == |workers|
    ensures forall i :: 0 <= i < |jobs| ==> jobs[i] == jobOf(workers[i])
  {
    seq(|workers|, i requires 0 <= i < |workers| => jobOf(workers[i]))
  }

  ghost predicate IsEffect(ch: Channels, jobs: seq<Option<Job>>, e: Effect, ch': Channels, jobs': seq<Option<Job>>) {
    EffectEnabled(ch, jobs, e) && ch' == ChannelsAfter(ch, jobs, e) && jobs' == JobsAfter(ch, jobs, e)
  }

  predicate FloorEnabled(f: Floor, a: Step<Effect>) {
    match a
    case ByCore(b) => CoreEnabled(f.core, b) && CanTake(f.channels.queues, b)
    case ByWorker(e) => EffectEnabled(f.channels, f.jobs, e)
    case AskBlock(_) => true
    case GetBlock(r) => r in f.channels.blockResponses
  }

  /** The channel side of the steps that are not a worker's. */
  function Outside<E>(w: World, core: Core, ch: Channels, a: Step<E>): Channels
    requires !a.ByWorker? && (a.ByCore? ==> CoreEnabled(core, a.step))
  {
    match a
    case ByCore(b) => ch.(queues := Exchange(w, core, ch.queues, b))
    case AskBlock(n) => ch.(blockRequests := ch.blockRequests + multiset{n})
    case GetBlock(r) => ch.(blockResponses := ch.blockResponses - multiset{r})
  }

  function CoreAfter<E>(w: World, core: Core, a: Step<E>): Core
    requires a.ByCore? ==> CoreEnabled(core, a.step)
  {
    if a.ByCore? then CoreApply(w, core, a.step) else core
  }

  function FloorApply(w: World, f: Floor, a: Step<Effect>): Floor
    requires FloorEnabled(f, a)
  {
    if a.ByWorker?
    then Floor(f.core, ChannelsAfter(f.channels, f.jobs, a.effect), JobsAfter(f.channels, f.jobs, a.effect))
    else Floor(CoreAfter(w, f.core, a), Outside(w, f.core, f.channels, a), f.jobs)
  }

  predicate FloorRun(w: World, f: Floor, run: seq<Step<Effect>>)
    decreases |run|
  {
    run == [] || (FloorEnabled(f, run[0]) && FloorRun(w, FloorApply(w, f, run[0]), run[1..]))
  }

  function FloorEnd(w: World, f: Floor, run: seq<Step<Effect>>): Floor
    requires FloorRun(w, f, run)
    decreases |run|
  {
    if run == [] then f else FloorEnd(w, FloorApply(w, f, run[0]), run[1..])
  }

  // ----- Conservation -----

  function Count(one: Option<Job>, job: Job): nat { if one == Some(job) then 1 else 0 }

  /** How many workers hold a request. */
  function Holders(jobs: seq<Option<Job>>, job: Job): nat {
    if jobs == [] then 0 else Holders(jobs[..|jobs| - 1], job) + Count(jobs[|jobs| - 1], job)
  }

  /** Copies of a request that are scheduled and not yet answered. */
  function Outstanding(f: Floor, job: Job): nat { InQueue(f.channels, job) + Holders(f.jobs, job) }

  lemma {:induction false} HoldersUpdate(jobs: seq<Option<Job>>, job: Job, i: nat, v: Option<Job>)
    requires i < |jobs|
    ensures Holders(jobs[i := v], job) + Count(jobs[i], job) == Holders(jobs, job) + Count(v, job)
    decreases |jobs|
  {
    var n := |jobs| - 1;
    if i < n {
      HoldersUpdate(jobs[..n], job, i, v);
      assert jobs[i := v][..n] == jobs[..n][i := v];
    } else {
      assert jobs[i := v][..n] == jobs[..n];
    }
  }

  lemma DequeueTakes(ch: Channels, taken: Job, job: Job)
    requires InQueue(ch, taken) > 0
    ensures InQueue(Dequeued(ch, taken), job) + Count(Some(taken), job) == InQueue(ch, job)
  {
  }

  lemma RequeueReturns(ch: Channels, failed: Job, job: Job)
    ensures InQueue(Requeued(ch, failed), job) == InQueue(ch, job) + Count(Some(failed), job)
  {
  }

  /** The request that an effect answers. */
  function Answer(e: Effect): Option<Job> { if e.Answered? then Some(JobFor(e.response)) else None }

  lemma EffectConserves(ch: Channels, jobs: seq<Option<Job>>, e: Effect,
                        ch': Channels, jobs': seq<Option<Job>>, job: Job)
    requires EffectEnabled(ch, jobs, e) && ch' == ChannelsAfter(ch, jobs, e) && jobs' == JobsAfter(ch, jobs, e)
    ensures InQueue(ch', job) + Holders(jobs', job) + Count(Answer(e), job) == InQueue(ch, job) + Holders(jobs, job)
  {
    match e
    case Silent =>
    case Joined =>
      assert jobs'[..|jobs|] == jobs;
    case Started(i, taken) =>
      HoldersUpdate(jobs, job, i, Some(taken));
      DequeueTakes(ch, taken, job);
    case GaveUp(i) =>
      HoldersUpdate(jobs, job, i, None);
      RequeueReturns(ch, jobs[i].value, job);
    case Answered(i, r) =>
      HoldersUpdate(jobs, job, i, None);
  }

  /** The request that a step schedules. */
  function Asks<E>(w: World, core: Core, a: Step<E>): Option<Job>
    requires a.ByCore? ==> CoreEnabled(core, a.step)
  {
    match a
    case ByCore(Send(SendRequest)) => Some(AddrJob(NextAddr(w, core)))
    case ByCore(OnAddr(ScanHash)) => if Unknown(core) then Some(TxJob(NextHash(core))) else None
    case AskBlock(n) => Some(BlockJob(n))
    case _ => None
  }

  function Answers(a: Step<Effect>): Option<Job> { if a.ByWorker? then Answer(a.effect) else None }

  lemma OutsideConserves(w: World, core: Core, ch: Channels, a: Step<Effect>, ch': Channels, job: Job)
    requires !a.ByWorker? && (a.ByCore? ==> CoreEnabled(core, a.step)) && ch' == Outside(w, core, ch, a)
    ensures InQueue(ch', job) == InQueue(ch, job) + Count(Asks(w, core, a), job)
  {
  }

  lemma StepConserves(w: World, f: Floor, a: Step<Effect>, g: Floor, job: Job)
    requires FloorEnabled(f, a) && g == FloorApply(w, f, a)
    ensures Outstanding(g, job) + Count(Answers(a), job) == Outstanding(f, job) + Count(Asks(w, f.core, a), job)
  {
    if a.ByWorker? {
      EffectConserves(f.channels, f.jobs, a.effect, g.channels, g.jobs, job);
    } else {
      OutsideConserves(w, f.core, f.channels, a, g.channels, job);
    }
  }

  /** How often a run schedules a request, and how often it answers it. */
  function TimesAsked(w: World, f: Floor, run: seq<Step<Effect>>, job: Job): nat
    requires FloorRun(w, f, run)
    decreases |run|
  {
    if run == [] then 0
    else Count(Asks(w, f.core, run[0]), job) + TimesAsked(w, FloorApply(w, f, run[0]), run[1..], job)
  }

  function TimesAnswered(run: seq<Step<Effect>>, job: Job): nat {
    if run == [] then 0 else Count(Answers(run[0]), job) + TimesAnswered(run[1..], job)
  }

  /** Each request was scheduled exactly as often as it is queued, held by a worker, or was answered. */
  lemma {:induction false} RunConserves(w: World, f: Floor, run: seq<Step<Effect>>, job: Job)
    requires FloorRun(w, f, run)
    ensures Outstanding(FloorEnd(w, f, run), job) + TimesAnswered(run, job)
         == Outstanding(f, job) + TimesAsked(w, f, run, job)
    decreases |run|
  {
    if run != [] {
      var g := FloorApply(w, f, run[0]);
      StepConserves(w, f, run[0], g, job);
      RunConserves(w, g, run[1..], job);
    }
  }

  // ----- The fetch protocol's view -----

  /** The addresses and hashes that workers hold. */
  function HeldAddrs(jobs: seq<Option<Job>>): multiset<Address> {
    if jobs == [] then multiset{} else
      var j := jobs[|jobs| - 1];
      HeldAddrs(jobs[..|jobs| - 1]) + if j.Some? && j.value.AddrJob? then multiset{j.value.address} else multiset{}
  }

  function HeldHashes(jobs: seq<Option<Job>>): multiset<string> {
    if jobs == [] then multiset{} else
      var j := jobs[|jobs| - 1];
      HeldHashes(jobs[..|jobs| - 1]) + if j.Some? && j.value.TxJob? then multiset{j.value.hash} else multiset{}
  }

  lemma {:induction false} HeldAddrsCount(jobs: seq<Option<Job>>, x: Address)
    ensures HeldAddrs(jobs)[x] == Holders(jobs, AddrJob(x))
    decreases |jobs|
  {
    if jobs != [] {
      HeldAddrsCount(jobs[..|jobs| - 1], x);
    }
  }

  lemma {:induction false} HeldHashesCount(jobs: seq<Option<Job>>, h: string)
    ensures HeldHashes(jobs)[h] == Holders(jobs, TxJob(h))
    decreases |jobs|
  {
    if jobs != [] {
      HeldHashesCount(jobs[..|jobs| - 1], h);
    }
  }

  function With(q: Queues, addrs: multiset<Address>, hashes: multiset<string>): Queues {
    q.(addrRequests := q.addrRequests + addrs, txRequests := q.txRequests + hashes)
  }

  /** Requests in the hands of workers still count as queued. */
  function Abs(f: Floor): State {
    State(f.core, With(f.channels.queues, HeldAddrs(f.jobs), HeldHashes(f.jobs)))
  }

  /** A response that agrees with the world; `times` are the world's block times. */
  predicate Honest(w: World, times: nat -> int, r: Response) {
    match r
    case AddrDone(a) => a == AddrAnswer(w, a.address)
    case TxDone(t) => t == TxAnswer(w, t.hash)
    case BlockDone(b) => b.timestamp == times(b.height)
  }

  predicate HonestStep(w: World, times: nat -> int, a: Step<Effect>) {
    a.ByWorker? && a.effect.Answered? ==> Honest(w, times, a.effect.response)
  }

  predicate HonestRun(w: World, times: nat -> int, run: seq<Step<Effect>>) {
    forall k :: 0 <= k < |run| ==> HonestStep(w, times, run[k])
  }

  /** What the fetch protocol sees of a step: a response sent is one answer of its backend; no other
      step of a worker, nor any about blocks, is visible. */
  function Shadow(a: Step<Effect>): seq<Action> {
    match a
    case ByCore(b) => [CoreStep(b)]
    case ByWorker(Answered(_, r)) => ShadowOf(r)
    case _ => []
  }

  function ShadowOf(r: Response): seq<Action> {
    match r
    case AddrDone(a) => [AnswerAddr(a.address)]
    case TxDone(t) => [AnswerTx(t.hash)]
    case BlockDone(_) => []
  }

  ghost predicate Leads(w: World, s: State, shadow: seq<Action>, t: State) {
    Run(w, s, shadow) && End(w, s, shadow) == t
  }

  lemma OneStep(w: World, s: State, a: Action, t: State)
    requires Enabled(s, a) && Apply(w, s, a) == t
    ensures Leads(w, s, [a], t)
  {
    assert [a][1..] == [];
  }

  /** The abstract requests change by exactly the answer. */
  ghost predicate RequestsChangeBy(s: State, answer: Option<Job>, t: State) {
    && (forall x :: t.queues.addrRequests[x] + Count(answer, AddrJob(x)) == s.queues.addrRequests[x])
    && (forall h :: t.queues.txRequests[h] + Count(answer, TxJob(h)) == s.queues.txRequests[h])
  }

  lemma EffectRequests(w: World, f: Floor, e: Effect, g: Floor)
    requires FloorEnabled(f, ByWorker(e)) && g == FloorApply(w, f, ByWorker(e))
    ensures RequestsChangeBy(Abs(f), Answer(e), Abs(g))
  {
    forall x ensures Abs(g).queues.addrRequests[x] + Count(Answer(e), AddrJob(x)) == Abs(f).queues.addrRequests[x] {
      HeldAddrsCount(f.jobs, x);
      HeldAddrsCount(g.jobs, x);
      EffectConserves(f.channels, f.jobs, e, g.channels, g.jobs, AddrJob(x));
    }
    forall h ensures Abs(g).queues.txRequests[h] + Count(Answer(e), TxJob(h)) == Abs(f).queues.txRequests[h] {
      HeldHashesCount(f.jobs, h);
      HeldHashesCount(g.jobs, h);
      EffectConserves(f.channels, f.jobs, e, g.channels, g.jobs, TxJob(h));
    }
  }

  lemma AddrAnswered(w: World, s: State, x: Address, t: State)
    requires RequestsChangeBy(s, Some(AddrJob(x)), t) && t.core == s.core
    requires t.queues.addrResponses == s.queues.addrResponses + multiset{AddrAnswer(w, x)}
    requires t.queues.txResponses == s.queues.txResponses
    ensures Leads(w, s, [AnswerAddr(x)], t)
  {
    assert Count(Some(AddrJob(x)), AddrJob(x)) == 1;
    assert t.queues.addrRequests == s.queues.addrRequests - multiset{x};
    assert t.queues.txRequests == s.queues.txRequests;
    OneStep(w, s, AnswerAddr(x), t);
  }

  lemma TxAnswered(w: World, s: State, h: string, t: State)
    requires RequestsChangeBy(s, Some(TxJob(h)), t) && t.core == s.core
    requires t.queues.txResponses == s.queues.txResponses + multiset{TxAnswer(w, h)}
    requires t.queues.addrResponses == s.queues.addrResponses
    ensures Leads(w, s, [AnswerTx(h)], t)
  {
    assert Count(Some(TxJob(h)), TxJob(h)) == 1;
    assert t.queues.txRequests == s.queues.txRequests - multiset{h};
    assert t.queues.addrRequests == s.queues.addrRequests;
    OneStep(w, s, AnswerTx(h), t);
  }

  lemma NothingAnswered(w: World, s: State, answer: Option<Job>, t: State)
    requires RequestsChangeBy(s, answer, t) && (answer.Some? ==> answer.value.BlockJob?) && t.core == s.core
    requires t.queues.addrResponses == s.queues.addrResponses && t.queues.txResponses == s.queues.txResponses
    ensures Leads(w, s, [], t)
  {
    assert t.queues.txRequests == s.queues.txRequests && t.queues.addrRequests == s.queues.addrRequests;
  }

  lemma EffectRefines(w: World, times: nat -> int, f: Floor, e: Effect, g: Floor, shadow: seq<Action>)
    requires FloorEnabled(f, ByWorker(e)) && g == FloorApply(w, f, ByWorker(e)) && HonestStep(w, times, ByWorker(e))
    requires shadow == Shadow(ByWorker(e))
    ensures Leads(w, Abs(f), shadow, Abs(g))
  {
    EffectRequests(w, f, e, g);
    EffectResponses(f.channels, f.jobs, e, g.channels);
    if e.Answered? {
      Sending(w, times, Abs(f), e.response, Abs(g));
    } else {
      NothingAnswered(w, Abs(f), None, Abs(g));
    }
  }

  function AddrsIn(r: Response): multiset<AddrResponse> { if r.AddrDone? then multiset{r.addr} else multiset{} }

  function TxsIn(r: Response): multiset<TxResponse> { if r.TxDone? then multiset{r.tx} else multiset{} }

  lemma EffectResponses(ch: Channels, jobs: seq<Option<Job>>, e: Effect, ch': Channels)
    requires EffectEnabled(ch, jobs, e) && ch' == ChannelsAfter(ch, jobs, e)
    ensures ch'.queues.addrResponses
         == if e.Answered? then ch.queues.addrResponses + AddrsIn(e.response) else ch.queues.addrResponses
    ensures ch'.queues.txResponses
         == if e.Answered? then ch.queues.txResponses + TxsIn(e.response) else ch.queues.txResponses
  {
  }

  lemma Sending(w: World, times: nat -> int, s: State, r: Response, t: State)
    requires RequestsChangeBy(s, Some(JobFor(r)), t) && t.core == s.core && Honest(w, times, r)
    requires t.queues.addrResponses == s.queues.addrResponses + AddrsIn(r)
    requires t.queues.txResponses == s.queues.txResponses + TxsIn(r)
    ensures Leads(w, s, ShadowOf(r), t)
  {
    match r
    case AddrDone(a) => AddrAnswered(w, s, a.address, t);
    case TxDone(x) => TxAnswered(w, s, x.hash, t);
    case BlockDone(_) => NothingAnswered(w, s, Some(JobFor(r)), t);
  }

  /** A step of the accounter means the same over the channels and over the protocol's queues. */
  lemma ExchangeCommutes(w: World, c: Core, q: Queues,
                         addrs: multiset<Address>, hashes: multiset<string>, b: CoreAction)
    requires CoreEnabled(c, b)
    ensures With(Exchange(w, c, q, b), addrs, hashes) == Exchange(w, c, With(q, addrs, hashes), b)
  {
    match b
    case Send(SendRequest) =>
      var x := multiset{NextAddr(w, c)};
      assert q.addrRequests + x + addrs == q.addrRequests + addrs + x;
    case OnAddr(ScanHash) =>
      var x := multiset{NextHash(c)};
      assert q.txRequests + x + hashes == q.txRequests + hashes + x;
    case _ =>
  }

  lemma StepRefines(w: World, times: nat -> int, f: Floor, a: Step<Effect>, g: Floor, shadow: seq<Action>)
    requires FloorEnabled(f, a) && g == FloorApply(w, f, a) && HonestStep(w, times, a) && shadow == Shadow(a)
    ensures Leads(w, Abs(f), shadow, Abs(g))
  {
    match a
    case ByCore(b) =>
      ExchangeCommutes(w, f.core, f.channels.queues, HeldAddrs(f.jobs), HeldHashes(f.jobs), b);
      OneStep(w, Abs(f), CoreStep(b), Abs(g));
    case ByWorker(e) => EffectRefines(w, times, f, e, g, shadow);
    case _ =>
  }

  lemma {:induction false} LeadsOn(w: World, s: State, one: seq<Action>, t: State, two: seq<Action>, u: State)
    requires Leads(w, s, one, t) && Leads(w, t, two, u)
    ensures Leads(w, s, one + two, u)
    decreases |one|
  {
    if one == [] {
      assert one + two == two;
    } else {
      assert (one + two)[1..] == one[1..] + two;
      LeadsOn(w, Apply(w, s, one[0]), one[1..], t, two, u);
    }
  }

  /** A run in which all responses agree with the world is a run of the fetch protocol. */
  lemma {:induction false} RunRefines(w: World, times: nat -> int, f: Floor, run: seq<Step<Effect>>)
    returns (schedule: seq<Action>)
    requires FloorRun(w, f, run) && HonestRun(w, times, run)
    ensures Leads(w, Abs(f), schedule, Abs(FloorEnd(w, f, run)))
    decreases |run|
  {
    if run == [] {
      schedule := [];
    } else {
      var g := FloorApply(w, f, run[0]);
      StepRefines(w, times, f, run[0], g, Shadow(run[0]));
      var rest := RunRefines(w, times, g, run[1..]);
      LeadsOn(w, Abs(f), Shadow(run[0]), Abs(g), rest, Abs(FloorEnd(w, f, run)));
      schedule := Shadow(run[0]) + rest;
    }
  }

  /** Everything that the wallet's history calls for has been fetched, and no address or transaction
      request is left on the floor. */
  ghost predicate AllFetched(w: World, f: Floor) {
    && w.LeastClosed(f.core.lastAddresses) && Fetched(w, f.core.lastAddresses, f.core)
    && (forall job: Job :: !job.BlockJob? ==> Outstanding(f, job) == 0)
  }

  lemma FloorFetches(w: World, times: nat -> int, top: Pair, run: seq<Step<Effect>>)
    requires w.Bounded(top) && FloorRun(w, Opening(w), run) && HonestRun(w, times, run)
    requires FloorEnd(w, Opening(w), run).core.receiver.Returned?
    ensures AllFetched(w, FloorEnd(w, Opening(w), run))
  {
    var schedule := RunRefines(w, times, Opening(w), run);
    assert Abs(Opening(w)) == Init(w);
    StoppingIsSound(w, top, schedule);
    SettledFloor(w, FloorEnd(w, Opening(w), run));
  }

  lemma SettledFloor(w: World, f: Floor)
    requires Settled(w, Abs(f))
    ensures AllFetched(w, f)
  {
    forall job: Job | !job.BlockJob? ensures Outstanding(f, job) == 0 {
      if job.AddrJob? {
        HeldAddrsCount(f.jobs, job.address);
        assert Abs(f).queues.addrRequests[job.address] == 0;
      } else {
        HeldHashesCount(f.jobs, job.hash);
        assert Abs(f).queues.txRequests[job.hash] == 0;
      }
    }
  }

  lemma {:induction false} HoldersPositive(jobs: seq<Option<Job>>, i: nat)
    requires i < |jobs| && jobs[i].Some?
    ensures Holders(jobs, jobs[i].value) > 0
    decreases |jobs|
  {
    if i < |jobs| - 1 {
      HoldersPositive(jobs[..|jobs| - 1], i);
    }
  }

  lemma ReachableInv(w: World, times: nat -> int, top: Pair, run: seq<Step<Effect>>)
    requires w.Bounded(top) && FloorRun(w, Opening(w), run) && HonestRun(w, times, run)
    ensures RunInv(w, top, Abs(FloorEnd(w, Opening(w), run)))
  {
    var schedule := RunRefines(w, times, Opening(w), run);
    assert Abs(Opening(w)) == Init(w);
    InitInv(w, top);
    RunKeepsInv(w, top, Init(w), schedule);
  }

  lemma SentWithin(w: World, top: Pair, m: Pair, c: Core)
    requires SenderInv(w, top, c) && LimitInv(w, c) && w.Closed(m)
    ensures Asked(w, SentPair(c)) <= Asked(w, m)
  {
    AskedGrows(w, SentPair(c), m);
  }

  /** Only addresses below the limits, and transactions in their histories, are ever in a backend's
      hands; the limits may be any closed ones. */
  lemma OnlyWalletIsAsked(w: World, top: Pair, m: Pair, f: Floor, job: Job)
    requires Inv(w, top, Abs(f)) && w.Closed(m) && Outstanding(f, job) > 0
    ensures match job
      case AddrJob(x) => x in Asked(w, m)
      case TxJob(h) => h in Revealed(w, Asked(w, m))
      case BlockJob(_) => true
  {
    SentWithin(w, top, m, f.core);
    match job
    case AddrJob(x) =>
      HeldAddrsCount(f.jobs, x);
      assert x in Abs(f).queues.addrRequests;
    case TxJob(h) =>
      HeldHashesCount(f.jobs, h);
      assert h in Abs(f).queues.txRequests;
      RevealedGrows(w, Asked(w, SentPair(f.core)), Asked(w, m));
    case BlockJob(_) =>
  }

  /** Only blocks that the block finder asked for are ever in a backend's hands. */
  lemma {:induction false} AskedSomewhere(w: World, f: Floor, run: seq<Step<Effect>>, k: nat) returns (i: nat)
    requires FloorRun(w, f, run) && TimesAsked(w, f, run, BlockJob(k)) > 0
    ensures i < |run| && run[i] == AskBlock(k)
    decreases |run|
  {
    if Asks(w, f.core, run[0]) == Some(BlockJob(k)) {
      i := 0;
    } else {
      var j := AskedSomewhere(w, FloorApply(w, f, run[0]), run[1..], k);
      i := j + 1;
    }
  }
}
