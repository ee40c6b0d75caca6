/** What progress of the fetch protocol means on a floor of workers. */
module WorkersProgress {
  import opened Basics
  import opened Wallet
  import opened Fetching
  import opened FetchingSafety
  import opened FetchingResults
  import opened FetchingProgress
  import opened Workers

  /** The accounter goes round without work. */
  predicate Polls(c: Core, b: CoreAction)
    requires c.sender.chain < 2
  {
    || ((b == Send(ReadLimit) || b == Send(SkipChain)) && !Ready(c, 0) && !Ready(c, 1))
    || (b == Tick && !Complete(c))
  }

  /** A shadow keeps the invariant of the protocol; an empty one changes nothing there, and any other
      lowers the rank, unless the accounter only polls. */
  lemma ShadowKeepsInv(w: World, top: Pair, s: State, shadow: seq<Action>, t: State)
    requires w.Bounded(top) && RunInv(w, top, s) && Leads(w, s, shadow, t)
    ensures RunInv(w, top, t)
  {
    RunKeepsInv(w, top, s, shadow);
  }

  lemma ShadowFalls(w: World, top: Pair, s: State, shadow: seq<Action>, t: State)
    requires w.Bounded(top) && Inv(w, top, s) && |shadow| <= 1 && Leads(w, s, shadow, t)
    ensures s.core.sender.chain < 2 && t.core.sender.chain < 2
    ensures if shadow == [] then t == s
            else (shadow[0].CoreStep? && Polls(s.core, shadow[0].step)) || Below(RankOf(top, t), RankOf(top, s))
  {
    DerivationsNonNegative(w, top, s.core);
    if shadow != [] {
      LeadsByOne(w, s, shadow, t);
      StepFalls(w, top, s, shadow[0], t);
    }
  }

  lemma LeadsByOne(w: World, s: State, shadow: seq<Action>, t: State)
    requires |shadow| == 1 && Leads(w, s, shadow, t)
    ensures Enabled(s, shadow[0]) && Apply(w, s, shadow[0]) == t
  {
    assert shadow[1..] == [];
    assert End(w, Apply(w, s, shadow[0]), []) == Apply(w, s, shadow[0]);
  }

  lemma PollsIsSpins(s: State, b: CoreAction)
    requires s.core.sender.chain < 2 && Enabled(s, CoreStep(b))
    ensures Spins(s, CoreStep(b)) <==> Polls(s.core, b)
  {
  }

  lemma StepFalls(w: World, top: Pair, s: State, a: Action, t: State)
    requires w.Bounded(top) && Inv(w, top, s) && Enabled(s, a) && t == Apply(w, s, a)
    ensures t.core.sender.chain < 2
    ensures !(a.CoreStep? && Polls(s.core, a.step)) ==> Below(RankOf(top, t), RankOf(top, s))
  {
    EveryStepProgresses(w, top, s, a);
    if a.CoreStep? {
      PollsIsSpins(s, a.step);
    } else {
      assert !Spins(s, a);
    }
  }

  ghost predicate CoreCanWork(f: Floor) {
    exists b :: FloorEnabled(f, ByCore(b)) && f.core.sender.chain < 2 && !Polls(f.core, b)
  }

  ghost predicate HasWork(f: Floor) {
    exists job: Job :: !job.BlockJob? && Outstanding(f, job) > 0
  }

  /** Until recvWork returns, the accounter can do more than poll, or a request waits for an answer. */
  lemma FloorHasWork(w: World, top: Pair, f: Floor)
    requires w.Bounded(top) && Inv(w, top, Abs(f)) && !f.core.receiver.Returned?
    ensures CoreCanWork(f) || HasWork(f)
  {
    NeverStuck(w, top, Abs(f));
    var a :| Enabled(Abs(f), a) && !Spins(Abs(f), a);
    DerivationsNonNegative(w, top, f.core);
    WorkFor(f, a);
  }

  lemma WorkFor(f: Floor, a: Action)
    requires f.core.sender.chain < 2 && Enabled(Abs(f), a) && !Spins(Abs(f), a)
    ensures CoreCanWork(f) || HasWork(f)
  {
    match a
    case CoreStep(b) =>
      PollsIsSpins(Abs(f), b);
      assert FloorEnabled(f, ByCore(b)) && !Polls(f.core, b);
    case AnswerAddr(x) =>
      HeldAddrsCount(f.jobs, x);
      assert Outstanding(f, AddrJob(x)) > 0;
    case AnswerTx(h) =>
      HeldHashesCount(f.jobs, h);
      assert Outstanding(f, TxJob(h)) > 0;
  }

  lemma {:induction false} HolderOf(jobs: seq<Option<Job>>, job: Job) returns (i: nat)
    requires Holders(jobs, job) > 0
    ensures i < |jobs| && jobs[i] == Some(job)
    decreases |jobs|
  {
    if jobs[|jobs| - 1] == Some(job) {
      i := |jobs| - 1;
    } else {
      i := HolderOf(jobs[..|jobs| - 1], job);
    }
  }

  /** The sum of the workers' weights. */
  function Load<V>(workers: seq<V>, weight: V -> nat): nat {
    if workers == [] then 0 else Load(workers[..|workers| - 1], weight) + weight(workers[|workers| - 1])
  }

  lemma {:induction false} LoadUpdate<V>(workers: seq<V>, weight: V -> nat, i: nat, v: V)
    requires i < |workers|
    ensures Load(workers[i := v], weight) + weight(workers[i]) == Load(workers, weight) + weight(v)
    decreases |workers|
  {
    var n := |workers| - 1;
    if i < n {
      LoadUpdate(workers[..n], weight, i, v);
      assert workers[i := v][..n] == workers[..n][i := v];
    } else {
      assert workers[i := v][..n] == workers[..n];
    }
  }

  function Queued(ch: Channels): nat {
    |ch.queues.addrRequests| + |ch.queues.txRequests| + |ch.blockRequests|
  }

  lemma QueuedDequeued(ch: Channels, job: Job)
    requires InQueue(ch, job) > 0
    ensures Queued(Dequeued(ch, job)) == Queued(ch) - 1
  {
  }

  lemma QueuedRequeued(ch: Channels, job: Job)
    ensures Queued(Requeued(ch, job)) == Queued(ch) + 1
  {
  }

  lemma QueuedDelivered(ch: Channels, r: Response)
    ensures Queued(Delivered(ch, r)) == Queued(ch)
  {
  }
}
