/** Fetching over the Electrum pool ends while some node keeps working, however often others fail. */
module ElectrumProgress {
  import opened Basics
  import opened Wallet
  import opened Fetching
  import opened FetchingResults
  import opened FetchingProgress
  import opened Schedules
  import opened Workers
  import opened WorkersProgress
  import opened Electrum
  import opened ElectrumRuns
  import opened ElectrumFailures

  /** How far a worker still has to go with the request in its hands. */
  function Weight(v: Worker): nat {
    match v
    case Failed(_) => 6
    case Calling(_) => 4
    case GotHistory(_, _) => 3
    case GotTx(_, _) => 3
    case Listed(_) => 2
    case Priced(_) => 2
    case GotBlock(_) => 2
    case _ => 0
  }

  function Left(p: Pool): nat { 5 * Queued(p.channels) + Load(p.workers, Weight) }

  /** Steps that need not bring the fetching forward: a poll, a new node, and what the block finder does. */
  predicate Idle(s: Sys, a: Step<PoolAction>) {
    match a
    case ByCore(b) => s.core.sender.chain < 2 && Polls(s.core, b)
    case ByWorker(b) => b.Join?
    case _ => true
  }

  lemma AdvanceWeighs(heights: map<string, int>, v: Worker)
    requires Busy(v) && Crashes(heights, v).None?
    ensures Weight(Next(heights, v)) + (if v.Failed? then 6 else 1) <= Weight(v)
  {
  }

  lemma AdvanceQueues(p: Pool, v: Worker)
    requires Busy(v) && Crashes(p.heights, v).None?
    ensures Queued(Shared(p, v).channels) == Queued(p.channels) + if v.Failed? then 1 else 0
    ensures Shared(p, v).workers == p.workers
  {
    match v
    case Failed(job) => QueuedRequeued(p.channels, job);
    case Listed(r) => QueuedDelivered(p.channels, AddrDone(r));
    case Priced(r) => QueuedDelivered(p.channels, TxDone(r));
    case GotBlock(r) => QueuedDelivered(p.channels, BlockDone(r));
    case _ =>
  }

  lemma AdvanceLowers(p: Pool, i: nat, p': Pool)
    requires i < |p.workers| && Busy(p.workers[i]) && p' == Advanced(p, i) && p'.crash.None?
    ensures Left(p') < Left(p)
  {
    var v := p.workers[i];
    AdvanceWeighs(p.heights, v);
    AdvanceQueues(p, v);
    LoadUpdate(p.workers, Weight, i, Next(p.heights, v));
  }

  lemma TakeLowers(p: Pool, i: nat, job: Job, p': Pool)
    requires i < |p.workers| && p.workers[i].Waiting? && InQueue(p.channels, job) > 0
    requires p' == Moved(p.(channels := Dequeued(p.channels, job)), i, Calling(job))
    ensures Left(p') < Left(p)
  {
    QueuedDequeued(p.channels, job);
    LoadUpdate(p.workers, Weight, i, Calling(job));
  }

  lemma HearLowers(p: Pool, i: nat, r: Reply, p': Pool)
    requires i < |p.workers| && p.workers[i].Calling? && Fits(p.workers[i].job, r) && !r.Error?
    requires p' == Heard(p, i, p.workers[i].job, r) && p'.crash.None?
    ensures Left(p') < Left(p)
  {
    LoadUpdate(p.workers, Weight, i, p'.workers[i]);
  }

  lemma WorkLowers(p: Pool, a: PoolAction, p': Pool)
    requires PoolEnabled(p, a) && p' == PoolApply(p, a) && p'.crash.None? && !a.Join? && !NodeFails(a)
    ensures Left(p') < Left(p)
  {
    match a
    case Take(i, job) => TakeLowers(p, i, job, p');
    case Hear(i, r) => HearLowers(p, i, r, p');
    case Advance(i) => AdvanceLowers(p, i, p');
    case _ =>
  }

  /** Every step of the pool that is not idle brings the work in it forward, or costs it a node. */
  lemma PoolLowers(p: Pool, a: PoolAction, p': Pool)
    requires PoolEnabled(p, a) && p' == PoolApply(p, a) && p'.crash.None? && !a.Join?
    ensures Alive(p') < Alive(p) || (Alive(p') == Alive(p) && Left(p') < Left(p))
  {
    PoolCounts(p, a, p');
    if !NodeFails(a) {
      WorkLowers(p, a, p');
    }
  }

  /** The invariant of honest runs. */
  ghost predicate ElectrumInv(w: World, times: nat -> int, top: Pair, s: Sys) {
    CacheInv(s) && TruthInv(w, times, s.pool) && RunInv(w, top, Workers.Abs(FloorOf(s)))
  }

  function MeasureOf(top: Pair, s: Sys): Measure {
    if s.core.sender.chain < 2 then Measure(RankOf(top, Workers.Abs(FloorOf(s))), Alive(s.pool), Left(s.pool))
    else Measure(Rank(0, 0, 0, 0, 0, 0, 0, 0, 0), 0, 0)
  }

  lemma StartSound(w: World, times: nat -> int, top: Pair)
    requires w.Bounded(top)
    ensures ElectrumInv(w, times, top, Start(w))
  {
    assert Workers.Abs(FloorOf(Start(w))) == Init(w);
    FetchingSafety.InitInv(w, top);
  }

  lemma StepSound(w: World, times: nat -> int, top: Pair, s: Sys, a: Step<PoolAction>, t: Sys)
    requires w.Bounded(top) && ElectrumInv(w, times, top, s)
    requires StepEnabled(s, a) && t == StepApply(w, s, a) && HonestHearing(w, times, s, a)
    ensures ElectrumInv(w, times, top, t)
  {
    StepKeepsCache(w, s, a, t);
    StepKeepsTruth(w, times, s, a, t);
    TrueImage(w, times, s, a);
    ImageStep(w, s, a, t);
    StepRefines(w, times, FloorOf(s), Image(s, a), FloorOf(t), Shadow(Image(s, a)));
    ShadowKeepsInv(w, top, Workers.Abs(FloorOf(s)), Shadow(Image(s, a)), Workers.Abs(FloorOf(t)));
  }

  /** Every step that is not idle lowers the measure. */
  lemma ElectrumFalls(w: World, times: nat -> int, top: Pair, s: Sys, a: Step<PoolAction>, t: Sys)
    requires w.Bounded(top) && ElectrumInv(w, times, top, s)
    requires StepEnabled(s, a) && t == StepApply(w, s, a) && HonestHearing(w, times, s, a) && !Idle(s, a)
    ensures Falls(MeasureOf(top, t), MeasureOf(top, s))
  {
    var f, g, b := FloorOf(s), FloorOf(t), Image(s, a);
    TrueImage(w, times, s, a);
    ImageStep(w, s, a, t);
    StepRefines(w, times, f, b, g, Shadow(b));
    ShadowFalls(w, top, Workers.Abs(f), Shadow(b), Workers.Abs(g));
    if a.ByWorker? {
      StepKeepsTruth(w, times, s, a, t);
      PoolLowers(s.pool, a.effect, t.pool);
    }
  }

  /** Some honest step is enabled that is neither idle nor a failure. */
  ghost predicate CanWork(w: World, times: nat -> int, s: Sys) {
    exists a :: StepEnabled(s, a) && HonestHearing(w, times, s, a) && !Idle(s, a) && !Fails(a)
  }

  function TrueReply(w: World, times: nat -> int, job: Job): Reply {
    match job
    case AddrJob(x) => History(TrueHistory(w, x))
    case TxJob(h) => Raw(w.tx(h).hex)
    case BlockJob(k) => Header(Some(times(k)))
  }

  lemma HolderCanWork(w: World, times: nat -> int, s: Sys, i: nat)
    requires s.pool.crash.None? && i < |s.pool.workers| && JobOf(s.pool.workers[i]).Some?
    ensures CanWork(w, times, s)
  {
    var v := s.pool.workers[i];
    var a := ByWorker(if v.Calling? then Hear(i, TrueReply(w, times, v.job)) else Advance(i));
    assert StepEnabled(s, a) && HonestHearing(w, times, s, a) && !Idle(s, a) && !Fails(a);
  }

  lemma WaitingCanWork(w: World, times: nat -> int, s: Sys, i: nat, job: Job)
    requires s.pool.crash.None? && i < |s.pool.workers| && s.pool.workers[i].Waiting?
    requires InQueue(s.pool.channels, job) > 0
    ensures CanWork(w, times, s)
  {
    var a := ByWorker(Take(i, job));
    assert StepEnabled(s, a) && HonestHearing(w, times, s, a) && !Idle(s, a) && !Fails(a);
  }

  lemma CoreWorks(w: World, times: nat -> int, s: Sys)
    requires s.pool.crash.None? && CoreCanWork(FloorOf(s))
    ensures CanWork(w, times, s)
  {
    var b :| FloorEnabled(FloorOf(s), ByCore(b)) && s.core.sender.chain < 2 && !Polls(s.core, b);
    var a: Step<PoolAction> := ByCore(b);
    assert StepEnabled(s, a) && HonestHearing(w, times, s, a) && !Idle(s, a) && !Fails(a);
  }

  lemma JobCanWork(w: World, times: nat -> int, s: Sys, f: Floor, i: nat, job: Job)
    requires s.pool.crash.None? && i < |s.pool.workers| && s.pool.workers[i].Waiting?
    requires f == FloorOf(s) && Outstanding(f, job) > 0
    ensures CanWork(w, times, s)
  {
    if InQueue(s.pool.channels, job) > 0 {
      WaitingCanWork(w, times, s, i, job);
    } else {
      var j := HolderOf(f.jobs, job);
      HolderCanWork(w, times, s, j);
    }
  }

  /** Until recvWork returns, and while some node is left, some step brings the fetching forward. */
  lemma ElectrumNeverStuck(w: World, times: nat -> int, top: Pair, s: Sys, i: nat)
    requires w.Bounded(top) && ElectrumInv(w, times, top, s) && !s.core.receiver.Returned?
    requires i < |s.pool.workers| && !s.pool.workers[i].Stopped?
    ensures CanWork(w, times, s)
  {
    var f := FloorOf(s);
    if JobOf(s.pool.workers[i]).Some? {
      HolderCanWork(w, times, s, i);
    } else {
      FloorHasWork(w, top, f);
      if CoreCanWork(f) {
        CoreWorks(w, times, s);
      } else {
        var job: Job :| !job.BlockJob? && Outstanding(f, job) > 0;
        JobCanWork(w, times, s, f, i, job);
      }
    }
  }

  lemma {:induction false} RunSound(w: World, times: nat -> int, top: Pair, s: Sys, run: seq<Step<PoolAction>>)
    requires w.Bounded(top) && ElectrumInv(w, times, top, s) && RunOf(w, s, run) && HonestServers(w, times, s, run)
    ensures ElectrumInv(w, times, top, EndOf(w, s, run))
    decreases |run|
  {
    if run != [] {
      StepSound(w, times, top, s, run[0], StepApply(w, s, run[0]));
      RunSound(w, times, top, StepApply(w, s, run[0]), run[1..]);
    }
  }

  /** No reachable state is stuck before recvWork has returned, unless every node has failed. */
  lemma ElectrumCanWork(w: World, times: nat -> int, top: Pair, run: seq<Step<PoolAction>>)
    requires w.Bounded(top) && RunOf(w, Start(w), run) && HonestServers(w, times, Start(w), run)
    ensures var s := EndOf(w, Start(w), run);
      s.core.receiver.Returned? || CanWork(w, times, s) || forall v :: v in s.pool.workers ==> v.Stopped?
  {
    var s := EndOf(w, Start(w), run);
    StartSound(w, times, top);
    RunSound(w, times, top, Start(w), run);
    if v :| v in s.pool.workers && !v.Stopped? && !s.core.receiver.Returned? {
      var i :| 0 <= i < |s.pool.workers| && s.pool.workers[i] == v;
      ElectrumNeverStuck(w, times, top, s, i);
    }
  }

  /** An infinite schedule of honest steps; after the end nothing more happens. */
  ghost predicate Schedule(w: World, times: nat -> int, states: nat -> Sys, steps: nat -> Step<PoolAction>) {
    && states(0) == Start(w)
    && forall k: nat {:trigger steps(k)} :: Follows(w, times, states(k), steps(k), states(k + 1))
  }

  ghost predicate Follows(w: World, times: nat -> int, s: Sys, a: Step<PoolAction>, t: Sys) {
    if s.core.receiver.Returned? then t == s
    else StepEnabled(s, a) && HonestHearing(w, times, s, a) && t == StepApply(w, s, a)
  }

  lemma StepAt(w: World, times: nat -> int, states: nat -> Sys, steps: nat -> Step<PoolAction>, k: nat)
    requires Schedule(w, times, states, steps)
    ensures Follows(w, times, states(k), steps(k), states(k + 1))
  {
  }

  ghost function SoundAt(w: World, times: nat -> int, top: Pair, states: nat -> Sys): nat -> bool {
    (k: nat) => ElectrumInv(w, times, top, states(k))
  }

  lemma StaysSound(w: World, times: nat -> int, top: Pair, states: nat -> Sys, steps: nat -> Step<PoolAction>, k: nat)
    requires w.Bounded(top) && Schedule(w, times, states, steps) && ElectrumInv(w, times, top, states(k))
    ensures ElectrumInv(w, times, top, states(k + 1))
  {
    StepAt(w, times, states, steps, k);
    if !states(k).core.receiver.Returned? {
      StepSound(w, times, top, states(k), steps(k), states(k + 1));
    }
  }

  lemma ScheduleSound(w: World, times: nat -> int, top: Pair,
                      states: nat -> Sys, steps: nat -> Step<PoolAction>, k: nat)
    requires w.Bounded(top) && Schedule(w, times, states, steps)
    ensures ElectrumInv(w, times, top, states(k))
  {
    StartSound(w, times, top);
    forall i: nat ensures GoesOn(SoundAt(w, times, top, states), i) {
      if SoundAt(w, times, top, states)(i) {
        StaysSound(w, times, top, states, steps, i);
      }
    }
    AlwaysHolds(SoundAt(w, times, top, states), k);
  }

  function IdleAt(states: nat -> Sys, steps: nat -> Step<PoolAction>): nat -> bool {
    (k: nat) => Idle(states(k), steps(k))
  }

  function ReturnedAt(states: nat -> Sys): nat -> bool {
    (k: nat) => states(k).core.receiver.Returned?
  }

  function MeasureAt(top: Pair, states: nat -> Sys): nat -> Measure {
    (k: nat) => MeasureOf(top, states(k))
  }

  lemma ScheduleFalls(w: World, times: nat -> int, top: Pair,
                      states: nat -> Sys, steps: nat -> Step<PoolAction>, k: nat)
    requires w.Bounded(top) && Schedule(w, times, states, steps)
    ensures FallsAt(MeasureAt(top, states), IdleAt(states, steps), ReturnedAt(states), k)
  {
    ScheduleSound(w, times, top, states, steps, k);
    StepAt(w, times, states, steps, k);
    if !states(k).core.receiver.Returned? && !Idle(states(k), steps(k)) {
      ElectrumFalls(w, times, top, states(k), steps(k), states(k + 1));
    }
  }

  lemma ScheduleFalling(w: World, times: nat -> int, top: Pair, states: nat -> Sys, steps: nat -> Step<PoolAction>)
    requires w.Bounded(top) && Schedule(w, times, states, steps)
    ensures Falling(MeasureAt(top, states), IdleAt(states, steps), ReturnedAt(states))
  {
    forall k: nat ensures FallsAt(MeasureAt(top, states), IdleAt(states, steps), ReturnedAt(states), k) {
      ScheduleFalls(w, times, top, states, steps, k);
    }
  }

  lemma EndFetched(w: World, times: nat -> int, top: Pair, s: Sys)
    requires ElectrumInv(w, times, top, s) && s.core.receiver.Returned?
    ensures AllFetched(w, FloorOf(s))
  {
    SettledFloor(w, FloorOf(s));
  }

  /** Every schedule ends with everything fetched, in which all but finitely many steps are not idle:
      whatever the order of steps, and whichever nodes fail and whenever. */
  lemma ElectrumEnds(w: World, times: nat -> int, top: Pair,
                     states: nat -> Sys, steps: nat -> Step<PoolAction>, patience: nat) returns (n: nat)
    requires w.Bounded(top) && Schedule(w, times, states, steps)
    requires Patient(IdleAt(states, steps), ReturnedAt(states), patience)
    ensures states(n).core.receiver.Returned? && AllFetched(w, FloorOf(states(n)))
  {
    ScheduleFalling(w, times, top, states, steps);
    n := ScheduleEnds(MeasureAt(top, states), IdleAt(states, steps), ReturnedAt(states), patience, 0);
    ScheduleSound(w, times, top, states, steps, n);
    EndFetched(w, times, top, states(n));
  }
}
