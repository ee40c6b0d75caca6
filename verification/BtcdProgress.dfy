/** Fetching over the Btcd pool ends, and exactly when the pool panics on the way. */
module BtcdProgress {
  import opened Deriver
  import opened Wallet
  import opened Fetching
  import opened FetchingSafety
  import opened FetchingResults
  import opened FetchingProgress
  import opened Schedules
  import opened Workers
  import opened WorkersProgress
  import opened WorkersAnswers
  import opened Btcd
  import opened BtcdRuns

  /** Steps that a purpose still has before it, the later transactions of its listing included. */
  function PurposeWeight(k: Purpose): (r: nat)
    ensures r >= 5
  {
    if k.ForCache? && k.next < |k.txs| then 5 * (|k.txs| - k.next) else 5
  }

  /** How far a worker still has to go with the request in its hands. */
  function Weight(n: Node, v: Worker): nat {
    match v
    case Waiting => 0
    case Taken(AddrJob(x)) => 5 * |HistoryOf(n, x)| + 4
    case Taken(_) => 8
    case Fetching(_) => 7
    case Caching(_, txs, next) => if next < |txs| then 5 * (|txs| - next) + 2 else 2
    case Lookup(k) => PurposeWeight(k) + 1
    case AskNode(k) => PurposeWeight(k)
    case StoreHeight(k, _) => PurposeWeight(k) - 1
    case GotHeight(k, _) => PurposeWeight(k) - 2
    case Ready(_) => 1
  }

  function WeightOf(n: Node): Worker -> nat { (v: Worker) => Weight(n, v) }

  predicate Idle(s: Sys, a: Step<PoolAction>) {
    match a
    case ByCore(b) => s.core.sender.chain < 2 && Polls(s.core, b)
    case ByWorker(b) => b.Join? || b.Fault?
    case _ => true
  }

  predicate Over(s: Sys) { s.core.receiver.Returned? || s.pool.crash.Some? }

  lemma MoveLowers(n: Node, p: Pool, v: Worker)
    requires Safe(v) && !v.Waiting? && TrueWorker(n, v) && NextMove(n, p, v).To?
    ensures Weight(n, NextMove(n, p, v).next) < Weight(n, v)
  {
  }

  lemma SharedQueues(p: Pool, v: Worker)
    requires Safe(v)
    ensures Queued(Shared(p, v).channels) == Queued(p.channels) && Shared(p, v).workers == p.workers
  {
    if v.Ready? {
      QueuedDelivered(p.channels, v.response);
    }
  }

  /** A step of a worker takes a request out of its channel or brings one in hand forward. */
  lemma PoolLowers(n: Node, p: Pool, a: PoolAction, p': Pool)
    requires PoolEnabled(p, a) && p' == PoolApply(n, p, a) && p'.crash.None? && (a.Take? || a.Advance?)
    requires TrueWorkers(n, p.workers)
    ensures || Queued(p'.channels) < Queued(p.channels)
            || (Queued(p'.channels) == Queued(p.channels)
                && Load(p'.workers, WeightOf(n)) < Load(p.workers, WeightOf(n)))
  {
    match a
    case Take(i, job) => QueuedDequeued(p.channels, job);
    case Advance(i) =>
      var v := p.workers[i];
      assert TrueWorker(n, v);
      MoveLowers(n, p, v);
      SharedQueues(p, v);
      LoadUpdate(p.workers, WeightOf(n), i, NextMove(n, p, v).next);
  }

  ghost predicate BtcdInv(w: World, n: Node, top: Pair, s: Sys) {
    Transparent(n, s.pool) && RunInv(w, top, Workers.Abs(FloorOf(s)))
  }

  /** Requests not taken up yet, and one more while the program runs. */
  function Pending(p: Pool): nat { if p.crash.Some? then 0 else Queued(p.channels) + 1 }

  function MeasureOf(n: Node, top: Pair, s: Sys): Measure {
    if s.core.sender.chain < 2
    then Measure(RankOf(top, Workers.Abs(FloorOf(s))), Pending(s.pool), Load(s.pool.workers, WeightOf(n)))
    else Measure(Rank(0, 0, 0, 0, 0, 0, 0, 0, 0), 0, 0)
  }

  lemma StartSound(w: World, n: Node, top: Pair)
    requires w.Bounded(top)
    ensures BtcdInv(w, n, top, Start(w))
  {
    assert Workers.Abs(FloorOf(Start(w))) == Init(w);
    InitInv(w, top);
  }

  lemma StepTrue(w: World, n: Node, s: Sys, a: Step<PoolAction>, t: Sys)
    requires OneChain(n) && Transparent(n, s.pool) && StepEnabled(s, a) && t == StepApply(w, n, s, a)
    ensures Transparent(n, t.pool)
  {
    if a.ByWorker? {
      PoolKeepsTruth(n, s.pool, a.effect, t.pool);
    }
  }

  lemma StepSound(w: World, times: nat -> int, n: Node, top: Pair, s: Sys, a: Step<PoolAction>, t: Sys)
    requires w.Bounded(top) && OneChain(n) && Mirrors(w, times, n) && BtcdInv(w, n, top, s)
    requires StepEnabled(s, a) && t == StepApply(w, n, s, a)
    ensures BtcdInv(w, n, top, t)
  {
    StepTrue(w, n, s, a, t);
    TrueImage(w, times, n, s, a);
    ImageStep(w, n, s, a, t);
    StepRefines(w, times, FloorOf(s), Image(s, a), FloorOf(t), Shadow(Image(s, a)));
    ShadowKeepsInv(w, top, Workers.Abs(FloorOf(s)), Shadow(Image(s, a)), Workers.Abs(FloorOf(t)));
  }

  /** Every step that is not idle lowers the measure, a panic too. */
  lemma BtcdFalls(w: World, times: nat -> int, n: Node, top: Pair, s: Sys, a: Step<PoolAction>, t: Sys)
    requires w.Bounded(top) && OneChain(n) && Mirrors(w, times, n) && BtcdInv(w, n, top, s)
    requires StepEnabled(s, a) && t == StepApply(w, n, s, a) && !Idle(s, a)
    ensures Falls(MeasureOf(n, top, t), MeasureOf(n, top, s))
  {
    var f, g, b := FloorOf(s), FloorOf(t), Image(s, a);
    TrueImage(w, times, n, s, a);
    ImageStep(w, n, s, a, t);
    StepRefines(w, times, f, b, g, Shadow(b));
    ShadowFalls(w, top, Workers.Abs(f), Shadow(b), Workers.Abs(g));
    if a.ByWorker? && t.pool.crash.None? {
      PoolLowers(n, s.pool, a.effect, t.pool);
    } else if a.ByWorker? {
      PanicIsSilent(n, s.pool, a.effect, t.pool);
    }
  }

  lemma PanicIsSilent(n: Node, p: Pool, a: PoolAction, p': Pool)
    requires PoolEnabled(p, a) && p' == PoolApply(n, p, a) && p'.crash.Some?
    ensures EffectOf(p, a) == Silent
  {
  }

  ghost predicate CanWork(s: Sys) {
    exists a :: StepEnabled(s, a) && !Idle(s, a)
  }

  lemma HolderCanWork(n: Node, s: Sys, i: nat)
    requires s.pool.crash.None? && TrueWorkers(n, s.pool.workers)
    requires i < |s.pool.workers| && !s.pool.workers[i].Waiting?
    ensures CanWork(s)
  {
    assert TrueWorker(n, s.pool.workers[i]);
    var a := ByWorker(Advance(i));
    assert StepEnabled(s, a) && !Idle(s, a);
  }

  lemma WaitingCanWork(s: Sys, i: nat, job: Job)
    requires s.pool.crash.None? && i < |s.pool.workers| && s.pool.workers[i].Waiting?
    requires InQueue(s.pool.channels, job) > 0
    ensures CanWork(s)
  {
    var a := ByWorker(Take(i, job));
    assert StepEnabled(s, a) && !Idle(s, a);
  }

  lemma CoreWorks(s: Sys)
    requires s.pool.crash.None? && CoreCanWork(FloorOf(s))
    ensures CanWork(s)
  {
    var b :| FloorEnabled(FloorOf(s), ByCore(b)) && s.core.sender.chain < 2 && !Polls(s.core, b);
    var a: Step<PoolAction> := ByCore(b);
    assert StepEnabled(s, a) && !Idle(s, a);
  }

  lemma JobCanWork(n: Node, s: Sys, f: Floor, i: nat, job: Job)
    requires s.pool.crash.None? && TrueWorkers(n, s.pool.workers)
    requires i < |s.pool.workers| && s.pool.workers[i].Waiting? && f == FloorOf(s) && Outstanding(f, job) > 0
    ensures CanWork(s)
  {
    if InQueue(s.pool.channels, job) > 0 {
      WaitingCanWork(s, i, job);
    } else {
      var j := HolderOf(f.jobs, job);
      HolderCanWork(n, s, j);
    }
  }

  /** Before the end, and with any worker at all, some step brings the fetching forward. */
  lemma BtcdNeverStuck(w: World, n: Node, top: Pair, s: Sys)
    requires w.Bounded(top) && BtcdInv(w, n, top, s) && !Over(s) && s.pool.workers != []
    ensures CanWork(s)
  {
    var f := FloorOf(s);
    if !s.pool.workers[0].Waiting? {
      HolderCanWork(n, s, 0);
    } else {
      FloorHasWork(w, top, f);
      if CoreCanWork(f) {
        CoreWorks(s);
      } else {
        var job: Job :| !job.BlockJob? && Outstanding(f, job) > 0;
        JobCanWork(n, s, f, 0, job);
      }
    }
  }

  /** An infinite schedule; after the end nothing more happens. */
  ghost predicate Schedule(w: World, n: Node, states: nat -> Sys, steps: nat -> Step<PoolAction>) {
    && states(0) == Start(w)
    && forall k: nat {:trigger steps(k)} :: Follows(w, n, states(k), steps(k), states(k + 1))
  }

  ghost predicate Follows(w: World, n: Node, s: Sys, a: Step<PoolAction>, t: Sys) {
    if Over(s) then t == s else StepEnabled(s, a) && t == StepApply(w, n, s, a)
  }

  function IdleAt(states: nat -> Sys, steps: nat -> Step<PoolAction>): nat -> bool {
    (k: nat) => Idle(states(k), steps(k))
  }

  function OverAt(states: nat -> Sys): nat -> bool { (k: nat) => Over(states(k)) }

  function MeasureAt(n: Node, top: Pair, states: nat -> Sys): nat -> Measure {
    (k: nat) => MeasureOf(n, top, states(k))
  }

  lemma StepAt(w: World, n: Node, states: nat -> Sys, steps: nat -> Step<PoolAction>, k: nat)
    requires Schedule(w, n, states, steps)
    ensures Follows(w, n, states(k), steps(k), states(k + 1))
  {
  }

  ghost function SoundAt(w: World, n: Node, top: Pair, states: nat -> Sys): nat -> bool {
    (k: nat) => BtcdInv(w, n, top, states(k))
  }

  lemma StaysSound(w: World, times: nat -> int, n: Node, top: Pair,
                   states: nat -> Sys, steps: nat -> Step<PoolAction>, k: nat)
    requires w.Bounded(top) && OneChain(n) && Mirrors(w, times, n) && Schedule(w, n, states, steps)
    requires BtcdInv(w, n, top, states(k))
    ensures BtcdInv(w, n, top, states(k + 1))
  {
    StepAt(w, n, states, steps, k);
    if !Over(states(k)) {
      StepSound(w, times, n, top, states(k), steps(k), states(k + 1));
    }
  }

  lemma ScheduleSound(w: World, times: nat -> int, n: Node, top: Pair,
                      states: nat -> Sys, steps: nat -> Step<PoolAction>, k: nat)
    requires w.Bounded(top) && OneChain(n) && Mirrors(w, times, n) && Schedule(w, n, states, steps)
    ensures BtcdInv(w, n, top, states(k))
  {
    StartSound(w, n, top);
    forall i: nat ensures GoesOn(SoundAt(w, n, top, states), i) {
      if SoundAt(w, n, top, states)(i) {
        StaysSound(w, times, n, top, states, steps, i);
      }
    }
    AlwaysHolds(SoundAt(w, n, top, states), k);
  }

  lemma ScheduleFalls(w: World, times: nat -> int, n: Node, top: Pair,
                      states: nat -> Sys, steps: nat -> Step<PoolAction>, k: nat)
    requires w.Bounded(top) && OneChain(n) && Mirrors(w, times, n) && Schedule(w, n, states, steps)
    ensures FallsAt(MeasureAt(n, top, states), IdleAt(states, steps), OverAt(states), k)
  {
    ScheduleSound(w, times, n, top, states, steps, k);
    StepAt(w, n, states, steps, k);
    if !Over(states(k)) && !Idle(states(k), steps(k)) {
      BtcdFalls(w, times, n, top, states(k), steps(k), states(k + 1));
    }
  }

  lemma ScheduleFalling(w: World, times: nat -> int, n: Node, top: Pair,
                        states: nat -> Sys, steps: nat -> Step<PoolAction>)
    requires w.Bounded(top) && OneChain(n) && Mirrors(w, times, n) && Schedule(w, n, states, steps)
    ensures Falling(MeasureAt(n, top, states), IdleAt(states, steps), OverAt(states))
  {
    forall k: nat ensures FallsAt(MeasureAt(n, top, states), IdleAt(states, steps), OverAt(states), k) {
      ScheduleFalls(w, times, n, top, states, steps, k);
    }
  }

  lemma EndFetched(w: World, n: Node, top: Pair, s: Sys)
    requires BtcdInv(w, n, top, s) && s.core.receiver.Returned?
    ensures AllFetched(w, FloorOf(s))
  {
    SettledFloor(w, FloorOf(s));
  }

  /** Every schedule in which all but finitely many steps are not idle ends: with everything fetched, or
      with a panic. */
  lemma BtcdEnds(w: World, times: nat -> int, n: Node, top: Pair,
                 states: nat -> Sys, steps: nat -> Step<PoolAction>, patience: nat) returns (k: nat)
    requires w.Bounded(top) && OneChain(n) && Mirrors(w, times, n) && Schedule(w, n, states, steps)
    requires Patient(IdleAt(states, steps), OverAt(states), patience)
    ensures Over(states(k)) && (states(k).core.receiver.Returned? ==> AllFetched(w, FloorOf(states(k))))
  {
    ScheduleFalling(w, times, n, top, states, steps);
    k := ScheduleEnds(MeasureAt(n, top, states), IdleAt(states, steps), OverAt(states), patience, 0);
    ScheduleSound(w, times, n, top, states, steps, k);
    if states(k).core.receiver.Returned? {
      EndFetched(w, n, top, states(k));
    }
  }

  // ----- Within the limits -----

  /** No call to the node fails, and the block finder asks only for blocks that are there. */
  predicate Fine(n: Node, a: Step<PoolAction>) {
    !IsFault(a) && (a.AskBlock? ==> n.blockTime(a.height).Some?)
  }

  predicate Faultless(n: Node, run: seq<Step<PoolAction>>) {
    forall k :: 0 <= k < |run| ==> Fine(n, run[k])
  }

  ghost predicate Reaches(w: World, n: Node, s: Sys, run: seq<Step<PoolAction>>, t: Sys) {
    RunOf(w, n, s, run) && EndOf(w, n, s, run) == t
  }

  lemma {:induction false} ReachesOneMore(w: World, n: Node, s: Sys, run: seq<Step<PoolAction>>, t: Sys,
                                          a: Step<PoolAction>, u: Sys)
    requires Reaches(w, n, s, run, t) && StepEnabled(t, a) && u == StepApply(w, n, t, a)
    ensures Reaches(w, n, s, run + [a], u)
    decreases |run|
  {
    if run == [] {
      assert ([] + [a])[1..] == [] && EndOf(w, n, u, []) == u;
    } else {
      ReachesOneMore(w, n, StepApply(w, n, s, run[0]), run[1..], t, a, u);
      assert (run + [a])[1..] == run[1..] + [a];
    }
  }

  /** A schedule is, up to any point before its end, a run. */
  lemma {:induction false} SchedulePrefix(w: World, n: Node, states: nat -> Sys, steps: nat -> Step<PoolAction>, k: nat)
    returns (run: seq<Step<PoolAction>>)
    requires Schedule(w, n, states, steps)
    requires forall i :: Fine(n, steps(i))
    ensures Reaches(w, n, Start(w), run, states(k)) && Faultless(n, run)
  {
    if k == 0 {
      run := [];
    } else {
      run := SchedulePrefix(w, n, states, steps, k - 1);
      assert Follows(w, n, states(k - 1), steps(k - 1), states(k - 1 + 1));
      if !Over(states(k - 1)) {
        ReachesOneMore(w, n, Start(w), run, states(k - 1), steps(k - 1), states(k));
        run := run + [steps(k - 1)];
      }
    }
  }

  lemma FaultlessIsCalm(w: World, times: nat -> int, n: Node, top: Pair, m: Pair, run: seq<Step<PoolAction>>, s: Sys)
    requires w.Bounded(top) && OneChain(n) && Mirrors(w, times, n) && Reaches(w, n, Start(w), run, s)
    requires w.Closed(m) && WithinLimits(n, Asked(w, m)) && Faultless(n, run)
    ensures s.pool.crash.None?
  {
    forall k | 0 <= k < |run| && run[k].AskBlock? ensures n.blockTime(run[k].height).Some? {
      assert Fine(n, run[k]);
    }
    PanicsOnlyOnFailure(w, times, n, top, m, run);
    assert run != [] ==> Fine(n, run[|run| - 1]);
  }

  /** If the wallet's addresses are within the backend's limits and no call to the node fails, every such
      schedule ends with everything fetched. */
  lemma BtcdCompletes(w: World, times: nat -> int, n: Node, top: Pair, m: Pair,
                      states: nat -> Sys, steps: nat -> Step<PoolAction>, patience: nat) returns (k: nat)
    requires w.Bounded(top) && OneChain(n) && Mirrors(w, times, n) && Schedule(w, n, states, steps)
    requires w.Closed(m) && WithinLimits(n, Asked(w, m))
    requires forall i :: Fine(n, steps(i))
    requires Patient(IdleAt(states, steps), OverAt(states), patience)
    ensures states(k).core.receiver.Returned? && AllFetched(w, FloorOf(states(k)))
  {
    k := BtcdEnds(w, times, n, top, states, steps, patience);
    var run := SchedulePrefix(w, n, states, steps, k);
    FaultlessIsCalm(w, times, n, top, m, run, states(k));
  }

  // ----- Beyond the limits -----

  /** A schedule with one worker that is never idle again. */
  ghost function Choice(s: Sys): (a: Step<PoolAction>)
    ensures s.pool.crash.None? ==> StepEnabled(s, a)
    ensures !IsFault(a) && !a.AskBlock?
  {
    if s.pool.workers != [] && CanWork(s) then var a :| StepEnabled(s, a) && !Idle(s, a); a else ByWorker(Join)
  }

  ghost function StateAfter(w: World, n: Node, k: nat): Sys {
    if k == 0 then Start(w) else
      var s := StateAfter(w, n, k - 1);
      if Over(s) then s else StepApply(w, n, s, Choice(s))
  }

  ghost function ChosenStates(w: World, n: Node): nat -> Sys { (k: nat) => StateAfter(w, n, k) }

  ghost function ChosenSteps(w: World, n: Node): nat -> Step<PoolAction> { (k: nat) => Choice(StateAfter(w, n, k)) }

  ghost predicate Chosen(w: World, n: Node, states: nat -> Sys, steps: nat -> Step<PoolAction>) {
    Schedule(w, n, states, steps) && forall k: nat {:trigger steps(k)} :: steps(k) == Choice(states(k))
  }

  lemma ChosenIsSchedule(w: World, n: Node)
    ensures Chosen(w, n, ChosenStates(w, n), ChosenSteps(w, n))
  {
    forall k: nat ensures Follows(w, n, StateAfter(w, n, k), Choice(StateAfter(w, n, k)), StateAfter(w, n, k + 1)) {}
  }

  lemma WorkersStay(w: World, n: Node, s: Sys)
    requires !Over(s)
    ensures StepApply(w, n, s, Choice(s)).pool.workers != []
  {
  }

  lemma ChoiceWorks(w: World, times: nat -> int, n: Node, top: Pair,
                    states: nat -> Sys, steps: nat -> Step<PoolAction>, k: nat)
    requires w.Bounded(top) && OneChain(n) && Mirrors(w, times, n) && Chosen(w, n, states, steps)
    requires !Over(states(k)) && states(k).pool.workers != []
    ensures !Idle(states(k), steps(k))
  {
    ScheduleSound(w, times, n, top, states, steps, k);
    BtcdNeverStuck(w, n, top, states(k));
    assert steps(k) == Choice(states(k));
  }

  /** The first step brings a worker in, and no later one is idle. */
  ghost predicate IdleOnce(states: nat -> Sys, idle: nat -> bool, k: nat) {
    Over(states(k)) || k == 0 || (states(k).pool.workers != [] && IdleUpTo(idle, k) <= 1)
  }

  ghost function IdleOnceAt(states: nat -> Sys, idle: nat -> bool): nat -> bool {
    (k: nat) => IdleOnce(states, idle, k)
  }

  lemma StaysIdleOnce(w: World, times: nat -> int, n: Node, top: Pair,
                      states: nat -> Sys, steps: nat -> Step<PoolAction>, k: nat)
    requires w.Bounded(top) && OneChain(n) && Mirrors(w, times, n) && Chosen(w, n, states, steps)
    requires IdleOnce(states, IdleAt(states, steps), k)
    ensures IdleOnce(states, IdleAt(states, steps), k + 1)
  {
    StepAt(w, n, states, steps, k);
    if !Over(states(k)) {
      assert steps(k) == Choice(states(k));
      WorkersStay(w, n, states(k));
      if k > 0 {
        ChoiceWorks(w, times, n, top, states, steps, k);
      }
    }
  }

  lemma IdleOnceGoesOn(w: World, times: nat -> int, n: Node, top: Pair,
                       states: nat -> Sys, steps: nat -> Step<PoolAction>, holds: nat -> bool, k: nat)
    requires w.Bounded(top) && OneChain(n) && Mirrors(w, times, n) && Chosen(w, n, states, steps)
    requires holds == IdleOnceAt(states, IdleAt(states, steps)) && holds(k)
    ensures holds(k + 1)
  {
    StaysIdleOnce(w, times, n, top, states, steps, k);
  }

  lemma AlwaysIdleOnce(w: World, times: nat -> int, n: Node, top: Pair,
                       states: nat -> Sys, steps: nat -> Step<PoolAction>, holds: nat -> bool, k: nat)
    requires w.Bounded(top) && OneChain(n) && Mirrors(w, times, n) && Chosen(w, n, states, steps)
    requires holds == IdleOnceAt(states, IdleAt(states, steps))
    ensures holds(k)
  {
    assert holds(0);
    forall i: nat ensures GoesOn(holds, i) {
      if holds(i) {
        IdleOnceGoesOn(w, times, n, top, states, steps, holds, i);
      }
    }
    AlwaysHolds(holds, k);
  }

  lemma OnceIsPatient(states: nat -> Sys, idle: nat -> bool, over: nat -> bool, k: nat)
    requires over == OverAt(states) && IdleOnce(states, idle, k)
    ensures PatientAt(idle, over, 1, k)
  {
  }

  lemma ChosenIsPatient(w: World, times: nat -> int, n: Node, top: Pair,
                        states: nat -> Sys, steps: nat -> Step<PoolAction>)
    requires w.Bounded(top) && OneChain(n) && Mirrors(w, times, n) && Chosen(w, n, states, steps)
    ensures Patient(IdleAt(states, steps), OverAt(states), 1)
  {
    var idle, over := IdleAt(states, steps), OverAt(states);
    forall k: nat ensures PatientAt(idle, over, 1, k) {
      AlwaysIdleOnce(w, times, n, top, states, steps, IdleOnceAt(states, idle), k);
      OnceIsPatient(states, idle, over, k);
    }
  }

  /** There is a run to the end without a failing call. */
  lemma FaultlessRun(w: World, times: nat -> int, n: Node, top: Pair) returns (run: seq<Step<PoolAction>>)
    requires w.Bounded(top) && OneChain(n) && Mirrors(w, times, n)
    ensures RunOf(w, n, Start(w), run) && Faultless(n, run) && Over(EndOf(w, n, Start(w), run))
  {
    ChosenIsSchedule(w, n);
    run := ChosenRun(w, times, n, top, ChosenStates(w, n), ChosenSteps(w, n));
  }

  lemma ChosenRun(w: World, times: nat -> int, n: Node, top: Pair,
                  states: nat -> Sys, steps: nat -> Step<PoolAction>) returns (run: seq<Step<PoolAction>>)
    requires w.Bounded(top) && OneChain(n) && Mirrors(w, times, n) && Chosen(w, n, states, steps)
    ensures RunOf(w, n, Start(w), run) && Faultless(n, run) && Over(EndOf(w, n, Start(w), run))
  {
    ChosenIsPatient(w, times, n, top, states, steps);
    var k := BtcdEnds(w, times, n, top, states, steps, 1);
    forall i: nat ensures Fine(n, steps(i)) {
      assert steps(i) == Choice(states(i));
    }
    run := SchedulePrefix(w, n, states, steps, k);
  }

  /** A run that has returned had every request for the wallet's addresses and transactions answered by
      the node: so the node can serve them. */
  lemma ReturnedWasServed(w: World, times: nat -> int, n: Node, top: Pair, m: Pair, run: seq<Step<PoolAction>>)
    requires w.Bounded(top) && OneChain(n) && Mirrors(w, times, n) && RunOf(w, n, Start(w), run) && w.LeastClosed(m)
    requires EndOf(w, n, Start(w), run).core.receiver.Returned?
    ensures WithinLimits(n, Asked(w, m))
  {
    var s, image := EndOf(w, n, Start(w), run), ImageOf(w, n, Start(w), run);
    BtcdFetches(w, times, n, top, run);
    BtcdAnswers(w, times, n, Start(w), run);
    assert FloorOf(Start(w)) == Opening(w);
    ReachableInv(w, times, top, image);
    w.LeastUnique(m, s.core.lastAddresses);
    forall x | x in Asked(w, m) && n.search(x).Some?
      ensures !TooMany(n, x) && AllMined(n, n.search(x).value)
    {
      AddressWasServed(w, times, n, top, image, x);
      forall i | 0 <= i < |n.search(x).value| ensures n.blockHeight(n.search(x).value[i].blockHash).Some? {
        TransactionWasServed(w, n, image, m, x, i);
      }
    }
  }

  lemma AddressWasServed(w: World, times: nat -> int, n: Node, top: Pair, image: seq<Step<Effect>>, x: Address)
    requires w.Bounded(top) && FloorRun(w, Opening(w), image) && HonestRun(w, times, image) && TrueAnswers(n, image)
    requires Settled(w, Workers.Abs(FloorEnd(w, Opening(w), image)))
    requires x in Asked(w, FloorEnd(w, Opening(w), image).core.lastAddresses)
    ensures !TooMany(n, x)
  {
    assert Workers.Abs(Opening(w)) == Init(w);
    InitInv(w, top);
    SentWasAsked(w, times, top, Opening(w), image, x);
    RunConserves(w, Opening(w), image, AddrJob(x));
    SettledFloor(w, FloorEnd(w, Opening(w), image));
    var k := AnsweredSomewhere(image, AddrJob(x));
    assert TrueAnswer(n, image[k]);
  }

  lemma TransactionWasServed(w: World, n: Node, image: seq<Step<Effect>>, m: Pair, x: Address, i: nat)
    requires FloorRun(w, Opening(w), image) && TrueAnswers(n, image) && OneChain(n)
    requires Fetched(w, m, FloorEnd(w, Opening(w), image).core) && x in Asked(w, m) && w.history(x) == HistoryOf(n, x)
    requires n.search(x).Some? && i < |n.search(x).value|
    ensures n.blockHeight(n.search(x).value[i].blockHash).Some?
  {
    var h := n.search(x).value[i].txid;
    assert HistoryOf(n, x)[i] == h && h in w.history(x);
    assert h in Revealed(w, Asked(w, m));
    BackWasAnswered(w, Opening(w), image, h);
    var k := AnsweredSomewhere(image, TxJob(h));
    assert TrueAnswer(n, image[k]);
  }

  /** Exactly when some address of the wallet that has to be asked for has over 1000 transactions, or one
      outside the known blocks, there is a run in which the program panics although no call to the node
      fails. */
  lemma PanicsExactly(w: World, times: nat -> int, n: Node, top: Pair, m: Pair)
    requires w.Bounded(top) && w.LeastClosed(m) && OneChain(n) && Mirrors(w, times, n)
    ensures (exists run ::
               RunOf(w, n, Start(w), run) && Faultless(n, run) && EndOf(w, n, Start(w), run).pool.crash.Some?)
       <==> !WithinLimits(n, Asked(w, m))
  {
    if run :| RunOf(w, n, Start(w), run) && Faultless(n, run) && EndOf(w, n, Start(w), run).pool.crash.Some?
              && WithinLimits(n, Asked(w, m)) {
      FaultlessIsCalm(w, times, n, top, m, run, EndOf(w, n, Start(w), run));
    }
    if !WithinLimits(n, Asked(w, m)) {
      var run := FaultlessRun(w, times, n, top);
      if EndOf(w, n, Start(w), run).core.receiver.Returned? {
        ReturnedWasServed(w, times, n, top, m, run);
      }
    }
  }
}
