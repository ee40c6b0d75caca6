/** A replay ends, with the result of the recorded run. */
module ReplayProgress {
  import opened Wallet
  import opened Fetching
  import opened FetchingResults
  import opened FetchingProgress
  import opened Schedules
  import opened Workers
  import opened WorkersProgress
  import opened Recorder
  import opened Replay
  import RecorderRuns
  import RecorderProgress

  /** How far the goroutine is from its next select. */
  function Handling(s: Sys): nat {
    if s.panicked then 0 else if s.hand.Looking? then 2 else if s.hand.Sending? then 1 else 0
  }

  /** The accounter polls, the goroutine takes one of its own responses back, or the block finder asks
      or listens. */
  predicate Idle(s: Sys, a: Step<FixAction>) {
    match a
    case ByCore(b) => s.core.sender.chain < 2 && Polls(s.core, b)
    case ByWorker(b) => b.TakeBack?
    case _ => true
  }

  predicate Over(s: Sys) { s.core.receiver.Returned? || s.panicked }

  function MeasureOf(limits: Pair, s: Sys): Measure {
    if s.core.sender.chain < 2
    then Measure(RankOf(limits, Replay.Abs(s)), Queued(s.channels), Handling(s))
    else Measure(Rank(0, 0, 0, 0, 0, 0, 0, 0, 0), 0, 0)
  }

  /** A step that the fetch protocol does not see takes a request up or brings one in hand forward. */
  lemma SilentLowers(v: World, index: Index, s: Sys, e: FixAction, t: Sys)
    requires StepEnabled(s, ByWorker(e)) && t == StepApply(v, index, s, ByWorker(e))
    requires !e.TakeBack? && Replay.Shadow(s, ByWorker(e)) == []
    ensures Queued(t.channels) < Queued(s.channels)
         || (Queued(t.channels) == Queued(s.channels) && Handling(t) < Handling(s))
  {
    match e
    case Take(job) => QueuedDequeued(s.channels, job);
    case Proceed =>
      if s.hand.Sending? {
        QueuedDelivered(s.channels, s.hand.response);
      }
  }

  lemma NotPolling(s: Sys, a: Step<FixAction>, shadow: seq<Action>)
    requires s.core.sender.chain < 2 && !Idle(s, a) && shadow == Replay.Shadow(s, a)
    ensures |shadow| <= 1 && (shadow == [] ==> a.ByWorker?)
    ensures shadow != [] && shadow[0].CoreStep? ==> !Polls(s.core, shadow[0].step)
  {
  }

  /** Every step that is not idle lowers the measure, a panic too. */
  lemma ReplayFalls(w: World, limits: Pair, index: Index, v: World, s: Sys, a: Step<FixAction>, t: Sys)
    requires Recording(w, limits, index, v) && RunInv(v, limits, Replay.Abs(s))
    requires StepEnabled(s, a) && t == StepApply(v, index, s, a) && !Idle(s, a)
    ensures Falls(MeasureOf(limits, t), MeasureOf(limits, s))
  {
    StepReplays(w, limits, index, v, s, a, t);
    DerivationsNonNegative(v, limits, s.core);
    NotPolling(s, a, Replay.Shadow(s, a));
    ShadowFalls(v, limits, Replay.Abs(s), Replay.Shadow(s, a), Replay.Abs(t));
    if Replay.Shadow(s, a) == [] {
      SilentLowers(v, index, s, a.effect, t);
    }
  }

  ghost predicate CanWork(s: Sys) {
    exists a :: StepEnabled(s, a) && !Idle(s, a)
  }

  lemma WorkerWorks(s: Sys, e: FixAction)
    requires StepEnabled(s, ByWorker(e)) && !e.TakeBack?
    ensures CanWork(s)
  {
    var a: Step<FixAction> := ByWorker(e);
    assert StepEnabled(s, a) && !Idle(s, a);
  }

  lemma WorkFor(s: Sys, p: State, a: Action)
    requires s.hand.Free? && !s.panicked && s.core.sender.chain < 2
    requires p == Replay.Abs(s) && Enabled(p, a) && !Spins(p, a)
    ensures CanWork(s)
  {
    match a
    case CoreStep(b) =>
      PollsIsSpins(p, b);
      var c: Step<FixAction> := ByCore(b);
      assert StepEnabled(s, c) && !Idle(s, c);
    case AnswerAddr(x) => WorkerWorks(s, Take(AddrJob(x)));
    case AnswerTx(h) => WorkerWorks(s, Take(TxJob(h)));
  }

  /** Before the end some step brings the replay forward: no request of the accounter is dropped. */
  lemma ReplayNeverStuck(v: World, limits: Pair, s: Sys)
    requires v.Bounded(limits) && RunInv(v, limits, Replay.Abs(s)) && !Over(s)
    ensures CanWork(s)
  {
    if !s.hand.Free? {
      WorkerWorks(s, Proceed);
    } else {
      NeverStuck(v, limits, Replay.Abs(s));
      var a :| Enabled(Replay.Abs(s), a) && !Spins(Replay.Abs(s), a);
      DerivationsNonNegative(v, limits, s.core);
      WorkFor(s, Replay.Abs(s), a);
    }
  }

  /** No reachable state of a replay is stuck. */
  lemma ReplayCanWork(w: World, limits: Pair, index: Index, v: World, run: seq<Step<FixAction>>)
    requires Recording(w, limits, index, v) && RunOf(v, index, Start(w), run)
    ensures var s := EndOf(v, index, Start(w), run); Over(s) || CanWork(s)
  {
    StartReplays(w, limits, index, v);
    RunReplays(w, limits, index, v, Start(w), run);
    var s := EndOf(v, index, Start(w), run);
    if !Over(s) {
      ReplayNeverStuck(v, limits, s);
    }
  }

  // ----- Missing blocks -----

  /** Every block that is asked for is recorded. */
  ghost predicate BlocksKnown(index: Index, s: Sys) {
    && !s.panicked
    && (forall k :: k in s.channels.blockRequests ==> k in index.blocks)
    && (s.hand.Looking? && s.hand.job.BlockJob? ==> s.hand.job.height in index.blocks)
  }

  lemma StepKeepsKnown(v: World, index: Index, s: Sys, a: Step<FixAction>, t: Sys)
    requires BlocksKnown(index, s) && StepEnabled(s, a) && t == StepApply(v, index, s, a)
    requires a.AskBlock? ==> a.height in index.blocks
    ensures BlocksKnown(index, t)
  {
  }

  ghost predicate AsksRecorded(index: Index, run: seq<Step<FixAction>>) {
    forall k :: 0 <= k < |run| && run[k].AskBlock? ==> run[k].height in index.blocks
  }

  /** The fixture panics only if the block finder asks for a block that was not recorded. */
  lemma {:induction false} PanicsOnlyOnMissing(v: World, index: Index, s: Sys, run: seq<Step<FixAction>>)
    requires BlocksKnown(index, s) && RunOf(v, index, s, run) && AsksRecorded(index, run)
    ensures !EndOf(v, index, s, run).panicked
    decreases |run|
  {
    if run != [] {
      var t := StepApply(v, index, s, run[0]);
      StepKeepsKnown(v, index, s, run[0], t);
      PanicsOnlyOnMissing(v, index, t, run[1..]);
    }
  }

  /** The goroutine looks a block up that the recording does not have. */
  predicate MissesBlock(index: Index, s: Sys, a: Step<FixAction>) {
    a == ByWorker(Proceed) && s.hand.Looking? && s.hand.job.BlockJob? && s.hand.job.height !in index.blocks
  }

  predicate Misses(v: World, index: Index, s: Sys, run: seq<Step<FixAction>>)
    requires RunOf(v, index, s, run)
    decreases |run|
  {
    run != [] && (MissesBlock(index, s, run[0]) || Misses(v, index, StepApply(v, index, s, run[0]), run[1..]))
  }

  /** A run of the fixture panics exactly when it looks up a block that was not recorded. */
  lemma {:induction false} PanicsExactly(v: World, index: Index, s: Sys, run: seq<Step<FixAction>>)
    requires !s.panicked && RunOf(v, index, s, run)
    ensures EndOf(v, index, s, run).panicked <==> Misses(v, index, s, run)
    decreases |run|
  {
    if run != [] {
      var t := StepApply(v, index, s, run[0]);
      if t.panicked {
        assert run[1..] == [];
      } else {
        PanicsExactly(v, index, t, run[1..]);
      }
    }
  }

  /** A response is the recorded one, or says of an address without an entry that it was not used. */
  predicate FromRecording(index: Index, r: Response) {
    match r
    case AddrDone(a) => if a.address.addr in index.addrs then index.addrs[a.address.addr] == a else a.txHashes == []
    case TxDone(t) => t.hash in index.txs && index.txs[t.hash] == t
    case BlockDone(b) => b.height in index.blocks && index.blocks[b.height] == b
  }

  ghost predicate AllFromRecording(index: Index, s: Sys) {
    && (forall r :: Waiting(s.channels, r) > 0 ==> FromRecording(index, r))
    && (s.hand.Sending? ==> FromRecording(index, s.hand.response))
  }

  lemma WorkerKeepsRecording(v: World, index: Index, s: Sys, e: FixAction, t: Sys)
    requires Keyed(index) && AllFromRecording(index, s)
    requires StepEnabled(s, ByWorker(e)) && t == StepApply(v, index, s, ByWorker(e))
    ensures AllFromRecording(index, t)
  {
    forall r | Waiting(t.channels, r) > 0 ensures FromRecording(index, r) {
      match e
      case Take(job) => RequestsLeaveResponses(s.channels, job, r);
      case TakeBack(back) => ReceivedTakes(s.channels, back, r);
      case Proceed =>
        if s.hand.Sending? {
          DeliveredAdds(s.channels, s.hand.response, r);
        }
    }
  }

  lemma StepKeepsRecording(v: World, index: Index, s: Sys, a: Step<FixAction>, t: Sys)
    requires Keyed(index) && AllFromRecording(index, s) && StepEnabled(s, a) && t == StepApply(v, index, s, a)
    ensures AllFromRecording(index, t)
  {
    if a.ByWorker? {
      WorkerKeepsRecording(v, index, s, a.effect, t);
    } else {
      forall r ensures Waiting(t.channels, r) <= Waiting(s.channels, r) {}
    }
  }

  /** Whatever is asked for, all that a fixture ever answers is in its recording: a request for a transaction
      without an entry gets no answer. */
  lemma {:induction false} OnlyRecordedIsAnswered(v: World, index: Index, s: Sys, run: seq<Step<FixAction>>)
    requires Keyed(index) && AllFromRecording(index, s) && RunOf(v, index, s, run)
    ensures AllFromRecording(index, EndOf(v, index, s, run))
    decreases |run|
  {
    if run != [] {
      StepKeepsRecording(v, index, s, run[0], StepApply(v, index, s, run[0]));
      OnlyRecordedIsAnswered(v, index, StepApply(v, index, s, run[0]), run[1..]);
    }
  }

  // ----- Schedules -----

  /** An infinite schedule; after the end nothing more happens. */
  ghost predicate Schedule(w: World, index: Index, v: World, states: nat -> Sys, steps: nat -> Step<FixAction>) {
    && states(0) == Start(w)
    && forall k: nat {:trigger steps(k)} :: Follows(v, index, states(k), steps(k), states(k + 1))
  }

  ghost predicate Follows(v: World, index: Index, s: Sys, a: Step<FixAction>, t: Sys) {
    if Over(s) then t == s else StepEnabled(s, a) && t == StepApply(v, index, s, a)
  }

  lemma StepAt(w: World, index: Index, v: World, states: nat -> Sys, steps: nat -> Step<FixAction>, k: nat)
    requires Schedule(w, index, v, states, steps)
    ensures Follows(v, index, states(k), steps(k), states(k + 1))
  {
  }

  function IdleAt(states: nat -> Sys, steps: nat -> Step<FixAction>): nat -> bool {
    (k: nat) => Idle(states(k), steps(k))
  }

  function OverAt(states: nat -> Sys): nat -> bool { (k: nat) => Over(states(k)) }

  function MeasureAt(limits: Pair, states: nat -> Sys): nat -> Measure {
    (k: nat) => MeasureOf(limits, states(k))
  }

  ghost predicate Sound(v: World, limits: Pair, s: Sys) { RunInv(v, limits, Replay.Abs(s)) }

  ghost function SoundAt(v: World, limits: Pair, states: nat -> Sys): nat -> bool {
    (k: nat) => Sound(v, limits, states(k))
  }

  lemma StaysSound(w: World, limits: Pair, index: Index, v: World,
                   states: nat -> Sys, steps: nat -> Step<FixAction>, k: nat)
    requires Recording(w, limits, index, v) && Schedule(w, index, v, states, steps) && Sound(v, limits, states(k))
    ensures Sound(v, limits, states(k + 1))
  {
    StepAt(w, index, v, states, steps, k);
    if !Over(states(k)) {
      StepReplays(w, limits, index, v, states(k), steps(k), states(k + 1));
    }
  }

  lemma ScheduleSound(w: World, limits: Pair, index: Index, v: World,
                      states: nat -> Sys, steps: nat -> Step<FixAction>, k: nat)
    requires Recording(w, limits, index, v) && Schedule(w, index, v, states, steps)
    ensures Sound(v, limits, states(k))
  {
    StartReplays(w, limits, index, v);
    forall i: nat ensures GoesOn(SoundAt(v, limits, states), i) {
      if SoundAt(v, limits, states)(i) {
        StaysSound(w, limits, index, v, states, steps, i);
      }
    }
    AlwaysHolds(SoundAt(v, limits, states), k);
  }

  lemma ScheduleFalls(w: World, limits: Pair, index: Index, v: World,
                      states: nat -> Sys, steps: nat -> Step<FixAction>, k: nat)
    requires Recording(w, limits, index, v) && Schedule(w, index, v, states, steps)
    ensures FallsAt(MeasureAt(limits, states), IdleAt(states, steps), OverAt(states), k)
  {
    ScheduleSound(w, limits, index, v, states, steps, k);
    StepAt(w, index, v, states, steps, k);
    if !Over(states(k)) && !Idle(states(k), steps(k)) {
      ReplayFalls(w, limits, index, v, states(k), steps(k), states(k + 1));
    }
  }

  lemma ScheduleFalling(w: World, limits: Pair, index: Index, v: World,
                        states: nat -> Sys, steps: nat -> Step<FixAction>)
    requires Recording(w, limits, index, v) && Schedule(w, index, v, states, steps)
    ensures Falling(MeasureAt(limits, states), IdleAt(states, steps), OverAt(states))
  {
    forall k: nat ensures FallsAt(MeasureAt(limits, states), IdleAt(states, steps), OverAt(states), k) {
      ScheduleFalls(w, limits, index, v, states, steps, k);
    }
  }

  lemma {:induction false} ScheduleKnown(w: World, index: Index, v: World,
                                         states: nat -> Sys, steps: nat -> Step<FixAction>, k: nat)
    requires Schedule(w, index, v, states, steps)
    requires forall i :: steps(i).AskBlock? ==> steps(i).height in index.blocks
    ensures BlocksKnown(index, states(k))
  {
    if k > 0 {
      ScheduleKnown(w, index, v, states, steps, k - 1);
      StepAt(w, index, v, states, steps, k - 1);
      if !Over(states(k - 1)) {
        StepKeepsKnown(v, index, states(k - 1), steps(k - 1), states(k));
      }
    }
  }

  /** Every schedule of a replay ends with everything fetched, in which all but finitely many steps are
      not idle and every block that is asked for was recorded. */
  lemma ReplayEnds(w: World, limits: Pair, index: Index, v: World,
                   states: nat -> Sys, steps: nat -> Step<FixAction>, patience: nat) returns (k: nat)
    requires Recording(w, limits, index, v) && Schedule(w, index, v, states, steps)
    requires Patient(IdleAt(states, steps), OverAt(states), patience)
    requires forall i :: steps(i).AskBlock? ==> steps(i).height in index.blocks
    ensures states(k).core.receiver.Returned? && Settled(v, Replay.Abs(states(k)))
  {
    ScheduleFalling(w, limits, index, v, states, steps);
    k := ScheduleEnds(MeasureAt(limits, states), IdleAt(states, steps), OverAt(states), patience, 0);
    ScheduleSound(w, limits, index, v, states, steps, k);
    ScheduleKnown(w, index, v, states, steps, k);
  }

  /** The replay of a recording ends with the result that the recorded run has. */
  lemma ReplayCompletes(w: World, top: Pair, s: RecorderRuns.Sys, file: File, height: nat, index: Index,
                        states: nat -> Sys, steps: nat -> Step<FixAction>, patience: nat) returns (k: nat)
    requires w.Bounded(top) && RecorderRuns.Unambiguous(w) && RecordedBy(w, s)
    requires Holds(file, height, s.index) && Loaded(file, index)
    requires Schedule(w, index, FixtureWorld(w, index), states, steps)
    requires Patient(IdleAt(states, steps), OverAt(states), patience)
    requires forall i :: steps(i).AskBlock? ==> steps(i).height in index.blocks
    ensures states(k).core.receiver.Returned? && SameResult(w, s.core, states(k).core)
  {
    LoadedIsRecording(w, top, s, file, height, index);
    var v := FixtureWorld(w, index);
    k := ReplayEnds(w, s.core.lastAddresses, index, v, states, steps, patience);
    SameOutcome(w, s.core.lastAddresses, index, v, s.core, states(k).core);
  }

  lemma RecordedEnd(w: World, times: nat -> int, top: Pair, states: nat -> RecorderRuns.Sys,
                    steps: nat -> Step<RecorderRuns.RecAction>, patience: nat) returns (j: nat, s: RecorderRuns.Sys)
    requires w.Bounded(top) && RecorderRuns.Unambiguous(w) && RecorderProgress.Schedule(w, times, states, steps)
    requires Patient(RecorderProgress.IdleAt(states, steps), RecorderProgress.ReturnedAt(states), patience)
    ensures s == states(j) && s.core.receiver.Returned? && RecordedBy(w, s)
  {
    j := RecorderProgress.RecordingEnds(w, times, top, states, steps, patience);
    s := states(j);
  }

  /** A recorded run and its replay have returned with the same result, and everything was recorded. */
  ghost predicate BothEnd(w: World, s: RecorderRuns.Sys, t: Sys) {
    && s.core.receiver.Returned? && t.core.receiver.Returned?
    && RecordedBy(w, s) && SameResult(w, s.core, t.core)
  }

  /** The file is written when the recorded run has returned. */
  ghost predicate WrittenAtEnd(states: nat -> RecorderRuns.Sys, file: File, height: nat) {
    forall i :: states(i).core.receiver.Returned? ==> Holds(file, height, states(i).index)
  }

  lemma WrittenThen(states: nat -> RecorderRuns.Sys, file: File, height: nat, j: nat, s: RecorderRuns.Sys)
    requires WrittenAtEnd(states, file, height) && s == states(j) && s.core.receiver.Returned?
    ensures Holds(file, height, s.index)
  {
  }

  /** A run is recorded, the file is written when it has returned, and a fixture loaded from the file
      runs in its place: both end, under any schedules, with the same result. */
  lemma RecordThenReplay(w: World, times: nat -> int, top: Pair,
                         recStates: nat -> RecorderRuns.Sys, recSteps: nat -> Step<RecorderRuns.RecAction>,
                         recPatience: nat, file: File, height: nat, index: Index,
                         states: nat -> Sys, steps: nat -> Step<FixAction>, patience: nat) returns (j: nat, k: nat)
    requires w.Bounded(top) && RecorderRuns.Unambiguous(w)
    requires RecorderProgress.Schedule(w, times, recStates, recSteps)
    requires Patient(RecorderProgress.IdleAt(recStates, recSteps), RecorderProgress.ReturnedAt(recStates), recPatience)
    requires WrittenAtEnd(recStates, file, height)
    requires Loaded(file, index) && Schedule(w, index, FixtureWorld(w, index), states, steps)
    requires Patient(IdleAt(states, steps), OverAt(states), patience)
    requires forall i :: steps(i).AskBlock? ==> steps(i).height in index.blocks
    ensures BothEnd(w, recStates(j), states(k))
  {
    var s;
    j, s := RecordedEnd(w, times, top, recStates, recSteps, recPatience);
    WrittenThen(recStates, file, height, j, s);
    k := ReplayCompletes(w, top, s, file, height, index, states, steps, patience);
    assert BothEnd(w, s, states(k));
  }
}
