/** Recording ends: the recorder's goroutine holds nothing back. */
module RecorderProgress {
  import opened Wallet
  import opened Fetching
  import opened FetchingResults
  import opened FetchingProgress
  import opened Schedules
  import opened Workers
  import opened WorkersProgress
  import opened Recorder
  import opened RecorderRuns

  /** Responses that have not passed the recorder yet, and how far it is with the one in hand. */
  function Left(s: Sys): nat {
    var q := s.inner.queues;
    3 * (|q.addrResponses| + |q.txResponses| + |s.inner.blockResponses|)
    + if s.hand.Picked? then 2 else if s.hand.Noted? then 1 else 0
  }

  /** The accounter polls, or the block finder asks or listens. */
  predicate Idle(s: Sys, a: Step<RecAction>) {
    match a
    case ByCore(b) => s.core.sender.chain < 2 && Polls(s.core, b)
    case ByWorker(_) => false
    case _ => true
  }

  function MeasureOf(top: Pair, s: Sys): Measure {
    if s.core.sender.chain < 2
    then Measure(RankOf(top, RecorderRuns.Abs(s)), |s.inner.blockRequests|, Left(s))
    else Measure(Rank(0, 0, 0, 0, 0, 0, 0, 0, 0), 0, 0)
  }

  lemma ReceivedLowers(ch: Channels, r: Response)
    requires Waiting(ch, r) > 0
    ensures var c := Received(ch, r);
      && c.blockRequests == ch.blockRequests
      && |c.queues.addrResponses| + |c.queues.txResponses| + |c.blockResponses| + 1
      == |ch.queues.addrResponses| + |ch.queues.txResponses| + |ch.blockResponses|
  {
  }

  /** A step that the fetch protocol does not see brings a response closer to the accounter. */
  lemma SilentLowers(w: World, times: nat -> int, s: Sys, e: RecAction, t: Sys)
    requires StepEnabled(s, ByWorker(e)) && t == StepApply(w, times, s, ByWorker(e))
    requires RecorderRuns.Shadow(ByWorker(e)) == []
    ensures |t.inner.blockRequests| < |s.inner.blockRequests|
         || (t.inner.blockRequests == s.inner.blockRequests && Left(t) < Left(s))
  {
    match e
    case Pick(r) => ReceivedLowers(s.inner, r);
    case _ =>
  }

  /** Every step that is not idle lowers the measure. */
  lemma RecordingFalls(w: World, times: nat -> int, top: Pair, s: Sys, a: Step<RecAction>, t: Sys)
    requires w.Bounded(top) && RecordingInv(w, times, top, s)
    requires StepEnabled(s, a) && t == StepApply(w, times, s, a) && !Idle(s, a)
    ensures Falls(MeasureOf(top, t), MeasureOf(top, s))
  {
    RecorderRuns.StepRefines(w, times, s, a, t);
    DerivationsNonNegative(w, top, s.core);
    NotPolling(s, a, RecorderRuns.Shadow(a));
    ShadowFalls(w, top, RecorderRuns.Abs(s), RecorderRuns.Shadow(a), RecorderRuns.Abs(t));
    if RecorderRuns.Shadow(a) == [] {
      SilentLowers(w, times, s, a.effect, t);
    }
  }

  lemma NotPolling(s: Sys, a: Step<RecAction>, shadow: seq<Action>)
    requires s.core.sender.chain < 2 && !Idle(s, a) && shadow == RecorderRuns.Shadow(a)
    ensures |shadow| <= 1 && (shadow == [] ==> a.ByWorker?)
    ensures shadow != [] && shadow[0].CoreStep? ==> !Polls(s.core, shadow[0].step)
  {
  }

  ghost predicate CanWork(s: Sys) {
    exists a :: StepEnabled(s, a) && !Idle(s, a)
  }

  lemma WorkerWorks(s: Sys, e: RecAction)
    requires StepEnabled(s, ByWorker(e))
    ensures CanWork(s)
  {
    var a: Step<RecAction> := ByWorker(e);
    assert StepEnabled(s, a) && !Idle(s, a);
  }

  /** A response that the accounter could take has not passed the recorder, or is there for it. */
  lemma CoreWorks(s: Sys, b: CoreAction)
    requires s.hand.Empty? && s.core.sender.chain < 2 && !Polls(s.core, b)
    requires CoreEnabled(s.core, b) && CanTake(RecorderRuns.Abs(s).queues, b)
    ensures CanWork(s)
  {
    if CanTake(Facing(s), b) {
      var a: Step<RecAction> := ByCore(b);
      assert StepEnabled(s, a) && !Idle(s, a);
    } else {
      var r := if b.OnAddr? then AddrDone(b.onAddr.addr) else TxDone(b.onTx.tx);
      WorkerWorks(s, Pick(r));
    }
  }

  /** Until recvWork returns, some step brings the recording forward. */
  lemma RecordingNeverStuck(w: World, times: nat -> int, top: Pair, s: Sys)
    requires w.Bounded(top) && RecordingInv(w, times, top, s) && !s.core.receiver.Returned?
    ensures CanWork(s)
  {
    if !s.hand.Empty? {
      WorkerWorks(s, if s.hand.Picked? then Note else Forward);
    } else {
      NeverStuck(w, top, RecorderRuns.Abs(s));
      var a :| Enabled(RecorderRuns.Abs(s), a) && !Spins(RecorderRuns.Abs(s), a);
      DerivationsNonNegative(w, top, s.core);
      WorkFor(s, RecorderRuns.Abs(s), a);
    }
  }

  lemma WorkFor(s: Sys, p: State, a: Action)
    requires s.hand.Empty? && s.core.sender.chain < 2
    requires p == RecorderRuns.Abs(s) && Enabled(p, a) && !Spins(p, a)
    ensures CanWork(s)
  {
    match a
    case CoreStep(b) =>
      PollsIsSpins(p, b);
      CoreWorks(s, b);
    case AnswerAddr(x) => WorkerWorks(s, Reply(AddrJob(x)));
    case AnswerTx(h) => WorkerWorks(s, Reply(TxJob(h)));
  }

  /** No reachable state of a recorded run is stuck. */
  lemma RecordingCanWork(w: World, times: nat -> int, top: Pair, run: seq<Step<RecAction>>)
    requires w.Bounded(top) && RunOf(w, times, Start(w), run)
    ensures var s := EndOf(w, times, Start(w), run); s.core.receiver.Returned? || CanWork(s)
  {
    StartKeepsRecording(w, times, top);
    RunKeepsRecording(w, times, top, Start(w), run);
    var s := EndOf(w, times, Start(w), run);
    if !s.core.receiver.Returned? {
      RecordingNeverStuck(w, times, top, s);
    }
  }

  /** An infinite schedule; after the end nothing more happens. */
  ghost predicate Schedule(w: World, times: nat -> int, states: nat -> Sys, steps: nat -> Step<RecAction>) {
    && states(0) == Start(w)
    && forall k: nat {:trigger steps(k)} :: Follows(w, times, states(k), steps(k), states(k + 1))
  }

  ghost predicate Follows(w: World, times: nat -> int, s: Sys, a: Step<RecAction>, t: Sys) {
    if s.core.receiver.Returned? then t == s else StepEnabled(s, a) && t == StepApply(w, times, s, a)
  }

  lemma StepAt(w: World, times: nat -> int, states: nat -> Sys, steps: nat -> Step<RecAction>, k: nat)
    requires Schedule(w, times, states, steps)
    ensures Follows(w, times, states(k), steps(k), states(k + 1))
  {
  }

  function IdleAt(states: nat -> Sys, steps: nat -> Step<RecAction>): nat -> bool {
    (k: nat) => Idle(states(k), steps(k))
  }

  function ReturnedAt(states: nat -> Sys): nat -> bool {
    (k: nat) => states(k).core.receiver.Returned?
  }

  function MeasureAt(top: Pair, states: nat -> Sys): nat -> Measure {
    (k: nat) => MeasureOf(top, states(k))
  }

  ghost function SoundAt(w: World, times: nat -> int, top: Pair, states: nat -> Sys): nat -> bool {
    (k: nat) => RecordingInv(w, times, top, states(k))
  }

  lemma StaysSound(w: World, times: nat -> int, top: Pair, states: nat -> Sys, steps: nat -> Step<RecAction>, k: nat)
    requires w.Bounded(top) && Schedule(w, times, states, steps) && RecordingInv(w, times, top, states(k))
    ensures RecordingInv(w, times, top, states(k + 1))
  {
    StepAt(w, times, states, steps, k);
    if !states(k).core.receiver.Returned? {
      StepKeepsRecording(w, times, top, states(k), steps(k), states(k + 1));
    }
  }

  lemma ScheduleSound(w: World, times: nat -> int, top: Pair,
                      states: nat -> Sys, steps: nat -> Step<RecAction>, k: nat)
    requires w.Bounded(top) && Schedule(w, times, states, steps)
    ensures RecordingInv(w, times, top, states(k))
  {
    StartKeepsRecording(w, times, top);
    forall i: nat ensures GoesOn(SoundAt(w, times, top, states), i) {
      if SoundAt(w, times, top, states)(i) {
        StaysSound(w, times, top, states, steps, i);
      }
    }
    AlwaysHolds(SoundAt(w, times, top, states), k);
  }

  lemma ScheduleFalls(w: World, times: nat -> int, top: Pair,
                      states: nat -> Sys, steps: nat -> Step<RecAction>, k: nat)
    requires w.Bounded(top) && Schedule(w, times, states, steps)
    ensures FallsAt(MeasureAt(top, states), IdleAt(states, steps), ReturnedAt(states), k)
  {
    ScheduleSound(w, times, top, states, steps, k);
    StepAt(w, times, states, steps, k);
    if !states(k).core.receiver.Returned? && !Idle(states(k), steps(k)) {
      RecordingFalls(w, times, top, states(k), steps(k), states(k + 1));
    }
  }

  lemma ScheduleFalling(w: World, times: nat -> int, top: Pair, states: nat -> Sys, steps: nat -> Step<RecAction>)
    requires w.Bounded(top) && Schedule(w, times, states, steps)
    ensures Falling(MeasureAt(top, states), IdleAt(states, steps), ReturnedAt(states))
  {
    forall k: nat ensures FallsAt(MeasureAt(top, states), IdleAt(states, steps), ReturnedAt(states), k) {
      ScheduleFalls(w, times, top, states, steps, k);
    }
  }

  /** Every schedule of a recorded run in which all but finitely many steps are not idle ends, with a
      complete recording. */
  lemma RecordingEnds(w: World, times: nat -> int, top: Pair,
                      states: nat -> Sys, steps: nat -> Step<RecAction>, patience: nat) returns (k: nat)
    requires w.Bounded(top) && Unambiguous(w) && Schedule(w, times, states, steps)
    requires Patient(IdleAt(states, steps), ReturnedAt(states), patience)
    ensures states(k).core.receiver.Returned? && Settled(w, RecorderRuns.Abs(states(k)))
    ensures Keyed(states(k).index) && CompleteIndex(w, states(k).core.lastAddresses, states(k).index)
  {
    ScheduleFalling(w, times, top, states, steps);
    k := ScheduleEnds(MeasureAt(top, states), IdleAt(states, steps), ReturnedAt(states), patience, 0);
    ScheduleSound(w, times, top, states, steps, k);
    IndexCompletes(w, times, states(k));
  }
}
