/** A node that fails is gone: its worker puts its request back, returns, and never takes another. And how the
    pool panics. */
module ElectrumFailures {
  import opened Basics
  import opened Wallet
  import opened Workers
  import opened WorkersProgress
  import opened Electrum
  import opened ElectrumRuns

  /** The node of worker `i` fails in this step. */
  predicate FailsAt(a: Step<PoolAction>, i: nat) {
    a == ByWorker(Hear(i, Error)) || a == ByWorker(LosePeers(i))
  }

  predicate NodeFails(a: PoolAction) { (a.Hear? && a.reply.Error?) || a.LosePeers? }

  predicate Fails(a: Step<PoolAction>) { a.ByWorker? && NodeFails(a.effect) }

  predicate TakesAt(a: Step<PoolAction>, i: nat) {
    a.ByWorker? && a.effect.Take? && a.effect.worker == i
  }

  predicate Down(v: Worker) { v.Failed? || v.Stopped? }

  predicate DownAt(p: Pool, i: nat) { i < |p.workers| && Down(p.workers[i]) }

  lemma StepStaysDown(w: World, s: Sys, a: Step<PoolAction>, i: nat)
    requires StepEnabled(s, a) && DownAt(s.pool, i)
    ensures !TakesAt(a, i) && !FailsAt(a, i) && DownAt(StepApply(w, s, a).pool, i)
  {
  }

  lemma {:induction false} StaysDown(w: World, s: Sys, run: seq<Step<PoolAction>>, i: nat)
    requires RunOf(w, s, run) && DownAt(s.pool, i)
    ensures forall j :: 0 <= j < |run| ==> !TakesAt(run[j], i) && !FailsAt(run[j], i)
    decreases |run|
  {
    if run != [] {
      StepStaysDown(w, s, run[0], i);
      StaysDown(w, StepApply(w, s, run[0]), run[1..], i);
      assert forall j :: 0 < j < |run| ==> run[j] == run[1..][j - 1];
    }
  }

  /** Once its node has failed, a worker takes no request any more, and its node fails no more. */
  lemma {:induction false} FailureIsFinal(w: World, s: Sys, run: seq<Step<PoolAction>>, k: nat, i: nat)
    requires RunOf(w, s, run) && k < |run| && FailsAt(run[k], i)
    ensures forall j :: k < j < |run| ==> !TakesAt(run[j], i) && !FailsAt(run[j], i)
    decreases |run|
  {
    var t := StepApply(w, s, run[0]);
    if k == 0 {
      assert DownAt(t.pool, i);
      StaysDown(w, t, run[1..], i);
    } else {
      FailureIsFinal(w, t, run[1..], k - 1, i);
    }
    assert forall j :: k < j < |run| ==> run[j] == run[1..][j - 1];
  }

  /** Workers whose node has not failed. */
  function One(v: Worker): nat { if Down(v) then 0 else 1 }

  function Alive(p: Pool): nat { Load(p.workers, One) }

  predicate Joins(a: Step<PoolAction>) { a == ByWorker(Join) }

  function Counted(b: bool): nat { if b then 1 else 0 }

  lemma PoolCounts(p: Pool, a: PoolAction, p': Pool)
    requires PoolEnabled(p, a) && p' == PoolApply(p, a)
    ensures Alive(p') + Counted(NodeFails(a)) == Alive(p) + Counted(a.Join?)
  {
    var ws, ws' := p.workers, p'.workers;
    if a.Join? {
      assert ws'[..|ws|] == ws;
    } else {
      LoadUpdate(ws, One, a.worker, ws'[a.worker]);
      assert ws' == ws[a.worker := ws'[a.worker]];
    }
  }

  function Failures(run: seq<Step<PoolAction>>): nat {
    if run == [] then 0 else Counted(Fails(run[0])) + Failures(run[1..])
  }

  function Connections(run: seq<Step<PoolAction>>): nat {
    if run == [] then 0 else Counted(Joins(run[0])) + Connections(run[1..])
  }

  lemma {:induction false} FailuresCount(w: World, s: Sys, run: seq<Step<PoolAction>>)
    requires RunOf(w, s, run)
    ensures Alive(EndOf(w, s, run).pool) + Failures(run) == Alive(s.pool) + Connections(run)
    decreases |run|
  {
    if run != [] {
      if run[0].ByWorker? {
        PoolCounts(s.pool, run[0].effect, StepApply(w, s, run[0]).pool);
      }
      FailuresCount(w, StepApply(w, s, run[0]), run[1..]);
    }
  }

  /** No run has more failures than nodes were connected. */
  lemma OneFailureEach(w: World, run: seq<Step<PoolAction>>)
    requires RunOf(w, Start(w), run)
    ensures Failures(run) <= Connections(run)
  {
    FailuresCount(w, Start(w), run);
  }

  // ----- Panics -----

  /** A worker is about to cache heights that contradict the cache or one another. */
  ghost predicate CachesNonsense(p: Pool, a: PoolAction)
    requires PoolEnabled(p, a)
  {
    a.Advance? && p.workers[a.worker].GotHistory? && !Consistent(p.heights, p.workers[a.worker].txs)
  }

  lemma AdvancePanics(p: Pool, i: nat)
    requires i < |p.workers| && Busy(p.workers[i]) && PoolKnown(p) && p.crash.None?
    ensures Advanced(p, i).crash
         == if p.workers[i].GotHistory? && !Consistent(p.heights, p.workers[i].txs) then Some(InconsistentCache)
            else None
  {
    var v := p.workers[i];
    assert WorkerKnown(v, p.heights.Keys);
    if v.GotHistory? {
      CacheExactly(p.heights, v.txs);
    }
  }

  lemma PoolPanics(p: Pool, a: PoolAction)
    requires PoolEnabled(p, a) && PoolKnown(p)
    ensures PoolApply(p, a).crash
         == if a.Hear? && a.reply == Header(None) then Some(BadHeader)
            else if CachesNonsense(p, a) then Some(InconsistentCache)
            else None
  {
    if a.Advance? {
      AdvancePanics(p, a.worker);
    }
  }

  /** In every reachable state the pool panics exactly on a header that does not parse and on a history that
      contradicts the cache or itself, whatever the servers answer. */
  lemma PanicsExactly(w: World, run: seq<Step<PoolAction>>, p: Pool, a: PoolAction)
    requires RunOf(w, Start(w), run) && p == EndOf(w, Start(w), run).pool && PoolEnabled(p, a)
    ensures PoolApply(p, a).crash
         == if a.Hear? && a.reply == Header(None) then Some(BadHeader)
            else if CachesNonsense(p, a) then Some(InconsistentCache)
            else None
  {
    RunKeepsCache(w, Start(w), run);
    PoolPanics(p, a);
  }
}
