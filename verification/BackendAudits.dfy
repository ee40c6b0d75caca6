/** The audit over the real backends: each composes with the accounter and the ledger into the same
    end-to-end statement, and each comes to its end. */
module BackendAudits {
  import opened Wallet
  import opened Fetching
  import opened FetchingSafety
  import opened FetchingResults
  import opened Ledger
  import opened Chain
  import opened Audit
  import opened Schedules
  import opened Workers
  import Electrum
  import ElectrumRuns
  import ElectrumProgress
  import Btcd
  import BtcdRuns
  import BtcdProgress
  import Recorder
  import RecorderRuns
  import RecorderProgress
  import Replay
  import ReplayProgress

  /** The outcomes of the ledger over what an accounter has fetched. */
  ghost predicate Tallies(parse: Parser, blockHeight: nat, core: Core, r: Outcome) {
    Settles(BookOf(parse, core.addresses.Keys, blockHeight, core.transactions), r)
  }

  /** On every chain that the world serves, the only outcome is the value of our unspent outputs. */
  ghost predicate AuditsRight(w: World, parse: Parser, core: Core, blockHeight: nat) {
    forall chain: seq<Block>, r {:trigger IsUtxoTotal(core, blockHeight, chain, r)} ::
      AuditableAt(w, parse, core, blockHeight, chain) && Tallies(parse, blockHeight, core, r)
      ==> IsUtxoTotal(core, blockHeight, chain, r)
  }

  lemma FetchedAudits(w: World, parse: Parser, core: Core, blockHeight: nat)
    requires Fetched(w, core.lastAddresses, core)
    ensures AuditsRight(w, parse, core, blockHeight)
  {
    forall chain: seq<Block>, r
      | AuditableAt(w, parse, core, blockHeight, chain) && Tallies(parse, blockHeight, core, r)
      ensures IsUtxoTotal(core, blockHeight, chain, r)
    {
      FetchedTotal(w, parse, core, chain, blockHeight, r);
    }
  }

  /** Over Electrum servers that agree, whichever of them fail: the value of our unspent outputs. */
  lemma ElectrumAudits(w: World, times: nat -> int, top: Pair, run: seq<Step<Electrum.PoolAction>>,
                       parse: Parser, blockHeight: nat)
    requires w.Bounded(top) && ElectrumRuns.RunOf(w, ElectrumRuns.Start(w), run)
    requires ElectrumRuns.HonestServers(w, times, ElectrumRuns.Start(w), run)
    requires ElectrumRuns.EndOf(w, ElectrumRuns.Start(w), run).core.receiver.Returned?
    ensures AuditsRight(w, parse, ElectrumRuns.EndOf(w, ElectrumRuns.Start(w), run).core, blockHeight)
  {
    ElectrumRuns.ElectrumFetches(w, times, top, run);
    FetchedAudits(w, parse, ElectrumRuns.EndOf(w, ElectrumRuns.Start(w), run).core, blockHeight);
  }

  /** And every schedule comes to such an end in which all but finitely many steps are not idle. */
  lemma ElectrumAuditEnds(w: World, times: nat -> int, top: Pair, states: nat -> ElectrumRuns.Sys,
                          steps: nat -> Step<Electrum.PoolAction>, patience: nat,
                          parse: Parser, blockHeight: nat) returns (k: nat)
    requires w.Bounded(top) && ElectrumProgress.Schedule(w, times, states, steps)
    requires Patient(ElectrumProgress.IdleAt(states, steps), ElectrumProgress.ReturnedAt(states), patience)
    ensures states(k).core.receiver.Returned? && AuditsRight(w, parse, states(k).core, blockHeight)
  {
    k := ElectrumProgress.ElectrumEnds(w, times, top, states, steps, patience);
    FetchedAudits(w, parse, states(k).core, blockHeight);
  }

  /** Over a Btcd node, in every interleaving of the workers. */
  lemma BtcdAudits(w: World, times: nat -> int, n: Btcd.Node, top: Pair, run: seq<Step<Btcd.PoolAction>>,
                   parse: Parser, blockHeight: nat)
    requires w.Bounded(top) && BtcdRuns.OneChain(n) && BtcdRuns.Mirrors(w, times, n)
    requires BtcdRuns.RunOf(w, n, BtcdRuns.Start(w), run)
    requires BtcdRuns.EndOf(w, n, BtcdRuns.Start(w), run).core.receiver.Returned?
    ensures AuditsRight(w, parse, BtcdRuns.EndOf(w, n, BtcdRuns.Start(w), run).core, blockHeight)
  {
    BtcdRuns.BtcdFetches(w, times, n, top, run);
    FetchedAudits(w, parse, BtcdRuns.EndOf(w, n, BtcdRuns.Start(w), run).core, blockHeight);
  }

  /** Every schedule comes to such an end if the wallet is within the backend's limits and no call to the
      node fails. */
  lemma BtcdAuditEnds(w: World, times: nat -> int, n: Btcd.Node, top: Pair, m: Pair, states: nat -> BtcdRuns.Sys,
                      steps: nat -> Step<Btcd.PoolAction>, patience: nat,
                      parse: Parser, blockHeight: nat) returns (k: nat)
    requires w.Bounded(top) && BtcdRuns.OneChain(n) && BtcdRuns.Mirrors(w, times, n)
    requires w.Closed(m) && BtcdRuns.WithinLimits(n, Asked(w, m))
    requires BtcdProgress.Schedule(w, n, states, steps)
    requires forall i :: BtcdProgress.Fine(n, steps(i))
    requires Patient(BtcdProgress.IdleAt(states, steps), BtcdProgress.OverAt(states), patience)
    ensures states(k).core.receiver.Returned? && AuditsRight(w, parse, states(k).core, blockHeight)
  {
    k := BtcdProgress.BtcdCompletes(w, times, n, top, m, states, steps, patience);
    FetchedAudits(w, parse, states(k).core, blockHeight);
  }

  lemma SameAudits(w: World, parse: Parser, a: Core, b: Core, blockHeight: nat)
    requires Replay.SameResult(w, a, b) && AuditsRight(w, parse, a, blockHeight)
    ensures forall r :: Tallies(parse, blockHeight, b, r) <==> Tallies(parse, blockHeight, a, r)
    ensures AuditsRight(w, parse, b, blockHeight)
  {
    forall chain: seq<Block>, r | AuditableAt(w, parse, b, blockHeight, chain) && Tallies(parse, blockHeight, b, r)
      ensures IsUtxoTotal(b, blockHeight, chain, r)
    {
      assert IsUtxoTotal(a, blockHeight, chain, r);
    }
  }

  /** A run is recorded and replayed from its file: both come to their ends, and the replayed audit gives
      the balance of the recorded one, the value of our unspent outputs on the chain that was recorded. */
  lemma ReplayAudits(w: World, times: nat -> int, top: Pair,
                     recStates: nat -> RecorderRuns.Sys, recSteps: nat -> Step<RecorderRuns.RecAction>,
                     recPatience: nat, file: Recorder.File, height: nat, index: Recorder.Index,
                     states: nat -> Replay.Sys, steps: nat -> Step<Replay.FixAction>, patience: nat,
                     parse: Parser, blockHeight: nat) returns (j: nat, k: nat)
    requires w.Bounded(top) && RecorderRuns.Unambiguous(w)
    requires RecorderProgress.Schedule(w, times, recStates, recSteps)
    requires Patient(RecorderProgress.IdleAt(recStates, recSteps), RecorderProgress.ReturnedAt(recStates), recPatience)
    requires ReplayProgress.WrittenAtEnd(recStates, file, height)
    requires Recorder.Loaded(file, index)
    requires ReplayProgress.Schedule(w, index, Replay.FixtureWorld(w, index), states, steps)
    requires Patient(ReplayProgress.IdleAt(states, steps), ReplayProgress.OverAt(states), patience)
    requires forall i :: steps(i).AskBlock? ==> steps(i).height in index.blocks
    ensures recStates(j).core.receiver.Returned? && states(k).core.receiver.Returned?
    ensures forall r :: Tallies(parse, blockHeight, states(k).core, r)
                   <==> Tallies(parse, blockHeight, recStates(j).core, r)
    ensures AuditsRight(w, parse, states(k).core, blockHeight)
  {
    j, k := ReplayProgress.RecordThenReplay(w, times, top, recStates, recSteps, recPatience, file, height, index,
                                            states, steps, patience);
    FetchedAudits(w, parse, recStates(j).core, blockHeight);
    SameAudits(w, parse, recStates(j).core, states(k).core, blockHeight);
  }
}
