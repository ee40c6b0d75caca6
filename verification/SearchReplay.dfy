/** A search for a block over a recording: the fixture has every block that it asks for. */
module SearchReplay {
  import opened Basics
  import opened Wallet
  import opened BlockFinder
  import opened Workers
  import opened Recorder
  import RecorderRuns
  import Replay
  import ReplayProgress

  /** The times that a fixture answers with. */
  function RecordedTimes(index: Index): map<nat, int> {
    map h | h in index.blocks :: index.blocks[h].timestamp
  }

  /** All these blocks came back during a recorded run. */
  ghost predicate AllReceived(recording: seq<Step<RecorderRuns.RecAction>>, heights: set<nat>) {
    forall h :: h in heights ==> exists r: BlockResponse :: GetBlock(r) in recording && r.height == h
  }

  lemma ReceivedAgrees(w: World, times: nat -> int, top: Pair, recording: seq<Step<RecorderRuns.RecAction>>,
                       index: Index, heights: set<nat>)
    requires w.Bounded(top) && RecorderRuns.RunOf(w, times, RecorderRuns.Start(w), recording)
    requires index == RecorderRuns.EndOf(w, times, RecorderRuns.Start(w), recording).index
    requires AllReceived(recording, heights)
    ensures Agrees(times, RecordedTimes(index), heights)
  {
    forall h | h in heights ensures h in index.blocks && index.blocks[h].timestamp == times(h) {
      var r: BlockResponse :| GetBlock(r) in recording && r.height == h;
      RecorderRuns.ReceivedIsRecorded(w, times, top, recording, r);
    }
  }

  ghost predicate AsksOnly(run: seq<Step<Replay.FixAction>>, heights: set<nat>) {
    forall k :: 0 <= k < |run| && run[k].AskBlock? ==> run[k].height in heights
  }

  /** If a search was recorded, the same search over the fixture loaded from the file goes through the same
      states, and no run of the fixture that asks for its blocks reaches the panic for a missing one. */
  lemma SearchIsReplayed(w: World, times: nat -> int, top: Pair, recording: seq<Step<RecorderRuns.RecAction>>,
                         file: File, chainHeight: nat, index: Index, target: int, rounds: nat, v: World,
                         run: seq<Step<Replay.FixAction>>)
    requires w.Bounded(top) && RecorderRuns.RunOf(w, times, RecorderRuns.Start(w), recording) && chainHeight < TWO32
    requires AllReceived(recording, AskedIn(times, target, chainHeight, rounds))
    requires Holds(file, chainHeight, RecorderRuns.EndOf(w, times, RecorderRuns.Start(w), recording).index)
    requires Loaded(file, index) && Replay.RunOf(v, index, Replay.Start(v), run)
    requires AsksOnly(run, AskedIn(Replayed(RecordedTimes(index)), target, chainHeight, rounds))
    ensures After(Replayed(RecordedTimes(index)), target, chainHeight, rounds)
         == After(times, target, chainHeight, rounds)
    ensures !Replay.EndOf(v, index, Replay.Start(v), run).panicked
  {
    var recorded := RecorderRuns.EndOf(w, times, RecorderRuns.Start(w), recording).index;
    RecorderRuns.RecordingIsKeyed(w, times, top, recording);
    WriteThenLoad(file, chainHeight, recorded, index);
    ReceivedAgrees(w, times, top, recording, index, AskedIn(times, target, chainHeight, rounds));
    SameSearch(times, index, target, chainHeight, rounds, run);
    ReplayProgress.PanicsOnlyOnMissing(v, index, Replay.Start(v), run);
  }

  lemma SameSearch(times: nat -> int, index: Index, target: int, chainHeight: nat, rounds: nat,
                   run: seq<Step<Replay.FixAction>>)
    requires chainHeight < TWO32
    requires Agrees(times, RecordedTimes(index), AskedIn(times, target, chainHeight, rounds))
    requires AsksOnly(run, AskedIn(Replayed(RecordedTimes(index)), target, chainHeight, rounds))
    ensures After(Replayed(RecordedTimes(index)), target, chainHeight, rounds)
         == After(times, target, chainHeight, rounds)
    ensures ReplayProgress.AsksRecorded(index, run)
  {
    SearchReplays(times, RecordedTimes(index), target, chainHeight, rounds);
  }
}
