/** What was sent was asked for, and what is stored was answered: along runs on a floor of workers. */
module WorkersAnswers {
  import opened Basics
  import opened Deriver
  import opened Wallet
  import opened Fetching
  import opened FetchingSafety
  import opened FetchingResults
  import opened FetchingSteps
  import opened Workers
  import opened WorkersProgress

  /** The transaction has come back: it waits for the accounter, is with it, or is stored. */
  ghost predicate Back(core: Core, q: Queues, h: string) {
    || (exists r :: r in q.txResponses && r.hash == h)
    || (HeldTx(core).Some? && HeldTx(core).value.hash == h) || h in core.transactions
  }

  lemma TakesBack(c: Core, q: Queues, c': Core, q': Queues, h: string)
    requires Takes(c, q, c', q') && Back(c', q', h)
    ensures Back(c, q, h)
  {
    if r :| r in q'.txResponses && r.hash == h {
      assert r in q.txResponses;
    }
  }

  lemma BackStep(w: World, f: Floor, a: Step<Effect>, g: Floor, h: string)
    requires FloorEnabled(f, a) && g == FloorApply(w, f, a) && Back(g.core, g.channels.queues, h)
    ensures Back(f.core, f.channels.queues, h) || Answers(a) == Some(TxJob(h))
  {
    match a
    case ByCore(b) =>
      CoreTakes(w, f.core, f.channels.queues, b, g.core, g.channels.queues);
      TakesBack(f.core, f.channels.queues, g.core, g.channels.queues, h);
    case ByWorker(e) =>
      EffectResponses(f.channels, f.jobs, e, g.channels);
      BackByWorker(f, e, g, h);
    case _ =>
  }

  lemma BackByWorker(f: Floor, e: Effect, g: Floor, h: string)
    requires g.core == f.core && Back(g.core, g.channels.queues, h)
    requires g.channels.queues.txResponses
          == if e.Answered? then f.channels.queues.txResponses + TxsIn(e.response) else f.channels.queues.txResponses
    ensures Back(f.core, f.channels.queues, h) || Answer(e) == Some(TxJob(h))
  {
    if r :| r in g.channels.queues.txResponses && r.hash == h {
      assert r in f.channels.queues.txResponses || (e.Answered? && r in TxsIn(e.response));
    }
  }

  /** A transaction that has come back was answered. */
  lemma {:induction false} BackWasAnswered(w: World, f: Floor, run: seq<Step<Effect>>, h: string)
    requires FloorRun(w, f, run) && !Back(f.core, f.channels.queues, h)
    requires Back(FloorEnd(w, f, run).core, FloorEnd(w, f, run).channels.queues, h)
    ensures TimesAnswered(run, TxJob(h)) > 0
    decreases |run|
  {
    var g := FloorApply(w, f, run[0]);
    if Back(g.core, g.channels.queues, h) {
      BackStep(w, f, run[0], g, h);
    } else {
      BackWasAnswered(w, g, run[1..], h);
    }
  }

  lemma AskedStep(w: World, top: Pair, f: Floor, a: Step<Effect>, g: Floor, x: Address)
    requires w.Bounded(top) && Inv(w, top, Abs(f)) && FloorEnabled(f, a) && g == FloorApply(w, f, a)
    requires x in Asked(w, SentPair(g.core))
    ensures x in Asked(w, SentPair(f.core)) || Asks(w, f.core, a) == Some(AddrJob(x))
  {
    if a.ByCore? {
      assert Enabled(Abs(f), CoreStep(a.step));
      CoreAsks(w, top, Abs(f), a.step, g.core);
    }
  }

  lemma KeepsInv(w: World, times: nat -> int, top: Pair, f: Floor, a: Step<Effect>, g: Floor)
    requires w.Bounded(top) && RunInv(w, top, Abs(f)) && HonestStep(w, times, a)
    requires FloorEnabled(f, a) && g == FloorApply(w, f, a)
    ensures RunInv(w, top, Abs(g))
  {
    StepRefines(w, times, f, a, g, Shadow(a));
    ShadowKeepsInv(w, top, Abs(f), Shadow(a), Abs(g));
  }

  lemma HonestTail(w: World, times: nat -> int, run: seq<Step<Effect>>)
    requires HonestRun(w, times, run) && run != []
    ensures HonestStep(w, times, run[0]) && HonestRun(w, times, run[1..])
  {
  }

  /** An address below the sender's indices was asked for. */
  lemma {:induction false} SentWasAsked(w: World, times: nat -> int, top: Pair, f: Floor, run: seq<Step<Effect>>,
                                        x: Address)
    requires w.Bounded(top) && RunInv(w, top, Abs(f)) && FloorRun(w, f, run) && HonestRun(w, times, run)
    requires x !in Asked(w, SentPair(f.core)) && x in Asked(w, SentPair(FloorEnd(w, f, run).core))
    ensures TimesAsked(w, f, run, AddrJob(x)) > 0
    decreases |run|
  {
    var g := FloorApply(w, f, run[0]);
    HonestTail(w, times, run);
    if x in Asked(w, SentPair(g.core)) {
      AskedStep(w, top, f, run[0], g, x);
    } else {
      KeepsInv(w, times, top, f, run[0], g);
      SentWasAsked(w, times, top, g, run[1..], x);
    }
  }

  lemma {:induction false} AnsweredSomewhere(run: seq<Step<Effect>>, job: Job) returns (k: nat)
    requires TimesAnswered(run, job) > 0
    ensures k < |run| && Answers(run[k]) == Some(job)
  {
    if Answers(run[0]) == Some(job) {
      k := 0;
    } else {
      var j := AnsweredSomewhere(run[1..], job);
      k := j + 1;
    }
  }
}
