/** Fetching ends: every step that is not idle spinning strictly lowers a lexicographic rank, and a
    state that has not returned always has such a step. */
module FetchingProgress {
  import opened Basics
  import opened Wallet
  import opened Fetching
  import opened FetchingSafety
  import opened FetchingResults

  /** Work left at each stage of the pipeline, the earliest stage first. */
  datatype Rank = Rank(
    derivations: int,      // steps of the sender up to the bound on the limits
    addrRequests: nat, addrResponses: nat, scan: nat,
    txRequests: nat, txResponses: nat, store: nat,
    distance: nat,         // sender steps to the next derivation
    running: nat)

  predicate Below(r: Rank, s: Rank) {
    || (0 <= r.derivations < s.derivations)
    || (r.derivations == s.derivations && r.addrRequests < s.addrRequests)
    || (r.derivations == s.derivations && r.addrRequests == s.addrRequests && BelowReceiver(r, s))
  }

  predicate BelowReceiver(r: Rank, s: Rank) {
    || r.addrResponses < s.addrResponses
    || (r.addrResponses == s.addrResponses && r.scan < s.scan)
    || (r.addrResponses == s.addrResponses && r.scan == s.scan && BelowTx(r, s))
  }

  predicate BelowTx(r: Rank, s: Rank) {
    || r.txRequests < s.txRequests
    || (r.txRequests == s.txRequests && r.txResponses < s.txResponses)
    || (r.txRequests == s.txRequests && r.txResponses == s.txResponses && r.store < s.store)
    || (r.txRequests == s.txRequests && r.txResponses == s.txResponses && r.store == s.store
        && (r.distance < s.distance || (r.distance == s.distance && r.running < s.running)))
  }

  /** An index below the current limit is still to be derived. */
  predicate Ready(c: Core, chain: nat)
    requires chain < 2
  {
    c.indexes[chain] < c.lastAddresses[chain]
  }

  function Derivations(top: Pair, c: Core): int {
    var left: int := top[0] + top[1];
    var done: int := c.indexes[0] + c.indexes[1];
    3 * (left - done) - (if c.sender.Counted? then 1 else if c.sender.Sent? then 2 else 0)
  }

  function Scan(c: Core): nat {
    match c.receiver
    case AddrTaken(r) => |r.txHashes| + 3
    case AddrCounted(r) => |r.txHashes| + 2
    case Scanning(r, k) => if k <= |r.txHashes| then |r.txHashes| - k + 1 else 0
    case _ => 0
  }

  function Store(c: Core): nat {
    match c.receiver
    case TxTaken(_) => 2
    case TxCounted(_) => 1
    case _ => 0
  }

  function Distance(c: Core): nat
    requires c.sender.chain < 2
  {
    match c.sender
    case AtLimit(chain) => if Ready(c, chain) then 1 else 3
    case Checking(chain, limit) =>
      if c.indexes[chain] < limit then 0 else if Ready(c, 1 - chain) then 2 else 4
    case _ => 0
  }

  function RankOf(top: Pair, s: State): Rank
    requires s.core.sender.chain < 2
  {
    Rank(Derivations(top, s.core), |s.queues.addrRequests|, |s.queues.addrResponses|, Scan(s.core),
         |s.queues.txRequests|, |s.queues.txResponses|, Store(s.core), Distance(s.core),
         if s.core.receiver.Returned? then 0 else 1)
  }

  /** Going round without work: the sender polling limits it has reached, the receiver's clock
      ticking before everything is done. */
  predicate Spins(s: State, a: Action)
    requires Enabled(s, a)
  {
    || ((a == CoreStep(Send(ReadLimit)) || a == CoreStep(Send(SkipChain))) && !Ready(s.core, 0) && !Ready(s.core, 1))
    || (a == CoreStep(Tick) && !Complete(s.core))
  }

  lemma SendProgresses(w: World, top: Pair, s: State, a: SenderAction)
    requires SenderInv(w, top, s.core) && SendEnabled(s.core, a) && top[0] < TWO31 && top[1] < TWO31
    ensures var t := Apply(w, s, CoreStep(Send(a)));
      t.core.sender.chain < 2
      && (Spins(s, CoreStep(Send(a))) || Below(RankOf(top, t), RankOf(top, s)))
  {
  }

  /** What the steps on address responses do to the parts that the rank looks at. */
  lemma AddrMoves(w: World, s: State, a: AddrAction)
    requires Enabled(s, CoreStep(OnAddr(a)))
    ensures var t := Apply(w, s, CoreStep(OnAddr(a)));
      && t.core.indexes == s.core.indexes && t.core.sender == s.core.sender
      && t.queues.addrRequests == s.queues.addrRequests
      && if a.TakeAddr? then |t.queues.addrResponses| < |s.queues.addrResponses|
         else t.queues.addrResponses == s.queues.addrResponses && Scan(t.core) < Scan(s.core)
  {
  }

  lemma AddrProgresses(w: World, top: Pair, s: State, a: AddrAction)
    requires s.core.sender.chain < 2 && Enabled(s, CoreStep(OnAddr(a)))
    ensures var t := Apply(w, s, CoreStep(OnAddr(a)));
      t.core.sender.chain < 2 && Below(RankOf(top, t), RankOf(top, s))
  {
    AddrMoves(w, s, a);
    RankByParts(top, s, Apply(w, s, CoreStep(OnAddr(a))));
  }

  ghost predicate SameUpToScan(s: State, t: State) {
    && t.core.indexes == s.core.indexes && t.core.sender == s.core.sender
    && t.queues.addrRequests == s.queues.addrRequests
    && t.queues.addrResponses == s.queues.addrResponses && Scan(t.core) == Scan(s.core)
  }

  lemma RankByParts(top: Pair, s: State, t: State)
    requires s.core.sender.chain < 2 && t.core.indexes == s.core.indexes && t.core.sender == s.core.sender
    requires || |t.queues.addrRequests| < |s.queues.addrRequests|
             || (|t.queues.addrRequests| == |s.queues.addrRequests|
                 && (|t.queues.addrResponses| < |s.queues.addrResponses|
                     || (|t.queues.addrResponses| == |s.queues.addrResponses| && Scan(t.core) < Scan(s.core))))
    ensures Below(RankOf(top, t), RankOf(top, s))
  {
  }

  /** The same for the steps on transaction responses and the tick. */
  lemma TxMoves(w: World, s: State, a: CoreAction)
    requires Enabled(s, CoreStep(a)) && (a.OnTx? || a.Tick?)
    ensures var t := Apply(w, s, CoreStep(a));
      && SameUpToScan(s, t) && t.queues.txRequests == s.queues.txRequests
      && t.core.lastAddresses == s.core.lastAddresses
      && match a
         case OnTx(TakeTx(_)) => |t.queues.txResponses| < |s.queues.txResponses|
         case OnTx(_) => t.queues.txResponses == s.queues.txResponses && Store(t.core) < Store(s.core)
         case _ => t.queues == s.queues && Store(t.core) == Store(s.core)
                   && s.core.receiver.Idle? && t.core.receiver == if Complete(s.core) then Returned else Idle
  {
  }

  lemma TxProgresses(w: World, top: Pair, s: State, a: CoreAction)
    requires s.core.sender.chain < 2 && Enabled(s, CoreStep(a)) && (a.OnTx? || a.Tick?)
    ensures var t := Apply(w, s, CoreStep(a));
      t.core.sender.chain < 2 && (Spins(s, CoreStep(a)) || Below(RankOf(top, t), RankOf(top, s)))
  {
    TxMoves(w, s, a);
    if !Spins(s, CoreStep(a)) {
      RankByTxParts(top, s, Apply(w, s, CoreStep(a)));
    }
  }

  lemma RankByTxParts(top: Pair, s: State, t: State)
    requires s.core.sender.chain < 2 && SameUpToScan(s, t) && t.queues.txRequests == s.queues.txRequests
    requires t.core.lastAddresses == s.core.lastAddresses
    requires || |t.queues.txResponses| < |s.queues.txResponses|
             || (t.queues.txResponses == s.queues.txResponses
                 && (Store(t.core) < Store(s.core)
                     || (Store(t.core) == Store(s.core) && !s.core.receiver.Returned? && t.core.receiver.Returned?)))
    ensures Below(RankOf(top, t), RankOf(top, s))
  {
  }

  lemma AnswerProgresses(w: World, top: Pair, s: State, a: Action)
    requires s.core.sender.chain < 2 && Enabled(s, a) && !a.CoreStep?
    ensures var t := Apply(w, s, a);
      t.core == s.core && Below(RankOf(top, t), RankOf(top, s))
  {
  }

  /** Every step other than spinning lowers the rank, in every order of steps; spinning leaves all
      but the position of the sender as it was. */
  lemma EveryStepProgresses(w: World, top: Pair, s: State, a: Action)
    requires w.Bounded(top) && Inv(w, top, s) && Enabled(s, a)
    ensures var t := Apply(w, s, a);
      && Derivations(top, t.core) >= 0 && t.core.sender.chain < 2
      && if Spins(s, a) then t.queues == s.queues && t.core.(sender := s.core.sender) == s.core
         else Below(RankOf(top, t), RankOf(top, s))
  {
    StepKeepsInv(w, top, s, a);
    DerivationsNonNegative(w, top, Apply(w, s, a).core);
    if Spins(s, a) {
      SpinningIsIdle(w, s, a);
    } else if a.CoreStep? && a.step.Send? {
      SendProgresses(w, top, s, a.step.send);
    } else if a.CoreStep? && a.step.OnAddr? {
      AddrProgresses(w, top, s, a.step.onAddr);
    } else if a.CoreStep? {
      TxProgresses(w, top, s, a.step);
    } else {
      AnswerProgresses(w, top, s, a);
    }
  }

  lemma SpinningIsIdle(w: World, s: State, a: Action)
    requires Enabled(s, a) && Spins(s, a)
    ensures var t := Apply(w, s, a);
      t.queues == s.queues && t.core.(sender := s.core.sender) == s.core
  {
  }

  lemma DerivationsNonNegative(w: World, top: Pair, c: Core)
    requires SenderInv(w, top, c)
    ensures c.sender.chain < 2 && Derivations(top, c) >= 0
  {
  }

  ghost predicate CanProgress(s: State) {
    exists a :: Enabled(s, a) && !Spins(s, a)
  }

  lemma BusyReceiver(s: State)
    requires !s.core.receiver.Idle? && !s.core.receiver.Returned?
    requires s.core.receiver.Scanning? ==>
      s.core.receiver.next <= |s.core.receiver.addr.txHashes| && s.core.receiver.addr.address.change < 2
    ensures CanProgress(s)
  {
    var a := match s.core.receiver
      case AddrTaken(_) => CoreStep(OnAddr(CountAddr))
      case AddrCounted(_) => CoreStep(OnAddr(StoreAddr))
      case Scanning(r, k) => CoreStep(OnAddr(if k < |r.txHashes| then ScanHash else RaiseLimit))
      case TxTaken(_) => CoreStep(OnTx(CountTx))
      case _ => CoreStep(OnTx(StoreTx));
    assert Enabled(s, a) && !Spins(s, a);
  }

  lemma BusySender(s: State)
    requires s.core.sender.chain < 2
    requires s.core.sender.Counted? || s.core.sender.Sent? || Ready(s.core, 0) || Ready(s.core, 1)
    ensures CanProgress(s)
  {
    var c := s.core;
    var a := CoreStep(Send(match c.sender
      case AtLimit(_) => ReadLimit
      case Checking(chain, limit) => if c.indexes[chain] < limit then CountDerived else SkipChain
      case Counted(_, _) => SendRequest
      case Sent(_, _) => AdvanceIndex));
    assert Enabled(s, a) && !Spins(s, a);
  }

  lemma BusyQueues(s: State)
    requires s.core.receiver.Idle? && !Quiet(s.queues)
    ensures CanProgress(s)
  {
    var q := s.queues;
    if q.addrRequests != multiset{} {
      var x :| x in q.addrRequests;
      assert Enabled(s, AnswerAddr(x)) && !Spins(s, AnswerAddr(x));
    } else if q.txRequests != multiset{} {
      var x :| x in q.txRequests;
      assert Enabled(s, AnswerTx(x)) && !Spins(s, AnswerTx(x));
    } else if q.addrResponses != multiset{} {
      var x :| x in q.addrResponses;
      assert Enabled(s, CoreStep(OnAddr(TakeAddr(x)))) && !Spins(s, CoreStep(OnAddr(TakeAddr(x))));
    } else {
      var x :| x in q.txResponses;
      assert Enabled(s, CoreStep(OnTx(TakeTx(x)))) && !Spins(s, CoreStep(OnTx(TakeTx(x))));
    }
  }

  /** In no reachable state is fetching stuck: until recvWork has returned, some step other than
      spinning is enabled; when all else is done, it is the tick at which complete() is true. */
  lemma NeverStuck(w: World, top: Pair, s: State)
    requires w.Bounded(top) && Inv(w, top, s) && !s.core.receiver.Returned?
    ensures CanProgress(s)
  {
    var c := s.core;
    if !c.receiver.Idle? {
      if c.receiver.Scanning? {
        HeldChain(w, top, s);
      }
      BusyReceiver(s);
    } else if !Quiet(s.queues) {
      BusyQueues(s);
    } else if c.sender.Counted? || c.sender.Sent? || Ready(c, 0) || Ready(c, 1) {
      BusySender(s);
    } else {
      CompleteExactly(w, top, s);
      assert SentPair(c) == c.lastAddresses;
      assert Enabled(s, CoreStep(Tick)) && !Spins(s, CoreStep(Tick));
    }
  }

  lemma HeldChain(w: World, top: Pair, s: State)
    requires HonestInv(w, s) && s.core.receiver.Scanning?
    ensures s.core.receiver.addr.address.change < 2
  {
    var a := s.core.receiver.addr.address;
    assert a in Asked(w, SentPair(s.core));
  }

  /** Reachable states: NeverStuck and EveryStepProgresses hold along every schedule. */
  lemma FetchingEnds(w: World, top: Pair, schedule: seq<Action>)
    requires w.Bounded(top) && Run(w, Init(w), schedule)
    ensures var s := End(w, Init(w), schedule);
      && s.core.sender.chain < 2
      && (s.core.receiver.Returned? || CanProgress(s))
      && (forall a :: Enabled(s, a) && !Spins(s, a) ==>
            && Apply(w, s, a).core.sender.chain < 2 && Derivations(top, Apply(w, s, a).core) >= 0
            && Below(RankOf(top, Apply(w, s, a)), RankOf(top, s)))
  {
    InitInv(w, top);
    RunKeepsInv(w, top, Init(w), schedule);
    var s := End(w, Init(w), schedule);
    if !s.core.receiver.Returned? {
      NeverStuck(w, top, s);
    }
    forall a | Enabled(s, a) && !Spins(s, a)
      ensures && Apply(w, s, a).core.sender.chain < 2 && Derivations(top, Apply(w, s, a).core) >= 0
              && Below(RankOf(top, Apply(w, s, a)), RankOf(top, s))
    {
      EveryStepProgresses(w, top, s, a);
    }
  }
}
