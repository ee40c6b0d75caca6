/** Results about whole runs of the fetch protocol: stopping is sound and exact, the outcome does
    not depend on the schedule, and fetching ends. */
module FetchingResults {
  import opened Basics
  import opened Deriver
  import opened Wallet
  import opened Fetching
  import opened FetchingSafety

  predicate Quiet(q: Queues) {
    && q.addrRequests == multiset{} && q.addrResponses == multiset{}
    && q.txRequests == multiset{} && q.txResponses == multiset{}
  }

  /** Everything below the limits has been fetched and stored, nothing else has, nothing is under
      way, and the limits are the ones that the wallet's history calls for. */
  ghost predicate Settled(w: World, s: State) {
    var limits := s.core.lastAddresses;
    && Quiet(s.queues) && SentPair(s.core) == limits
    && w.LeastClosed(limits)
    && Fetched(w, limits, s.core)
  }

  ghost predicate Fetched(w: World, limits: Pair, c: Core) {
    var asked := Asked(w, limits);
    && (forall x :: x in c.addresses <==> x in Scripts(w, asked))
    && (forall x :: x in c.addresses ==> HonestEntry(w, asked, x, c.addresses[x]))
    && (forall h :: h in c.transactions <==> h in Revealed(w, asked))
    && (forall h :: h in c.transactions ==> c.transactions[h] == w.tx(h))
  }

  /** The four counters decide exactly whether everything that was sent has been handled: with the
      receiver in its select, `complete()` holds if and only if nothing is under way and the sender
      has reached both limits. */
  lemma CompleteExactly(w: World, top: Pair, s: State)
    requires w.Bounded(top) && Inv(w, top, s) && s.core.receiver.Idle?
    ensures Complete(s.core) <==> Quiet(s.queues) && SentPair(s.core) == s.core.lastAddresses
  {
    var c, q := s.core, s.queues;
    if Complete(c) {
      assert |q.addrRequests| == 0 && |q.addrResponses| == 0 && |q.txRequests| == 0 && |q.txResponses| == 0;
    }
    if Quiet(q) && SentPair(c) == c.lastAddresses {
      assert SentUpTo(c, 0) == c.lastAddresses[0] && SentUpTo(c, 1) == c.lastAddresses[1];
    }
  }

  /** One of the four tests is redundant: in every reachable state the number of derived addresses is right if
      the number of processed ones is. */
  lemma DerivedTestIsRedundant(w: World, top: Pair, s: State)
    requires w.Bounded(top) && Inv(w, top, s)
    ensures Complete(s.core) <==>
      && s.core.processedAddrCount == Add32(s.core.lastAddresses[0], s.core.lastAddresses[1])
      && s.core.seenTxCount == s.core.processedTxCount
  {
    assert s.core.processedAddrCount <= SentUpTo(s.core, 0) + SentUpTo(s.core, 1) <= s.core.derivedAddrCount;
    assert s.core.derivedAddrCount <= s.core.lastAddresses[0] + s.core.lastAddresses[1];
  }

  /** With nothing under way, coverage means that every address sent was handled. */
  lemma AllHandled(w: World, asked: iset<Address>, s: State)
    requires Accounted(w, asked, s) && Quiet(s.queues) && HeldAddr(s.core).None? && HeldTx(s.core).None?
    ensures forall a :: a in asked ==> w.script(a) in s.core.addresses
    ensures forall a, h :: a in asked && h in w.history(a) ==> h in s.core.transactions
    ensures forall a :: a in asked && w.history(a) != [] && a.change < 2
              ==> a.addrIndex + w.lookahead <= s.core.lastAddresses[a.change]
  {
    forall a, h | a in asked && h in w.history(a) ensures h in s.core.transactions {
      assert Handled(w, s, a);
      assert Covered(w, s, h);
    }
  }

  lemma HandledMeansClosed(w: World, limits: Pair)
    requires w.lookahead <= limits[0] && w.lookahead <= limits[1]
    requires forall a :: a in Asked(w, limits) && w.history(a) != [] && a.change < 2
               ==> a.addrIndex + w.lookahead <= limits[a.change]
    ensures w.Closed(limits)
  {
    forall c: nat, i: nat | c < 2 && i < limits[c] && w.Used(c, i) ensures w.Within(limits, c, i) {
      assert Requested(w, limits, w.Addr(c, i));
      assert w.Addr(c, i) in Asked(w, limits);
    }
  }

  lemma CompleteIsSettled(w: World, top: Pair, s: State)
    requires w.Bounded(top) && Inv(w, top, s) && s.core.receiver.Idle? && Complete(s.core)
    ensures Settled(w, s)
  {
    CompleteExactly(w, top, s);
    var limits := s.core.lastAddresses;
    var asked := Asked(w, limits);
    AllHandled(w, asked, s);
    HandledMeansClosed(w, limits);
    FetchedAll(w, asked, s);
  }

  lemma FetchedAll(w: World, asked: iset<Address>, s: State)
    requires HonestMaps(w, asked, Revealed(w, asked), s.core)
    requires forall a :: a in asked ==> w.script(a) in s.core.addresses
    requires forall a, h :: a in asked && h in w.history(a) ==> h in s.core.transactions
    ensures forall x :: x in s.core.addresses <==> x in Scripts(w, asked)
    ensures forall x :: x in s.core.addresses ==> HonestEntry(w, asked, x, s.core.addresses[x])
    ensures forall h :: h in s.core.transactions <==> h in Revealed(w, asked)
    ensures forall h :: h in s.core.transactions ==> s.core.transactions[h] == w.tx(h)
  {
  }

  lemma QuietFrame(w: World, top: Pair, s: State, a: Action)
    requires SenderInv(w, top, s.core) && Enabled(s, a) && top[0] < TWO31 && top[1] < TWO31
    requires Quiet(s.queues) && SentPair(s.core) == s.core.lastAddresses
    requires s.core.receiver.Idle? || s.core.receiver.Returned?
    ensures !(a == CoreStep(Send(CountDerived)) || a == CoreStep(Send(SendRequest)))
    ensures var c, c' := s.core, Apply(w, s, a).core;
      && c'.addresses == c.addresses && c'.transactions == c.transactions && c'.lastAddresses == c.lastAddresses
      && (c'.receiver == c.receiver || c'.receiver.Returned?)
      && Apply(w, s, a).queues == s.queues && SentPair(c') == SentPair(c)
  {
    SentPairIs(s.core);
    if a.CoreStep? && a.step.Send? {
      SendEffect(w, top, s.core, s.queues, a.step.send);
    }
  }

  /** Once settled, no step changes anything but where the two goroutines stand: no address can be
      derived any more. */
  lemma SettledIsFinal(w: World, top: Pair, s: State, a: Action)
    requires SenderInv(w, top, s.core) && Settled(w, s) && Enabled(s, a) && top[0] < TWO31 && top[1] < TWO31
    requires s.core.receiver.Idle? || s.core.receiver.Returned?
    ensures !(a == CoreStep(Send(CountDerived)) || a == CoreStep(Send(SendRequest)))
    ensures Settled(w, Apply(w, s, a))
    ensures var c, c' := s.core, Apply(w, s, a).core;
      && c'.addresses == c.addresses && c'.transactions == c.transactions && c'.lastAddresses == c.lastAddresses
      && (c'.receiver == c.receiver || c'.receiver.Returned?)
  {
    QuietFrame(w, top, s, a);
    SettledFrame(w, s, Apply(w, s, a));
  }

  lemma SettledFrame(w: World, s: State, t: State)
    requires Settled(w, s) && t.queues == s.queues && SentPair(t.core) == SentPair(s.core)
    requires t.core.lastAddresses == s.core.lastAddresses
    requires t.core.addresses == s.core.addresses && t.core.transactions == s.core.transactions
    ensures Settled(w, t)
  {
  }

  ghost predicate RunInv(w: World, top: Pair, s: State) {
    Inv(w, top, s) && (s.core.receiver.Returned? ==> Settled(w, s))
  }

  lemma StepKeepsRunInv(w: World, top: Pair, s: State, a: Action)
    requires w.Bounded(top) && RunInv(w, top, s) && Enabled(s, a)
    ensures RunInv(w, top, Apply(w, s, a))
  {
    StepKeepsInv(w, top, s, a);
    if s.core.receiver.Returned? {
      SettledIsFinal(w, top, s, a);
    } else if a == CoreStep(Tick) && Complete(s.core) {
      CompleteIsSettled(w, top, s);
      SettledIsFinal(w, top, s, a);
    } else {
      OnlyTickReturns(w, s, a);
    }
  }

  lemma OnlyTickReturns(w: World, s: State, a: Action)
    requires Enabled(s, a) && !s.core.receiver.Returned? && !(a == CoreStep(Tick) && Complete(s.core))
    ensures !Apply(w, s, a).core.receiver.Returned?
  {
  }

  lemma {:induction false} RunKeepsInv(w: World, top: Pair, s: State, schedule: seq<Action>)
    requires w.Bounded(top) && RunInv(w, top, s) && Run(w, s, schedule)
    ensures RunInv(w, top, End(w, s, schedule))
    decreases |schedule|
  {
    if schedule != [] {
      StepKeepsRunInv(w, top, s, schedule[0]);
      RunKeepsInv(w, top, Apply(w, s, schedule[0]), schedule[1..]);
    }
  }

  /** Stopping is sound: under every schedule, when `complete()` is true in the receiver's select,
      and from then on when recvWork has returned, everything has been fetched. */
  lemma StoppingIsSound(w: World, top: Pair, schedule: seq<Action>)
    requires w.Bounded(top) && Run(w, Init(w), schedule)
    ensures var s := End(w, Init(w), schedule);
      (s.core.receiver.Idle? && Complete(s.core)) || s.core.receiver.Returned? ==> Settled(w, s)
  {
    InitInv(w, top);
    RunKeepsInv(w, top, Init(w), schedule);
    var s := End(w, Init(w), schedule);
    if s.core.receiver.Idle? && Complete(s.core) {
      CompleteIsSettled(w, top, s);
    }
  }

  /** The receive chain is derived up to the lookahead before the change chain is begun. */
  ghost predicate ReceiveFirst(w: World, c: Core) {
    && (c.sender.chain > 0 || c.indexes[1] > 0 ==> c.indexes[0] >= w.lookahead)
    && (!c.sender.AtLimit? ==> c.sender.limit >= w.lookahead)
  }

  lemma StepKeepsReceiveFirst(w: World, top: Pair, s: State, a: Action, t: State)
    requires SenderInv(w, top, s.core) && ReceiveFirst(w, s.core) && top[0] < TWO31 && top[1] < TWO31
    requires Enabled(s, a) && t == Apply(w, s, a)
    ensures ReceiveFirst(w, t.core)
  {
    if a.CoreStep? && !a.step.Send? {
      assert t.core.sender == s.core.sender && t.core.indexes == s.core.indexes;
    }
  }

  lemma {:induction false} ReceiveComesFirst(w: World, top: Pair, s: State, schedule: seq<Action>)
    requires w.Bounded(top) && RunInv(w, top, s) && ReceiveFirst(w, s.core) && Run(w, s, schedule)
    ensures ReceiveFirst(w, End(w, s, schedule).core)
    decreases |schedule|
  {
    if schedule != [] {
      StepKeepsReceiveFirst(w, top, s, schedule[0], Apply(w, s, schedule[0]));
      StepKeepsRunInv(w, top, s, schedule[0]);
      ReceiveComesFirst(w, top, Apply(w, s, schedule[0]), schedule[1..]);
    }
  }

  /** In every reachable state, whatever the schedule, no change address has been derived unless the first
      `lookahead` receive addresses have. */
  lemma ChainsInTurn(w: World, top: Pair, schedule: seq<Action>)
    requires w.Bounded(top) && Run(w, Init(w), schedule)
    ensures var c := End(w, Init(w), schedule).core; c.indexes[1] > 0 ==> c.indexes[0] >= w.lookahead
  {
    InitInv(w, top);
    ReceiveComesFirst(w, top, Init(w), schedule);
  }

  lemma AddrKeepsStored(w: World, c: Core, q: Queues, a: AddrAction, h: string)
    requires AddrEnabled(c, a) && h in c.transactions
    ensures h in AddrApply(w, c, a).transactions
    ensures Exchange(w, c, q, OnAddr(a)).txRequests[h] <= q.txRequests[h]
  {
    if a.ScanHash? && Unknown(c) {
      assert NextHash(c) != h;
    }
  }

  lemma StepKeepsStored(w: World, s: State, a: Action, t: State, h: string)
    requires Enabled(s, a) && t == Apply(w, s, a) && h in s.core.transactions
    ensures h in t.core.transactions && t.queues.txRequests[h] <= s.queues.txRequests[h]
  {
    match a
    case CoreStep(OnAddr(b)) => AddrKeepsStored(w, s.core, s.queues, b, h);
    case CoreStep(OnTx(b)) => assert t.queues.txRequests == s.queues.txRequests;
    case CoreStep(_) => assert t.core.transactions == s.core.transactions;
    case AnswerAddr(_) =>
    case AnswerTx(_) =>
  }

  /** A transaction that is stored is never asked for again. */
  lemma {:induction false} StoredIsNotAskedFor(w: World, s: State, schedule: seq<Action>, h: string)
    requires Run(w, s, schedule) && h in s.core.transactions
    ensures var t := End(w, s, schedule);
      h in t.core.transactions && t.queues.txRequests[h] <= s.queues.txRequests[h]
    decreases |schedule|
  {
    if schedule != [] {
      StepKeepsStored(w, s, schedule[0], Apply(w, s, schedule[0]), h);
      StoredIsNotAskedFor(w, Apply(w, s, schedule[0]), schedule[1..], h);
    }
  }

  lemma StepRaises(w: World, s: State, a: Action, c: nat)
    requires Enabled(s, a) && c < 2
    ensures s.core.lastAddresses[c] <= Apply(w, s, a).core.lastAddresses[c]
  {
  }

  lemma {:induction false} LimitsOnlyGrow(w: World, s: State, schedule: seq<Action>, c: nat)
    requires Run(w, s, schedule) && c < 2
    ensures s.core.lastAddresses[c] <= End(w, s, schedule).core.lastAddresses[c]
    decreases |schedule|
  {
    if schedule != [] {
      StepRaises(w, s, schedule[0], c);
      LimitsOnlyGrow(w, Apply(w, s, schedule[0]), schedule[1..], c);
    }
  }

  lemma ReachedLimits(w: World, top: Pair, schedule: seq<Action>)
    requires w.Bounded(top) && Run(w, Init(w), schedule)
    ensures LimitInv(w, End(w, Init(w), schedule).core)
  {
    InitInv(w, top);
    RunKeepsInv(w, top, Init(w), schedule);
  }

  /** A limit that the sender reads stays right for good: whatever the receiver does later, no address below
      it becomes superfluous, and it is not above the limits that the wallet's history calls for. */
  lemma ReadLimitStaysRight(w: World, top: Pair, before: seq<Action>, s: State, after: seq<Action>, c: nat)
    requires w.Bounded(top) && Run(w, Init(w), before) && s == End(w, Init(w), before) && Run(w, s, after) && c < 2
    ensures s.core.lastAddresses[c] <= End(w, s, after).core.lastAddresses[c]
    ensures forall m: Pair :: w.Closed(m) ==> s.core.lastAddresses[c] <= m[c]
  {
    ReachedLimits(w, top, before);
    LimitsOnlyGrow(w, s, after, c);
  }

  /** No two of the addresses are paid by the same script. */
  ghost predicate OneAddressPerScript(w: World, asked: iset<Address>) {
    forall a, b {:trigger w.script(a), w.script(b)} :: a in asked && b in asked && w.script(a) == w.script(b) ==> a == b
  }

  lemma SameEntries(w: World, asked: iset<Address>, a: map<string, Entry>, b: map<string, Entry>)
    requires OneAddressPerScript(w, asked) && a.Keys == b.Keys
    requires forall x :: x in a ==> HonestEntry(w, asked, x, a[x]) && HonestEntry(w, asked, x, b[x])
    ensures a == b
  {
  }

  /** The outcome does not depend on the schedule: limits, scripts and transactions are the same, and so
      is the path and history stored for each script, if no two addresses share one. */
  lemma ScheduleIndependence(w: World, top: Pair, one: seq<Action>, two: seq<Action>)
    requires w.Bounded(top) && Run(w, Init(w), one) && Run(w, Init(w), two)
    requires End(w, Init(w), one).core.receiver.Returned? && End(w, Init(w), two).core.receiver.Returned?
    ensures var a, b := End(w, Init(w), one).core, End(w, Init(w), two).core;
      && a.lastAddresses == b.lastAddresses
      && a.addresses.Keys == b.addresses.Keys
      && a.transactions == b.transactions
      && (OneAddressPerScript(w, Asked(w, a.lastAddresses)) ==> a.addresses == b.addresses)
  {
    StoppingIsSound(w, top, one);
    StoppingIsSound(w, top, two);
    var a, b := End(w, Init(w), one).core, End(w, Init(w), two).core;
    w.LeastUnique(a.lastAddresses, b.lastAddresses);
    SameFetched(w, a, b);
  }

  lemma SameFetched(w: World, a: Core, b: Core)
    requires a.lastAddresses == b.lastAddresses && Fetched(w, a.lastAddresses, a) && Fetched(w, b.lastAddresses, b)
    ensures a.addresses.Keys == b.addresses.Keys && a.transactions == b.transactions
    ensures OneAddressPerScript(w, Asked(w, a.lastAddresses)) ==> a.addresses == b.addresses
  {
    var asked := Asked(w, a.lastAddresses);
    forall h ensures h in a.transactions <==> h in b.transactions {}
    forall x ensures x in a.addresses <==> x in b.addresses {}
    if OneAddressPerScript(w, asked) {
      SameEntries(w, asked, a.addresses, b.addresses);
    }
  }

  /** The limits of a run that has returned, for the two kinds of wallet. */
  lemma FinalLimits(w: World, top: Pair, schedule: seq<Action>)
    requires w.Bounded(top) && Run(w, Init(w), schedule)
    requires End(w, Init(w), schedule).core.receiver.Returned?
    ensures var limits := End(w, Init(w), schedule).core.lastAddresses;
      if w.deriver.singleAddress != "" then limits == [w.lookahead, w.lookahead]
      else LeastChainLimit(w, 0, limits[0]) && LeastChainLimit(w, 1, limits[1])
  {
    StoppingIsSound(w, top, schedule);
    var limits := End(w, Init(w), schedule).core.lastAddresses;
    if w.deriver.singleAddress != "" {
      SingleAddressLimits(w, limits);
    } else {
      LimitsPerChain(w, limits);
    }
  }
}
