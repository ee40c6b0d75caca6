/** What every step of the fetch protocol keeps, and why stopping on four counters is sound. */
module FetchingSafety {
  import opened Basics
  import opened Sums
  import opened Deriver
  import opened Wallet
  import opened Fetching

  /** Number of indices of a chain whose address has been sent. */
  function SentUpTo(c: Core, chain: nat): nat
    requires chain < 2
  {
    c.indexes[chain] + if c.sender.Sent? && c.sender.chain == chain then 1 else 0
  }

  function SentPair(c: Core): Pair {
    [SentUpTo(c, 0), SentUpTo(c, 1)]
  }

  /** The response that the receiver is busy with. */
  function HeldAddr(c: Core): Option<AddrResponse> {
    if c.receiver.AddrTaken? || c.receiver.AddrCounted? || c.receiver.Scanning? then Some(c.receiver.addr) else None
  }

  function HeldTx(c: Core): Option<TxResponse> {
    if c.receiver.TxTaken? || c.receiver.TxCounted? then Some(c.receiver.tx) else None
  }

  /** The sender stays within the limits, which only grow, and counts what it derives. */
  ghost predicate SenderInv(w: World, top: Pair, c: Core) {
    && w.lookahead <= c.lastAddresses[0] <= top[0] && w.lookahead <= c.lastAddresses[1] <= top[1]
    && c.indexes[0] <= c.lastAddresses[0] && c.indexes[1] <= c.lastAddresses[1]
    && c.sender.chain < 2
    && (!c.sender.AtLimit? ==> c.sender.limit <= c.lastAddresses[c.sender.chain])
    && (c.sender.Counted? || c.sender.Sent? ==> c.indexes[c.sender.chain] < c.sender.limit)
    && c.derivedAddrCount == c.indexes[0] + c.indexes[1] + (if c.sender.Counted? || c.sender.Sent? then 1 else 0)
  }

  /** No limit is ever raised above what closed limits allow. */
  ghost predicate LimitInv(w: World, c: Core) {
    forall m: Pair :: w.Closed(m) ==> c.lastAddresses[0] <= m[0] && c.lastAddresses[1] <= m[1]
  }

  /** Every address sent is queued, answered, in hand, or counted as processed. */
  ghost predicate AddrCountInv(s: State) {
    s.core.processedAddrCount + |s.queues.addrRequests| + |s.queues.addrResponses|
      + (if s.core.receiver.AddrTaken? then 1 else 0)
      == SentUpTo(s.core, 0) + SentUpTo(s.core, 1)
  }

  /** Every transaction requested is queued, answered, in hand, or counted as processed. */
  ghost predicate TxCountInv(s: State) {
    s.core.processedTxCount + |s.queues.txRequests| + |s.queues.txResponses|
      + (if s.core.receiver.TxTaken? then 1 else 0)
      == s.core.seenTxCount
  }

  function HistoryLength(w: World): Address -> nat {
    (a: Address) => |w.history(a)|
  }

  function HashCount(r: AddrResponse): nat { |r.txHashes| }

  /** Hashes that the response in hand still has to be scanned for. */
  function Unscanned(c: Core): nat {
    match c.receiver
    case AddrTaken(r) => |r.txHashes|
    case AddrCounted(r) => |r.txHashes|
    case Scanning(r, k) => if k <= |r.txHashes| then |r.txHashes| - k else 0
    case _ => 0
  }

  /** No more transactions are asked for than the histories of the addresses sent have entries. */
  ghost predicate SeenInv(w: World, s: State) {
    s.core.seenTxCount + SumBag(s.queues.addrRequests, HistoryLength(w))
      + SumBag(s.queues.addrResponses, HashCount) + Unscanned(s.core)
      <= w.HistorySum(0, SentUpTo(s.core, 0)) + w.HistorySum(1, SentUpTo(s.core, 1))
  }

  /** `a` is the address of one of the first n[0] or n[1] indices. */
  ghost predicate Requested(w: World, n: Pair, a: Address) {
    exists chain: nat, i: nat :: chain < 2 && i < n[chain] && a == w.Addr(chain, i)
  }

  /** The addresses sent, the hashes in their histories, and the scripts that pay them. */
  ghost function Asked(w: World, n: Pair): iset<Address> {
    iset a | Requested(w, n, a)
  }

  ghost function Revealed(w: World, asked: iset<Address>): iset<string> {
    iset a, h | a in asked && h in w.history(a) :: h
  }

  ghost function Scripts(w: World, asked: iset<Address>): iset<string> {
    iset a | a in asked :: w.script(a)
  }

  ghost predicate HonestAddr(w: World, asked: iset<Address>, r: AddrResponse) {
    r == AddrAnswer(w, r.address) && r.address in asked
  }

  ghost predicate HonestTx(w: World, known: iset<string>, r: TxResponse) {
    r == TxAnswer(w, r.hash) && r.hash in known
  }

  /** Every address response under way is the world's answer for an address that was sent. */
  ghost predicate HonestAddrs(w: World, asked: iset<Address>, q: Queues, held: Option<AddrResponse>) {
    && (forall a :: a in q.addrRequests ==> a in asked)
    && (forall r :: r in q.addrResponses ==> HonestAddr(w, asked, r))
    && (held.Some? ==> HonestAddr(w, asked, held.value))
  }

  /** Every transaction under way is the world's, for a hash in the history of an address sent. */
  ghost predicate HonestTxs(w: World, known: iset<string>, q: Queues, held: Option<TxResponse>) {
    && (forall h :: h in q.txRequests ==> h in known)
    && (forall r :: r in q.txResponses ==> HonestTx(w, known, r))
    && (held.Some? ==> HonestTx(w, known, held.value))
  }

  /** An entry is the world's, for an address that was sent, under the script of that address. */
  ghost predicate HonestEntry(w: World, asked: iset<Address>, script: string, e: Entry) {
    e.path in asked && w.script(e.path) == script && e.txHashes == w.history(e.path)
  }

  /** So is everything stored. */
  ghost predicate HonestMaps(w: World, asked: iset<Address>, known: iset<string>, c: Core) {
    && (forall h :: h in c.transactions ==> c.transactions[h] == w.tx(h) && h in known)
    && (forall x :: x in c.addresses ==> HonestEntry(w, asked, x, c.addresses[x]))
  }

  ghost predicate Honest(w: World, asked: iset<Address>, known: iset<string>, s: State) {
    && HonestAddrs(w, asked, s.queues, HeldAddr(s.core))
    && HonestTxs(w, known, s.queues, HeldTx(s.core))
    && HonestMaps(w, asked, known, s.core)
  }

  ghost predicate HonestInv(w: World, s: State) {
    var asked := Asked(w, SentPair(s.core));
    Honest(w, asked, Revealed(w, asked), s)
  }

  ghost predicate InFlight(w: World, s: State, a: Address) {
    || a in s.queues.addrRequests
    || AddrAnswer(w, a) in s.queues.addrResponses
    || HeldAddr(s.core) == Some(AddrAnswer(w, a))
  }

  ghost predicate Covered(w: World, s: State, hash: string) {
    || hash in s.core.transactions
    || hash in s.queues.txRequests
    || TxAnswer(w, hash) in s.queues.txResponses
    || HeldTx(s.core) == Some(TxAnswer(w, hash))
  }

  ghost predicate Handled(w: World, s: State, a: Address) {
    && w.script(a) in s.core.addresses
    && (forall h :: h in w.history(a) ==> Covered(w, s, h))
    && (w.history(a) != [] && a.change < 2 ==> a.addrIndex + w.lookahead <= s.core.lastAddresses[a.change])
  }

  /** Nothing is lost: an address sent is still under way or has been handled completely. */
  ghost predicate Accounted(w: World, asked: iset<Address>, s: State) {
    forall a :: a in asked ==> InFlight(w, s, a) || Handled(w, s, a)
  }

  ghost predicate CoverageInv(w: World, s: State) {
    Accounted(w, Asked(w, SentPair(s.core)), s) && ScanInv(w, s)
  }

  ghost predicate ScanInv(w: World, s: State) {
    s.core.receiver.Scanning? ==>
      var r, k := s.core.receiver.addr, s.core.receiver.next;
      && k <= |r.txHashes|
      && w.script(r.address) in s.core.addresses
      && (forall j :: 0 <= j < k ==> Covered(w, s, r.txHashes[j]))
  }

  ghost predicate Inv(w: World, top: Pair, s: State) {
    && SenderInv(w, top, s.core) && LimitInv(w, s.core)
    && AddrCountInv(s) && TxCountInv(s) && SeenInv(w, s)
    && HonestInv(w, s) && CoverageInv(w, s)
  }

  lemma InitInv(w: World, top: Pair)
    requires w.Bounded(top)
    ensures Inv(w, top, Init(w))
  {
  }

  /** A used address that was sent asks for no more than any closed limits above its index. */
  lemma RequestedWithin(w: World, n: Pair, a: Address, m: Pair)
    requires Requested(w, n, a) && w.history(a) != [] && w.Closed(m)
    requires n[0] <= m[0] && n[1] <= m[1]
    ensures a.change < 2 && a.addrIndex + w.lookahead <= m[a.change]
  {
    var chain: nat, i: nat :| chain < 2 && i < n[chain] && a == w.Addr(chain, i);
    assert w.Used(chain, i);
    assert w.Within(m, chain, i);
  }

  lemma SendKeepsSender(w: World, top: Pair, c: Core, a: SenderAction)
    requires w.Bounded(top) && SenderInv(w, top, c) && SendEnabled(c, a)
    ensures SenderInv(w, top, SendApply(c, a))
  {
  }

  lemma RaiseStep(w: World, top: Pair, c: Core)
    requires w.Bounded(top) && SenderInv(w, top, c) && LimitInv(w, c) && AddrEnabled(c, RaiseLimit)
    requires HonestAddr(w, Asked(w, SentPair(c)), c.receiver.addr)
    ensures SenderInv(w, top, AddrApply(w, c, RaiseLimit)) && LimitInv(w, AddrApply(w, c, RaiseLimit))
    ensures c.lastAddresses[0] <= Raised(w, c.lastAddresses, c.receiver.addr)[0]
    ensures c.lastAddresses[1] <= Raised(w, c.lastAddresses, c.receiver.addr)[1]
    ensures var a := c.receiver.addr.address;
      w.history(a) != [] ==> a.addrIndex + w.lookahead <= Raised(w, c.lastAddresses, c.receiver.addr)[a.change]
  {
    var r, c' := c.receiver.addr, AddrApply(w, c, RaiseLimit);
    if r.txHashes != [] {
      RequestedWithin(w, SentPair(c), r.address, top);
      forall m: Pair | w.Closed(m)
        ensures c'.lastAddresses[0] <= m[0] && c'.lastAddresses[1] <= m[1]
      {
        assert c.lastAddresses[0] <= m[0] && c.lastAddresses[1] <= m[1];
        RequestedWithin(w, SentPair(c), r.address, m);
      }
    }
  }

  lemma SendKeepsAddrCount(w: World, top: Pair, s: State, a: SenderAction)
    requires SenderInv(w, top, s.core) && AddrCountInv(s) && SendEnabled(s.core, a)
    requires top[0] < TWO31 && top[1] < TWO31
    ensures AddrCountInv(Apply(w, s, CoreStep(Send(a))))
  {
  }

  lemma AddrKeepsAddrCount(w: World, top: Pair, s: State, a: AddrAction)
    requires SenderInv(w, top, s.core) && AddrCountInv(s) && Enabled(s, CoreStep(OnAddr(a)))
    requires top[0] < TWO31 && top[1] < TWO31
    ensures AddrCountInv(Apply(w, s, CoreStep(OnAddr(a))))
  {
  }

  lemma RestKeepsAddrCount(w: World, s: State, a: Action)
    requires AddrCountInv(s) && Enabled(s, a)
    requires a.CoreStep? ==> a.step.OnTx? || a.step.Tick?
    ensures AddrCountInv(Apply(w, s, a))
  {
  }

  /** What a sender step does to the queues and to the number of addresses sent. */
  lemma SendEffect(w: World, top: Pair, c: Core, q: Queues, a: SenderAction)
    requires SenderInv(w, top, c) && SendEnabled(c, a) && top[0] < TWO31 && top[1] < TWO31
    ensures var n, n', chain := SentPair(c), SentPair(SendApply(c, a)), c.sender.chain;
      if a == SendRequest
      then n' == n[chain := n[chain] + 1] && n[chain] == c.indexes[chain] && n[chain] < top[chain]
      else n' == n && Exchange(w, c, q, Send(a)) == q
  {
  }

  lemma SendKeepsSeen(w: World, top: Pair, s: State, a: SenderAction)
    requires SenderInv(w, top, s.core) && SeenInv(w, s) && SendEnabled(s.core, a)
    requires top[0] < TWO31 && top[1] < TWO31
    ensures SeenInv(w, Apply(w, s, CoreStep(Send(a))))
  {
    var t := Apply(w, s, CoreStep(Send(a)));
    SendEffect(w, top, s.core, s.queues, a);
    SentPairIs(s.core);
    SentPairIs(t.core);
    if a == SendRequest {
      SeenSend(w, s, t, s.core.sender.chain);
    } else {
      SeenFrame(w, s, t);
    }
  }

  lemma SeenSend(w: World, s: State, t: State, chain: nat)
    requires chain < 2 && SentUpTo(t.core, chain) == SentUpTo(s.core, chain) + 1
    requires SentUpTo(t.core, 1 - chain) == SentUpTo(s.core, 1 - chain)
    requires t.queues.addrRequests == s.queues.addrRequests + multiset{w.Addr(chain, SentUpTo(s.core, chain))}
    requires t.queues.addrResponses == s.queues.addrResponses
    requires t.core.seenTxCount == s.core.seenTxCount && Unscanned(t.core) == Unscanned(s.core)
    requires SeenInv(w, s)
    ensures SeenInv(w, t)
  {
    SumBagAdd(s.queues.addrRequests, HistoryLength(w), w.Addr(chain, SentUpTo(s.core, chain)));
    assert w.HistorySum(chain, SentUpTo(t.core, chain))
        == w.HistorySum(chain, SentUpTo(s.core, chain)) + |w.history(w.Addr(chain, SentUpTo(s.core, chain)))|;
  }

  lemma SentPairIs(c: Core)
    ensures SentUpTo(c, 0) == SentPair(c)[0] && SentUpTo(c, 1) == SentPair(c)[1]
  {
  }

  lemma AddrKeepsSeen(w: World, s: State, a: AddrAction)
    requires s.core.seenTxCount + Unscanned(s.core) < TWO32 && SeenInv(w, s)
    requires Enabled(s, CoreStep(OnAddr(a)))
    ensures SeenInv(w, Apply(w, s, CoreStep(OnAddr(a))))
  {
    var t := Apply(w, s, CoreStep(OnAddr(a)));
    AddrEffect(w, s, a);
    if a.TakeAddr? {
      SeenTake(w, s, t, a.addr);
    } else {
      SeenFrame(w, s, t);
    }
  }

  lemma AddrEffect(w: World, s: State, a: AddrAction)
    requires s.core.seenTxCount + Unscanned(s.core) < TWO32 && Enabled(s, CoreStep(OnAddr(a)))
    ensures var t := Apply(w, s, CoreStep(OnAddr(a)));
      && t.core.indexes == s.core.indexes && t.core.sender == s.core.sender
      && t.queues.addrRequests == s.queues.addrRequests
      && if a.TakeAddr?
         then t.queues.addrResponses == s.queues.addrResponses - multiset{a.addr}
              && t.core.seenTxCount == s.core.seenTxCount
              && Unscanned(t.core) == |a.addr.txHashes| && Unscanned(s.core) == 0
         else t.queues.addrResponses == s.queues.addrResponses
              && t.core.seenTxCount + Unscanned(t.core) <= s.core.seenTxCount + Unscanned(s.core)
  {
  }

  lemma SeenTake(w: World, s: State, t: State, r: AddrResponse)
    requires r in s.queues.addrResponses && t.queues.addrResponses == s.queues.addrResponses - multiset{r}
    requires t.queues.addrRequests == s.queues.addrRequests
    requires t.core.indexes == s.core.indexes && t.core.sender == s.core.sender
    requires t.core.seenTxCount == s.core.seenTxCount && Unscanned(t.core) == |r.txHashes| && Unscanned(s.core) == 0
    requires SeenInv(w, s)
    ensures SeenInv(w, t)
  {
    SumBagRemove(s.queues.addrResponses, HashCount, r);
  }

  lemma SendKeepsTxCount(w: World, s: State, a: SenderAction)
    requires TxCountInv(s) && SendEnabled(s.core, a)
    ensures TxCountInv(Apply(w, s, CoreStep(Send(a))))
  {
  }

  lemma AddrKeepsTxCount(w: World, s: State, a: AddrAction)
    requires s.core.seenTxCount + Unscanned(s.core) < TWO32 && TxCountInv(s)
    requires Enabled(s, CoreStep(OnAddr(a)))
    ensures TxCountInv(Apply(w, s, CoreStep(OnAddr(a))))
  {
  }

  lemma TxKeepsTxCount(w: World, s: State, a: CoreAction)
    requires s.core.seenTxCount < TWO32 && TxCountInv(s)
    requires Enabled(s, CoreStep(a)) && (a.OnTx? || a.Tick?)
    ensures TxCountInv(Apply(w, s, CoreStep(a)))
  {
  }

  lemma TxKeepsSeen(w: World, s: State, a: CoreAction)
    requires SeenInv(w, s) && Enabled(s, CoreStep(a)) && (a.OnTx? || a.Tick?)
    ensures SeenInv(w, Apply(w, s, CoreStep(a)))
  {
    var t := Apply(w, s, CoreStep(a));
    SeenFrame(w, s, t);
  }

  lemma SeenFrame(w: World, s: State, t: State)
    requires t.core.seenTxCount + Unscanned(t.core) <= s.core.seenTxCount + Unscanned(s.core)
    requires t.queues.addrRequests == s.queues.addrRequests && t.queues.addrResponses == s.queues.addrResponses
    requires SentUpTo(t.core, 0) == SentUpTo(s.core, 0) && SentUpTo(t.core, 1) == SentUpTo(s.core, 1)
    requires SeenInv(w, s)
    ensures SeenInv(w, t)
  {
  }

  lemma AnswerKeepsSeen(w: World, s: State, a: Action)
    requires TxCountInv(s) && SeenInv(w, s) && Enabled(s, a) && !a.CoreStep?
    ensures TxCountInv(Apply(w, s, a)) && SeenInv(w, Apply(w, s, a))
  {
    if a.AnswerAddr? {
      SumBagRemove(s.queues.addrRequests, HistoryLength(w), a.address);
      SumBagAdd(s.queues.addrResponses, HashCount, AddrAnswer(w, a.address));
    }
  }

  /** The counter of transactions seen does not wrap. */
  lemma SeenBelow(w: World, top: Pair, s: State)
    requires w.Bounded(top) && SenderInv(w, top, s.core) && SeenInv(w, s)
    ensures s.core.seenTxCount + Unscanned(s.core) < TWO32
  {
    w.HistorySumMonotone(0, SentUpTo(s.core, 0), top[0]);
    w.HistorySumMonotone(1, SentUpTo(s.core, 1), top[1]);
  }

  /** What was asked for stays asked for. */
  lemma AskedGrows(w: World, n: Pair, n': Pair)
    requires n[0] <= n'[0] && n[1] <= n'[1]
    ensures Asked(w, n) <= Asked(w, n')
  {
    forall a | a in Asked(w, n) ensures a in Asked(w, n') {
      var chain: nat, i: nat :| chain < 2 && i < n[chain] && a == w.Addr(chain, i);
      assert i < n'[chain];
    }
  }

  lemma RevealedGrows(w: World, asked: iset<Address>, asked': iset<Address>)
    requires asked <= asked'
    ensures Revealed(w, asked) <= Revealed(w, asked')
  {
  }

  lemma HonestGrows(w: World, asked: iset<Address>, known: iset<string>,
                    asked': iset<Address>, known': iset<string>, s: State)
    requires Honest(w, asked, known, s) && asked <= asked' && known <= known'
    ensures Honest(w, asked', known', s)
  {
  }

  lemma SendKeeps(w: World, asked: iset<Address>, known: iset<string>, s: State, a: SenderAction)
    requires SendEnabled(s.core, a) && Honest(w, asked, known, s)
    requires a == SendRequest ==> NextAddr(w, s.core) in asked
    ensures Honest(w, asked, known, Apply(w, s, CoreStep(Send(a))))
  {
  }

  lemma SendKeepsHonest(w: World, top: Pair, s: State, a: SenderAction)
    requires SenderInv(w, top, s.core) && SendEnabled(s.core, a) && top[0] < TWO31 && top[1] < TWO31
    requires HonestInv(w, s)
    ensures HonestInv(w, Apply(w, s, CoreStep(Send(a))))
  {
    var n, n' := SentPair(s.core), SentPair(SendApply(s.core, a));
    SendEffect(w, top, s.core, s.queues, a);
    if a == SendRequest {
      var chain := s.core.sender.chain;
      assert n[chain] < n'[chain];
      assert Requested(w, n', NextAddr(w, s.core));
    }
    AskedGrows(w, n, n');
    SendHonest(w, Asked(w, n), Asked(w, n'), s, a);
  }

  lemma SendHonest(w: World, asked: iset<Address>, asked': iset<Address>, s: State, a: SenderAction)
    requires asked <= asked' && SendEnabled(s.core, a) && (a == SendRequest ==> NextAddr(w, s.core) in asked')
    requires Honest(w, asked, Revealed(w, asked), s)
    ensures Honest(w, asked', Revealed(w, asked'), Apply(w, s, CoreStep(Send(a))))
  {
    RevealedGrows(w, asked, asked');
    HonestGrows(w, asked, Revealed(w, asked), asked', Revealed(w, asked'), s);
    SendKeeps(w, asked', Revealed(w, asked'), s, a);
  }

  lemma AddrKeepsHonestAddrs(w: World, asked: iset<Address>, s: State, a: AddrAction)
    requires Enabled(s, CoreStep(OnAddr(a))) && HonestAddrs(w, asked, s.queues, HeldAddr(s.core))
    ensures var t := Apply(w, s, CoreStep(OnAddr(a))); HonestAddrs(w, asked, t.queues, HeldAddr(t.core))
  {
  }

  lemma AddrKeepsHonestTxs(w: World, known: iset<string>, s: State, a: AddrAction)
    requires Enabled(s, CoreStep(OnAddr(a))) && HonestTxs(w, known, s.queues, HeldTx(s.core))
    requires HeldAddr(s.core).Some? ==> forall h :: h in HeldAddr(s.core).value.txHashes ==> h in known
    ensures var t := Apply(w, s, CoreStep(OnAddr(a))); HonestTxs(w, known, t.queues, HeldTx(t.core))
  {
  }

  lemma AddrKeepsHonestMaps(w: World, asked: iset<Address>, known: iset<string>, c: Core, a: AddrAction)
    requires AddrEnabled(c, a) && HonestMaps(w, asked, known, c)
    requires HeldAddr(c).Some? ==> HonestAddr(w, asked, HeldAddr(c).value)
    ensures HonestMaps(w, asked, known, AddrApply(w, c, a))
  {
  }

  lemma AddrKeepsHonest(w: World, asked: iset<Address>, known: iset<string>,
                        s: State, a: AddrAction)
    requires Enabled(s, CoreStep(OnAddr(a))) && Honest(w, asked, known, s)
    requires forall x, h :: x in asked && h in w.history(x) ==> h in known
    ensures Honest(w, asked, known, Apply(w, s, CoreStep(OnAddr(a))))
  {
    AddrKeepsHonestAddrs(w, asked, s, a);
    AddrKeepsHonestTxs(w, known, s, a);
    AddrKeepsHonestMaps(w, asked, known, s.core, a);
  }

  lemma TxKeepsHonestAddrs(w: World, asked: iset<Address>, s: State, a: CoreAction)
    requires Enabled(s, CoreStep(a)) && (a.OnTx? || a.Tick?) && HonestAddrs(w, asked, s.queues, HeldAddr(s.core))
    ensures var t := Apply(w, s, CoreStep(a)); HonestAddrs(w, asked, t.queues, HeldAddr(t.core))
  {
  }

  lemma TxKeepsHonestTxs(w: World, known: iset<string>, s: State, a: CoreAction)
    requires Enabled(s, CoreStep(a)) && (a.OnTx? || a.Tick?) && HonestTxs(w, known, s.queues, HeldTx(s.core))
    ensures var t := Apply(w, s, CoreStep(a)); HonestTxs(w, known, t.queues, HeldTx(t.core))
  {
  }

  lemma TxKeepsHonest(w: World, asked: iset<Address>, known: iset<string>, s: State, a: CoreAction)
    requires Enabled(s, CoreStep(a)) && (a.OnTx? || a.Tick?) && Honest(w, asked, known, s)
    ensures Honest(w, asked, known, Apply(w, s, CoreStep(a)))
  {
    TxKeepsHonestAddrs(w, asked, s, a);
    TxKeepsHonestTxs(w, known, s, a);
  }

  lemma AnswerKeepsHonest(w: World, asked: iset<Address>, known: iset<string>, s: State, a: Action)
    requires Enabled(s, a) && !a.CoreStep? && Honest(w, asked, known, s)
    ensures Honest(w, asked, known, Apply(w, s, a))
  {
  }

  lemma RestKeepsSent(w: World, s: State, a: Action)
    requires Enabled(s, a) && (a.CoreStep? ==> !a.step.Send?)
    ensures SentPair(Apply(w, s, a).core) == SentPair(s.core)
  {
  }

  /** Steps that send no address leave what was asked for as it was. */
  lemma RestKeeps(w: World, asked: iset<Address>, known: iset<string>, s: State, a: Action)
    requires Enabled(s, a) && (a.CoreStep? ==> !a.step.Send?) && Honest(w, asked, known, s)
    requires forall x, h :: x in asked && h in w.history(x) ==> h in known
    ensures Honest(w, asked, known, Apply(w, s, a))
  {
    if a.CoreStep? && a.step.OnAddr? {
      AddrKeepsHonest(w, asked, known, s, a.step.onAddr);
    } else if a.CoreStep? {
      TxKeepsHonest(w, asked, known, s, a.step);
    } else {
      AnswerKeepsHonest(w, asked, known, s, a);
    }
  }

  lemma RestKeepsHonest(w: World, s: State, a: Action)
    requires Enabled(s, a) && (a.CoreStep? ==> !a.step.Send?) && HonestInv(w, s)
    ensures HonestInv(w, Apply(w, s, a))
  {
    var asked := Asked(w, SentPair(s.core));
    RestKeeps(w, asked, Revealed(w, asked), s, a);
    RestKeepsSent(w, s, a);
  }

  /** A step that loses nothing keeps an address handled. */
  ghost predicate Keeps(w: World, s: State, t: State) {
    && (forall h :: Covered(w, s, h) ==> Covered(w, t, h))
    && s.core.addresses.Keys <= t.core.addresses.Keys
    && s.core.lastAddresses[0] <= t.core.lastAddresses[0]
    && s.core.lastAddresses[1] <= t.core.lastAddresses[1]
  }

  lemma KeepsHandled(w: World, s: State, t: State)
    requires Keeps(w, s, t)
    ensures forall a :: Handled(w, s, a) ==> Handled(w, t, a)
  {
  }

  lemma SendKeepsCoverage(w: World, top: Pair, s: State, a: SenderAction)
    requires SenderInv(w, top, s.core) && CoverageInv(w, s) && SendEnabled(s.core, a)
    requires top[0] < TWO31 && top[1] < TWO31
    ensures CoverageInv(w, Apply(w, s, CoreStep(Send(a))))
  {
    var t := Apply(w, s, CoreStep(Send(a)));
    assert Keeps(w, s, t);
    KeepsHandled(w, s, t);
    forall x | x in Asked(w, SentPair(t.core)) ensures InFlight(w, t, x) || Handled(w, t, x) {
      var chain: nat, i: nat :| chain < 2 && i < SentPair(t.core)[chain] && x == w.Addr(chain, i);
      if i < SentUpTo(s.core, chain) {
        assert i < SentPair(s.core)[chain];
        assert Requested(w, SentPair(s.core), x);
      } else {
        assert x == NextAddr(w, s.core);
      }
    }
  }

  lemma AddrKeeps(w: World, top: Pair, s: State, a: AddrAction)
    requires w.Bounded(top) && SenderInv(w, top, s.core) && LimitInv(w, s.core) && HonestInv(w, s)
    requires Enabled(s, CoreStep(OnAddr(a)))
    ensures Keeps(w, s, Apply(w, s, CoreStep(OnAddr(a))))
  {
    if a.RaiseLimit? {
      RaiseStep(w, top, s.core);
    }
  }

  lemma AddrKeepsScan(w: World, s: State, a: AddrAction)
    requires ScanInv(w, s) && Enabled(s, CoreStep(OnAddr(a))) && Keeps(w, s, Apply(w, s, CoreStep(OnAddr(a))))
    ensures ScanInv(w, Apply(w, s, CoreStep(OnAddr(a))))
  {
  }

  lemma AddrKeepsAccounted(w: World, asked: iset<Address>, s: State, a: AddrAction)
    requires Accounted(w, asked, s) && ScanInv(w, s) && Enabled(s, CoreStep(OnAddr(a)))
    requires var t := Apply(w, s, CoreStep(OnAddr(a)));
      Keeps(w, s, t) && (a.RaiseLimit? ==> Handled(w, t, s.core.receiver.addr.address))
    requires HeldAddr(s.core).Some? ==> HeldAddr(s.core).value == AddrAnswer(w, HeldAddr(s.core).value.address)
    ensures Accounted(w, asked, Apply(w, s, CoreStep(OnAddr(a))))
  {
    var t := Apply(w, s, CoreStep(OnAddr(a)));
    KeepsHandled(w, s, t);
    forall x | x in asked ensures InFlight(w, t, x) || Handled(w, t, x) {
    }
  }

  lemma RaiseHandles(w: World, top: Pair, s: State)
    requires w.Bounded(top) && SenderInv(w, top, s.core) && LimitInv(w, s.core) && ScanInv(w, s)
    requires AddrEnabled(s.core, RaiseLimit) && HonestAddr(w, Asked(w, SentPair(s.core)), s.core.receiver.addr)
    ensures Handled(w, Apply(w, s, CoreStep(OnAddr(RaiseLimit))), s.core.receiver.addr.address)
  {
    RaiseStep(w, top, s.core);
    var t := Apply(w, s, CoreStep(OnAddr(RaiseLimit)));
    forall h | h in s.core.receiver.addr.txHashes ensures Covered(w, t, h) {
      assert Covered(w, s, h);
    }
  }

  lemma AddrKeepsCoverage(w: World, top: Pair, s: State, a: AddrAction)
    requires w.Bounded(top) && SenderInv(w, top, s.core) && LimitInv(w, s.core) && HonestInv(w, s)
    requires CoverageInv(w, s) && Enabled(s, CoreStep(OnAddr(a)))
    ensures CoverageInv(w, Apply(w, s, CoreStep(OnAddr(a))))
  {
    AddrKeeps(w, top, s, a);
    AddrKeepsScan(w, s, a);
    if a.RaiseLimit? {
      RaiseHandles(w, top, s);
    }
    AddrKeepsAccounted(w, Asked(w, SentPair(s.core)), s, a);
    RestKeepsSent(w, s, CoreStep(OnAddr(a)));
  }

  lemma TxKeepsAccounted(w: World, asked: iset<Address>, s: State, a: CoreAction)
    requires Accounted(w, asked, s) && ScanInv(w, s) && Enabled(s, CoreStep(a)) && (a.OnTx? || a.Tick?)
    requires HeldTx(s.core).Some? ==> HeldTx(s.core).value == TxAnswer(w, HeldTx(s.core).value.hash)
    ensures Accounted(w, asked, Apply(w, s, CoreStep(a))) && ScanInv(w, Apply(w, s, CoreStep(a)))
  {
    var t := Apply(w, s, CoreStep(a));
    TxKeeps(w, s, a);
    KeepsHandled(w, s, t);
    forall x | x in asked ensures InFlight(w, t, x) || Handled(w, t, x) {
    }
  }

  lemma TxKeeps(w: World, s: State, a: CoreAction)
    requires Enabled(s, CoreStep(a)) && (a.OnTx? || a.Tick?)
    requires HeldTx(s.core).Some? ==> HeldTx(s.core).value == TxAnswer(w, HeldTx(s.core).value.hash)
    ensures Keeps(w, s, Apply(w, s, CoreStep(a)))
  {
  }

  lemma AnswerKeepsAccounted(w: World, asked: iset<Address>, s: State, a: Action)
    requires Accounted(w, asked, s) && ScanInv(w, s) && Enabled(s, a) && !a.CoreStep?
    ensures Accounted(w, asked, Apply(w, s, a)) && ScanInv(w, Apply(w, s, a))
  {
    var t := Apply(w, s, a);
    assert Keeps(w, s, t);
    KeepsHandled(w, s, t);
  }

  /** Every step keeps the invariant. */
  lemma StepKeepsInv(w: World, top: Pair, s: State, a: Action)
    requires w.Bounded(top) && Inv(w, top, s) && Enabled(s, a)
    ensures Inv(w, top, Apply(w, s, a))
  {
    SeenBelow(w, top, s);
    if a.CoreStep? && a.step.Send? {
      SendKeepsInv(w, top, s, a.step.send);
    } else {
      RestKeepsHonest(w, s, a);
      RestKeepsSent(w, s, a);
      RestKeepsInv(w, top, s, a);
    }
  }

  lemma SendKeepsInv(w: World, top: Pair, s: State, a: SenderAction)
    requires w.Bounded(top) && Inv(w, top, s) && SendEnabled(s.core, a)
    ensures Inv(w, top, Apply(w, s, CoreStep(Send(a))))
  {
    SendKeepsSender(w, top, s.core, a);
    SendKeepsAddrCount(w, top, s, a);
    SendKeepsTxCount(w, s, a);
    SendKeepsSeen(w, top, s, a);
    SendKeepsHonest(w, top, s, a);
    SendKeepsCoverage(w, top, s, a);
    assert SendApply(s.core, a).lastAddresses == s.core.lastAddresses;
  }

  lemma RestKeepsInv(w: World, top: Pair, s: State, a: Action)
    requires w.Bounded(top) && Inv(w, top, s) && Enabled(s, a) && (a.CoreStep? ==> !a.step.Send?)
    requires s.core.seenTxCount + Unscanned(s.core) < TWO32
    requires HonestInv(w, Apply(w, s, a)) && SentPair(Apply(w, s, a).core) == SentPair(s.core)
    ensures Inv(w, top, Apply(w, s, a))
  {
    if a.CoreStep? && a.step.OnAddr? {
      AddrKeepsInv(w, top, s, a.step.onAddr);
    } else if a.CoreStep? {
      TxKeepsInv(w, top, s, a.step);
    } else {
      RestKeepsAddrCount(w, s, a);
      AnswerKeepsSeen(w, s, a);
      AnswerKeepsAccounted(w, Asked(w, SentPair(s.core)), s, a);
    }
  }

  lemma AddrKeepsInv(w: World, top: Pair, s: State, a: AddrAction)
    requires w.Bounded(top) && Inv(w, top, s) && Enabled(s, CoreStep(OnAddr(a)))
    requires s.core.seenTxCount + Unscanned(s.core) < TWO32
    requires HonestInv(w, Apply(w, s, CoreStep(OnAddr(a))))
    ensures Inv(w, top, Apply(w, s, CoreStep(OnAddr(a))))
  {
    AddrKeepsAddrCount(w, top, s, a);
    AddrKeepsTxCount(w, s, a);
    AddrKeepsSeen(w, s, a);
    AddrKeepsCoverage(w, top, s, a);
    AddrKeepsLimits(w, top, s.core, a);
  }

  lemma AddrKeepsLimits(w: World, top: Pair, c: Core, a: AddrAction)
    requires w.Bounded(top) && SenderInv(w, top, c) && LimitInv(w, c) && AddrEnabled(c, a)
    requires a.RaiseLimit? ==> HonestAddr(w, Asked(w, SentPair(c)), c.receiver.addr)
    ensures SenderInv(w, top, AddrApply(w, c, a)) && LimitInv(w, AddrApply(w, c, a))
  {
    if a.RaiseLimit? {
      RaiseStep(w, top, c);
    } else {
      assert AddrApply(w, c, a).lastAddresses == c.lastAddresses;
    }
  }

  lemma TxKeepsInv(w: World, top: Pair, s: State, a: CoreAction)
    requires Inv(w, top, s) && Enabled(s, CoreStep(a)) && (a.OnTx? || a.Tick?)
    requires s.core.seenTxCount < TWO32
    requires HonestInv(w, Apply(w, s, CoreStep(a)))
    requires SentPair(Apply(w, s, CoreStep(a)).core) == SentPair(s.core)
    ensures Inv(w, top, Apply(w, s, CoreStep(a)))
  {
    RestKeepsAddrCount(w, s, CoreStep(a));
    TxKeepsTxCount(w, s, a);
    TxKeepsSeen(w, s, a);
    TxKeepsAccounted(w, Asked(w, SentPair(s.core)), s, a);
    TxKeepsLimits(w, top, s.core, a);
  }

  lemma TxKeepsLimits(w: World, top: Pair, c: Core, a: CoreAction)
    requires SenderInv(w, top, c) && LimitInv(w, c) && CoreEnabled(c, a) && (a.OnTx? || a.Tick?)
    ensures SenderInv(w, top, CoreApply(w, c, a)) && LimitInv(w, CoreApply(w, c, a))
  {
    assert CoreApply(w, c, a).lastAddresses == c.lastAddresses;
  }
}
