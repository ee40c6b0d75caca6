/** The fetch protocol of the accounter as a step system: a sender goroutine, a receiver goroutine
    and a backend, joined by unbounded queues that deliver in any order. */
module Fetching {
  import opened Basics
  import opened Deriver
  import opened Wallet

  datatype AddrResponse = AddrResponse(address: Address, txHashes: seq<string>)
  datatype TxResponse = TxResponse(hash: string, height: int, hex: string)
  datatype Entry = Entry(path: Address, txHashes: seq<string>)

  /** Where the sender is in its two nested loops. */
  datatype Sender =
    | AtLimit(chain: nat)                  // about to call getLastAddress
    | Checking(chain: nat, limit: nat)  // about to test indexes[chain] < lastAddr
    | Counted(chain: nat, limit: nat)   // derivedAddrCount incremented, address not yet sent
    | Sent(chain: nat, limit: nat)      // address sent, indexes[chain] not yet incremented

  /** Where the receiver is in the handling of a response. */
  datatype Receiver =
    | Idle                                    // in select
    | AddrTaken(addr: AddrResponse)           // before processedAddrCount++
    | AddrCounted(addr: AddrResponse)         // before the store into addresses
    | Scanning(addr: AddrResponse, next: nat) // in the loop over TxHashes, or after it
    | TxTaken(tx: TxResponse)                 // before processedTxCount++
    | TxCounted(tx: TxResponse)               // before the store into transactions
    | Returned                                // complete() was true

  /** The accounter's fields and the local state of its two goroutines. */
  datatype Core = Core(
    lastAddresses: Pair,
    derivedAddrCount: nat, processedAddrCount: nat, seenTxCount: nat, processedTxCount: nat,
    addresses: map<string, Entry>, transactions: map<string, RawTx>,
    indexes: Pair, sender: Sender, receiver: Receiver)

  /** What is under way between the accounter and a backend. */
  datatype Queues = Queues(
    addrRequests: multiset<Address>, addrResponses: multiset<AddrResponse>,
    txRequests: multiset<string>, txResponses: multiset<TxResponse>)

  datatype State = State(core: Core, queues: Queues)

  /** Steps of the sender loop, of the two kinds of response, and the tick that may end it all. */
  datatype SenderAction = ReadLimit | SkipChain | CountDerived | SendRequest | AdvanceIndex
  datatype AddrAction = TakeAddr(addr: AddrResponse) | CountAddr | StoreAddr | ScanHash | RaiseLimit
  datatype TxAction = TakeTx(tx: TxResponse) | CountTx | StoreTx
  datatype CoreAction = Send(send: SenderAction) | OnAddr(onAddr: AddrAction) | OnTx(onTx: TxAction) | Tick

  datatype Action = CoreStep(step: CoreAction) | AnswerAddr(address: Address) | AnswerTx(hash: string)

  function InitCore(w: World): Core {
    Core([w.lookahead, w.lookahead], 0, 0, 0, 0, map[], map[], [0, 0], AtLimit(0), Idle)
  }

  function Init(w: World): State {
    State(InitCore(w), Queues(multiset{}, multiset{}, multiset{}, multiset{}))
  }

  /** The four sums that decide when to stop. */
  predicate Complete(c: Core) {
    var indexes := Add32(c.lastAddresses[0], c.lastAddresses[1]);
    && c.derivedAddrCount == indexes && c.processedAddrCount == indexes
    && c.seenTxCount == c.processedTxCount
  }

  predicate SendEnabled(c: Core, a: SenderAction) {
    c.sender.chain < 2 &&
    match a
    case ReadLimit => c.sender.AtLimit?
    case SkipChain => c.sender.Checking? && c.indexes[c.sender.chain] >= c.sender.limit
    case CountDerived => c.sender.Checking? && c.indexes[c.sender.chain] < c.sender.limit
    case SendRequest => c.sender.Counted?
    case AdvanceIndex => c.sender.Sent?
  }

  function SendApply(c: Core, a: SenderAction): Core
    requires SendEnabled(c, a)
  {
    var chain := c.sender.chain;
    match a
    case ReadLimit => c.(sender := Checking(chain, c.lastAddresses[chain]))
    case SkipChain => c.(sender := AtLimit(1 - chain))
    case CountDerived =>
      c.(sender := Counted(chain, c.sender.limit), derivedAddrCount := Add32(c.derivedAddrCount, 1))
    case SendRequest => c.(sender := Sent(chain, c.sender.limit))
    case AdvanceIndex =>
      c.(sender := Checking(chain, c.sender.limit), indexes := c.indexes[chain := Add32(c.indexes[chain], 1)])
  }

  predicate AddrEnabled(c: Core, a: AddrAction) {
    match a
    case TakeAddr(_) => c.receiver.Idle?
    case CountAddr => c.receiver.AddrTaken?
    case StoreAddr => c.receiver.AddrCounted?
    case ScanHash => c.receiver.Scanning? && c.receiver.next < |c.receiver.addr.txHashes|
    case RaiseLimit => c.receiver.Scanning? && c.receiver.next == |c.receiver.addr.txHashes|
                       && c.receiver.addr.address.change < 2
  }

  /** The hash that the receiver is about to look at, and whether it asks for it. */
  function NextHash(c: Core): string
    requires AddrEnabled(c, ScanHash)
  {
    c.receiver.addr.txHashes[c.receiver.next]
  }

  predicate Unknown(c: Core)
    requires AddrEnabled(c, ScanHash)
  {
    NextHash(c) !in c.transactions
  }

  function AddrApply(w: World, c: Core, a: AddrAction): Core
    requires AddrEnabled(c, a)
  {
    match a
    case TakeAddr(r) => c.(receiver := AddrTaken(r))
    case CountAddr =>
      c.(receiver := AddrCounted(c.receiver.addr), processedAddrCount := Add32(c.processedAddrCount, 1))
    case StoreAddr =>
      var r := c.receiver.addr;
      c.(receiver := Scanning(r, 0), addresses := c.addresses[w.script(r.address) := Entry(r.address, r.txHashes)])
    case ScanHash =>
      c.(receiver := Scanning(c.receiver.addr, c.receiver.next + 1),
         seenTxCount := if Unknown(c) then Add32(c.seenTxCount, 1) else c.seenTxCount)
    case RaiseLimit =>
      c.(receiver := Idle, lastAddresses := Raised(w, c.lastAddresses, c.receiver.addr))
  }

  /** The limits after a response: used addresses push the limit of their chain ahead of them. */
  function Raised(w: World, limits: Pair, r: AddrResponse): Pair
    requires r.address.change < 2
  {
    var chain := r.address.change;
    if r.txHashes == [] then limits
    else limits[chain := Max(limits[chain], Add32(r.address.addrIndex, w.lookahead))]
  }

  predicate TxEnabled(c: Core, a: TxAction) {
    match a
    case TakeTx(_) => c.receiver.Idle?
    case CountTx => c.receiver.TxTaken?
    case StoreTx => c.receiver.TxCounted?
  }

  function TxApply(c: Core, a: TxAction): Core
    requires TxEnabled(c, a)
  {
    match a
    case TakeTx(r) => c.(receiver := TxTaken(r))
    case CountTx => c.(receiver := TxCounted(c.receiver.tx), processedTxCount := Add32(c.processedTxCount, 1))
    case StoreTx =>
      var r := c.receiver.tx;
      c.(receiver := Idle, transactions := c.transactions[r.hash := RawTx(r.height, r.hex)])
  }

  predicate CoreEnabled(c: Core, a: CoreAction) {
    match a
    case Send(b) => SendEnabled(c, b)
    case OnAddr(b) => AddrEnabled(c, b)
    case OnTx(b) => TxEnabled(c, b)
    case Tick => c.receiver.Idle?
  }

  function CoreApply(w: World, c: Core, a: CoreAction): Core
    requires CoreEnabled(c, a)
  {
    match a
    case Send(b) => SendApply(c, b)
    case OnAddr(b) => AddrApply(w, c, b)
    case OnTx(b) => TxApply(c, b)
    case Tick => if Complete(c) then c.(receiver := Returned) else c
  }

  /** The address that the sender is about to send. */
  function NextAddr(w: World, c: Core): Address
    requires c.sender.chain < 2
  {
    w.Addr(c.sender.chain, c.indexes[c.sender.chain])
  }

  function AddrAnswer(w: World, address: Address): AddrResponse {
    AddrResponse(address, w.history(address))
  }

  function TxAnswer(w: World, hash: string): TxResponse {
    TxResponse(hash, w.tx(hash).height, w.tx(hash).hex)
  }

  /** A response can only be taken when it is there. */
  predicate CanTake(q: Queues, a: CoreAction) {
    && (a.OnAddr? && a.onAddr.TakeAddr? ==> a.onAddr.addr in q.addrResponses)
    && (a.OnTx? && a.onTx.TakeTx? ==> a.onTx.tx in q.txResponses)
  }

  /** What a core step puts into and takes out of the queues. */
  function Exchange(w: World, c: Core, q: Queues, a: CoreAction): Queues
    requires CoreEnabled(c, a)
  {
    match a
    case Send(SendRequest) => q.(addrRequests := q.addrRequests + multiset{NextAddr(w, c)})
    case OnAddr(TakeAddr(r)) => q.(addrResponses := q.addrResponses - multiset{r})
    case OnAddr(ScanHash) => if Unknown(c) then q.(txRequests := q.txRequests + multiset{NextHash(c)}) else q
    case OnTx(TakeTx(r)) => q.(txResponses := q.txResponses - multiset{r})
    case _ => q
  }

  /** The backend contract: each request is answered once, with the world's answer, in any order. */
  predicate Enabled(s: State, a: Action) {
    match a
    case CoreStep(b) => CoreEnabled(s.core, b) && CanTake(s.queues, b)
    case AnswerAddr(address) => address in s.queues.addrRequests
    case AnswerTx(hash) => hash in s.queues.txRequests
  }

  function Apply(w: World, s: State, a: Action): State
    requires Enabled(s, a)
  {
    var q := s.queues;
    match a
    case CoreStep(b) => State(CoreApply(w, s.core, b), Exchange(w, s.core, q, b))
    case AnswerAddr(address) =>
      s.(queues := q.(addrRequests := q.addrRequests - multiset{address},
                      addrResponses := q.addrResponses + multiset{AddrAnswer(w, address)}))
    case AnswerTx(hash) =>
      s.(queues := q.(txRequests := q.txRequests - multiset{hash},
                      txResponses := q.txResponses + multiset{TxAnswer(w, hash)}))
  }

  /** Schedules: any sequence of enabled actions. */
  predicate Run(w: World, s: State, schedule: seq<Action>)
    decreases |schedule|
  {
    schedule == [] || (Enabled(s, schedule[0]) && Run(w, Apply(w, s, schedule[0]), schedule[1..]))
  }

  function End(w: World, s: State, schedule: seq<Action>): State
    requires Run(w, s, schedule)
    decreases |schedule|
  {
    if schedule == [] then s else End(w, Apply(w, s, schedule[0]), schedule[1..])
  }
}
