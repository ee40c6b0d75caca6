/** The accounter: two goroutines over shared counters, one atomic step at a time, and the balance
    computed from what they fetched. */
module Accounter {
  import opened Basics
  import opened Deriver
  import opened Wallet
  import opened Fetching
  import opened FetchingSafety
  import opened FetchingResults
  import opened FetchingProgress
  import opened Ledger
  import opened Bookkeeping
  import opened Chain
  import Audit

  /** A backend that keeps the contract: requests go into its queues, each is answered once. */
  class Backend {
    const history: Address -> seq<string>
    const tx: string -> RawTx
    var addrRequests: multiset<Address>
    var addrResponses: multiset<AddrResponse>
    var txRequests: multiset<string>
    var txResponses: multiset<TxResponse>

    constructor (history: Address -> seq<string>, tx: string -> RawTx)
      ensures this.history == history && this.tx == tx
      ensures View() == Queues(multiset{}, multiset{}, multiset{}, multiset{})
    {
      this.history, this.tx := history, tx;
      addrRequests, addrResponses, txRequests, txResponses := multiset{}, multiset{}, multiset{}, multiset{};
    }

    ghost function View(): Queues
      reads this
    {
      Queues(addrRequests, addrResponses, txRequests, txResponses)
    }

    method AddrRequest(address: Address)
      modifies this
      ensures View() == old(View()).(addrRequests := old(addrRequests) + multiset{address})
    {
      addrRequests := addrRequests + multiset{address};
    }

    method TxRequest(hash: string)
      modifies this
      ensures View() == old(View()).(txRequests := old(txRequests) + multiset{hash})
    {
      txRequests := txRequests + multiset{hash};
    }

    method ReceiveAddr() returns (r: AddrResponse)
      requires addrResponses != multiset{}
      modifies this
      ensures r in old(addrResponses)
      ensures View() == old(View()).(addrResponses := old(addrResponses) - multiset{r})
    {
      r :| r in addrResponses;
      addrResponses := addrResponses - multiset{r};
    }

    method ReceiveTx() returns (r: TxResponse)
      requires txResponses != multiset{}
      modifies this
      ensures r in old(txResponses)
      ensures View() == old(View()).(txResponses := old(txResponses) - multiset{r})
    {
      r :| r in txResponses;
      txResponses := txResponses - multiset{r};
    }

    /** Answers any one of the pending requests of either kind. */
    method AnswerAddrRequest() returns (address: Address)
      requires addrRequests != multiset{}
      modifies this
      ensures address in old(addrRequests)
      ensures View() == old(View()).(addrRequests := old(addrRequests) - multiset{address},
                          addrResponses := old(addrResponses) + multiset{AddrResponse(address, history(address))})
    {
      address :| address in addrRequests;
      addrRequests := addrRequests - multiset{address};
      addrResponses := addrResponses + multiset{AddrResponse(address, history(address))};
    }

    method AnswerTxRequest() returns (hash: string)
      requires txRequests != multiset{}
      modifies this
      ensures hash in old(txRequests)
      ensures View() == old(View()).(txRequests := old(txRequests) - multiset{hash},
                          txResponses := old(txResponses) + multiset{TxResponse(hash, tx(hash).height, tx(hash).hex)})
    {
      hash :| hash in txRequests;
      txRequests := txRequests - multiset{hash};
      txResponses := txResponses + multiset{TxResponse(hash, tx(hash).height, tx(hash).hex)};
    }
  }

  class Accounter {
    const blockHeight: nat
    const backend: Backend
    const deriver: AddressDeriver
    const lookahead: nat
    const script: Address -> string
    const parse: Parser

    var addresses: map<string, Entry>
    var transactions: map<string, RawTx>
    var lastAddresses: Pair
    var derivedAddrCount: nat
    var processedAddrCount: nat
    var seenTxCount: nat
    var processedTxCount: nat

    // local state of the two goroutines
    var indexes: Pair
    var sender: Sender
    var receiver: Receiver

    constructor (b: Backend, d: AddressDeriver, lookahead: nat, blockHeight: nat,
                 script: Address -> string, parse: Parser)
      ensures backend == b && deriver == d && this.lookahead == lookahead && this.blockHeight == blockHeight
      ensures this.script == script && this.parse == parse
      ensures b.View() == Queues(multiset{}, multiset{}, multiset{}, multiset{}) ==> View() == Init(World())
    {
      backend, deriver, this.lookahead, this.blockHeight := b, d, lookahead, blockHeight;
      this.script, this.parse := script, parse;
      addresses, transactions := map[], map[];
      lastAddresses := [lookahead, lookahead];
      derivedAddrCount, processedAddrCount, seenTxCount, processedTxCount := 0, 0, 0, 0;
      indexes, sender, receiver := [0, 0], AtLimit(0), Idle;
    }

    /** The outside world as this accounter sees it. */
    ghost function World(): World {
      Wallet.World(deriver, lookahead, script, backend.history, backend.tx)
    }

    function CoreView(): Core
      reads this
    {
      Core(lastAddresses, derivedAddrCount, processedAddrCount, seenTxCount, processedTxCount,
           addresses, transactions, indexes, sender, receiver)
    }

    ghost function View(): State
      reads this, backend
    {
      State(CoreView(), backend.View())
    }

    method GetLastAddress(change: nat) returns (last: nat)
      requires change < 2
      ensures last == lastAddresses[change]
    {
      last := lastAddresses[change];
    }

    /** The termination condition, from the counters alone. */
    method CheckComplete() returns (done: bool)
      ensures done <==> Complete(CoreView())
    {
      var total := Add32(lastAddresses[0], lastAddresses[1]);
      var addrsDone := derivedAddrCount == total && processedAddrCount == total;
      var txsDone := seenTxCount == processedTxCount;
      done := addrsDone && txsDone;
    }

    /** What the sender does next, and whether it only polls limits that it has reached. */
    ghost function NextSend(): SenderAction
      reads this
    {
      match sender
      case AtLimit(_) => ReadLimit
      case Checking(chain, limit) => if chain < 2 && indexes[chain] < limit then CountDerived else SkipChain
      case Counted(_, _) => SendRequest
      case Sent(_, _) => AdvanceIndex
    }

    predicate Polling()
      reads this
    {
      && (sender.AtLimit? || (sender.Checking? && sender.chain < 2 && indexes[sender.chain] >= sender.limit))
      && indexes[0] >= lastAddresses[0] && indexes[1] >= lastAddresses[1]
    }

    /** One step of sendWork's loops. */
    method SendWork()
      requires sender.chain < 2
      modifies this, backend
      ensures SendEnabled(old(CoreView()), old(NextSend()))
      ensures View() == Apply(World(), old(View()), CoreStep(Send(old(NextSend()))))
    {
      match sender {
        case AtLimit(change) =>
          var lastAddr := GetLastAddress(change);
          sender := Checking(change, lastAddr);
        case Checking(change, lastAddr) =>
          if indexes[change] < lastAddr {
            derivedAddrCount := Add32(derivedAddrCount, 1);
            sender := Counted(change, lastAddr);
          } else {
            sender := AtLimit(1 - change);
          }
        case Counted(change, lastAddr) =>
          var addr := deriver.Derive(change, indexes[change]);
          backend.AddrRequest(addr);
          sender := Sent(change, lastAddr);
        case Sent(change, lastAddr) =>
          indexes := indexes[change := Add32(indexes[change], 1)];
          sender := Checking(change, lastAddr);
      }
    }

    /** The receiver's select when an address response is ready. */
    method SelectAddr() returns (ghost a: CoreAction)
      requires receiver.Idle? && backend.addrResponses != multiset{}
      modifies this, backend
      ensures Enabled(old(View()), CoreStep(a)) && (a.OnAddr? || a.OnTx?)
      ensures View() == Apply(World(), old(View()), CoreStep(a))
    {
      var resp := backend.ReceiveAddr();
      receiver := AddrTaken(resp);
      a := OnAddr(TakeAddr(resp));
    }

    method SelectTx() returns (ghost a: CoreAction)
      requires receiver.Idle? && backend.txResponses != multiset{}
      modifies this, backend
      ensures Enabled(old(View()), CoreStep(a)) && (a.OnAddr? || a.OnTx?)
      ensures View() == Apply(World(), old(View()), CoreStep(a))
    {
      var resp := backend.ReceiveTx();
      receiver := TxTaken(resp);
      a := OnTx(TakeTx(resp));
    }

    method SelectTick()
      requires receiver.Idle?
      modifies this
      ensures View() == Apply(World(), old(View()), CoreStep(Tick))
    {
      var done := CheckComplete();
      if done {
        receiver := Returned;
      }
    }

    /** One step of the handling of an address response. */
    method HandleAddr() returns (ghost a: CoreAction)
      requires receiver.AddrTaken? || receiver.AddrCounted? || receiver.Scanning?
      requires receiver.Scanning? ==> receiver.next <= |receiver.addr.txHashes| && receiver.addr.address.change < 2
      modifies this, backend
      ensures Enabled(old(View()), CoreStep(a)) && a.OnAddr?
      ensures View() == Apply(World(), old(View()), CoreStep(a))
    {
      var resp := receiver.addr;
      if receiver.AddrTaken? {
        processedAddrCount := Add32(processedAddrCount, 1);
        receiver := AddrCounted(resp);
        a := OnAddr(CountAddr);
      } else if receiver.AddrCounted? {
        addresses := addresses[script(resp.address) := Entry(resp.address, resp.txHashes)];
        receiver := Scanning(resp, 0);
        a := OnAddr(StoreAddr);
      } else if receiver.next < |resp.txHashes| {
        var txHash := resp.txHashes[receiver.next];
        if txHash !in transactions {
          backend.TxRequest(txHash);
          seenTxCount := Add32(seenTxCount, 1);
        }
        receiver := Scanning(resp, receiver.next + 1);
        a := OnAddr(ScanHash);
      } else {
        if |resp.txHashes| > 0 {
          var change := resp.address.change;
          var wanted := Add32(resp.address.addrIndex, lookahead);
          lastAddresses := lastAddresses[change := Max(lastAddresses[change], wanted)];
        }
        receiver := Idle;
        a := OnAddr(RaiseLimit);
      }
    }

    /** One step of the handling of a transaction response. */
    method HandleTx() returns (ghost a: CoreAction)
      requires receiver.TxTaken? || receiver.TxCounted?
      modifies this
      ensures Enabled(old(View()), CoreStep(a)) && a.OnTx?
      ensures View() == Apply(World(), old(View()), CoreStep(a))
    {
      var resp := receiver.tx;
      if receiver.TxTaken? {
        processedTxCount := Add32(processedTxCount, 1);
        receiver := TxCounted(resp);
        a := OnTx(CountTx);
      } else {
        transactions := transactions[resp.hash := RawTx(resp.height, resp.hex)];
        receiver := Idle;
        a := OnTx(StoreTx);
      }
    }

    /** The sender is scheduled; finding that it has nothing to do uses up some patience. */
    method ScheduleSender(patience: nat) returns (ghost a: Action, left: nat)
      requires sender.chain < 2 && (patience > 0 || !Polling())
      modifies this, backend
      ensures Steps(World(), old(View()), View(), a, patience, left)
    {
      left := if Polling() then patience - 1 else patience;
      a := CoreStep(Send(NextSend()));
      SendWork();
    }

    /** The receiver is scheduled, in its select or in the handling of a response. */
    method ScheduleReceiver(patience: nat) returns (ghost a: Action, left: nat)
      requires receiver.Scanning? ==> receiver.next <= |receiver.addr.txHashes| && receiver.addr.address.change < 2
      requires (patience > 0 || ReceiverReady()) && !receiver.Returned?
      modifies this, backend
      ensures Steps(World(), old(View()), View(), a, patience, left)
    {
      left := patience;
      ghost var b: CoreAction;
      if receiver.Idle? {
        var done := CheckComplete();
        if
        case done || patience > 0 =>
          left := if done then patience else patience - 1;
          b := Tick;
          SelectTick();
        case backend.addrResponses != multiset{} =>
          b := SelectAddr();
        case backend.txResponses != multiset{} =>
          b := SelectTx();
      } else if receiver.TxTaken? || receiver.TxCounted? {
        b := HandleTx();
      } else {
        b := HandleAddr();
      }
      a := CoreStep(b);
    }

    /** The backend answers some pending request. */
    method ScheduleBackend() returns (ghost a: Action)
      requires backend.addrRequests != multiset{} || backend.txRequests != multiset{}
      modifies backend
      ensures Enabled(old(View()), a) && !a.CoreStep? && View() == Apply(World(), old(View()), a)
    {
      if
      case backend.addrRequests != multiset{} =>
        var address := backend.AnswerAddrRequest();
        a := AnswerAddr(address);
      case backend.txRequests != multiset{} =>
        var hash := backend.AnswerTxRequest();
        a := AnswerTx(hash);
    }

    /** The receiver has a response to take or to handle, or its clock would end the run. */
    predicate ReceiverReady()
      reads this, backend
    {
      || !receiver.Idle? || Complete(CoreView())
      || backend.addrResponses != multiset{} || backend.txResponses != multiset{}
    }

    /** One atomic step of whichever goroutine the scheduler picks. */
    method Step(patience: nat) returns (ghost a: Action, left: nat)
      requires !receiver.Returned? && SomethingToDo(View())
      modifies this, backend
      ensures Steps(World(), old(View()), View(), a, patience, left)
    {
      var polling, ready := Polling(), ReceiverReady();
      left := patience;
      if
      case patience > 0 || !polling =>
        a, left := ScheduleSender(patience);
      case patience > 0 || ready =>
        a, left := ScheduleReceiver(patience);
      case backend.addrRequests != multiset{} || backend.txRequests != multiset{} =>
        a := ScheduleBackend();
    }

    /** Runs both goroutines and the backend in any interleaving until recvWork returns; `patience`
        bounds how often, in all, idle goroutines are scheduled, so that every schedule that ends is
        allowed by some value of it. */
    method FetchTransactions(ghost top: Pair)
      requires World().Bounded(top) && View() == Init(World())
      modifies this, backend
      ensures receiver.Returned? && Settled(World(), View())
    {
      var patience: nat := *;
      ghost var w, s := World(), View();
      ghost var rank := RankOf(top, s);
      InitInv(w, top);
      while !receiver.Returned?
        invariant s == View() && RunInv(w, top, s) && rank == RankOf(top, s)
        decreases patience, rank.derivations, rank.addrRequests, rank.addrResponses, rank.scan,
                  rank.txRequests, rank.txResponses, rank.store, rank.distance, rank.running
      {
        ghost var a: Action;
        var left: nat;
        AlwaysSomethingToDo(w, top, s);
        a, left := Step(patience);
        StepProgresses(w, top, s, View(), a, patience, left);
        s, rank, patience := View(), RankOf(top, View()), left;
      }
    }

    /** processTransactions and balance over what was fetched. */
    method Tally() returns (r: Outcome)
      ensures Settles(BookOf(parse, addresses.Keys, blockHeight, transactions), r)
    {
      var table := new Table(transactions, addresses.Keys, blockHeight, parse);
      table.ProcessTransactions(transactions);
      var cell;
      r, cell := table.Balance(BookOf(parse, addresses.Keys, blockHeight, transactions));
    }

    /** Fetches, filters and tallies. Everything the wallet's history calls for has then been fetched,
        the outcome is one that the ledger of it allows, and for any valid chain that the backend
        serves it is the value of the outputs unspent at the block height that pay the discovered
        scripts. */
    method ComputeBalance(ghost top: Pair) returns (r: Outcome)
      requires World().Bounded(top) && View() == Init(World())
      modifies this, backend
      ensures Settled(World(), View())
      ensures Settles(BookOf(parse, addresses.Keys, blockHeight, transactions), r)
      ensures AuditsChains(World(), parse, CoreView(), blockHeight, r)
    {
      FetchTransactions(top);
      r := Tally();
      ghost var w, core := World(), CoreView();
      forall chain: seq<Block> | Audit.AuditableAt(w, parse, core, blockHeight, chain)
        ensures Audit.IsUtxoTotal(core, blockHeight, chain, r)
      {
        Audit.FetchedTotal(w, parse, core, chain, blockHeight, r);
      }
    }
  }

  /** Action `a` leads from `s` to `t`, and uses up patience if it was idle. */
  ghost predicate Steps(w: World, s: State, t: State, a: Action, patience: nat, left: nat) {
    && Enabled(s, a) && t == Apply(w, s, a)
    && if Spins(s, a) then left < patience else left == patience
  }

  /** A step either lowers the rank or uses up patience. */
  ghost predicate Progress(top: Pair, s: State, t: State, patience: nat, left: nat) {
    && s.core.sender.chain < 2 && t.core.sender.chain < 2
    && (left < patience || (left == patience && Below(RankOf(top, t), RankOf(top, s))))
  }

  lemma StepProgresses(w: World, top: Pair, s: State, t: State, a: Action, patience: nat, left: nat)
    requires w.Bounded(top) && RunInv(w, top, s) && Steps(w, s, t, a, patience, left)
    ensures RunInv(w, top, t) && Progress(top, s, t, patience, left)
  {
    StepKeepsRunInv(w, top, s, a);
    EveryStepProgresses(w, top, s, a);
  }

  /** Some goroutine has something to do. */
  ghost predicate SomethingToDo(s: State) {
    var c, q := s.core, s.queues;
    && c.sender.chain < 2
    && (c.receiver.Scanning? ==> c.receiver.next <= |c.receiver.addr.txHashes| && c.receiver.addr.address.change < 2)
    && (|| c.sender.Counted? || c.sender.Sent? || (c.sender.Checking? && c.indexes[c.sender.chain] < c.sender.limit)
        || c.indexes[0] < c.lastAddresses[0] || c.indexes[1] < c.lastAddresses[1]
        || !c.receiver.Idle? || Complete(c) || !Quiet(q))
  }

  lemma AlwaysSomethingToDo(w: World, top: Pair, s: State)
    requires w.Bounded(top) && Inv(w, top, s) && !s.core.receiver.Returned?
    ensures SomethingToDo(s)
  {
    NeverStuck(w, top, s);
    if s.core.receiver.Scanning? {
      HeldChain(w, top, s);
    }
  }

  /** The outcome is the value of the discovered scripts' unspent outputs, on any chain served. */
  ghost predicate AuditsChains(w: World, parse: Parser, core: Core, blockHeight: nat, r: Outcome) {
    forall chain: seq<Block> :: Audit.AuditableAt(w, parse, core, blockHeight, chain)
      ==> Audit.IsUtxoTotal(core, blockHeight, chain, r)
  }
}
