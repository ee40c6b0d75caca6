/** The recorder as code: a goroutine between two sets of channels, three maps, and the file. */
module RecorderBackend {
  import opened Fetching
  import opened Workers
  import opened Recorder
  import opened RecorderRuns

  /** The maps after these responses were stored in turn. */
  function RecordingOf(rs: seq<Response>): Index {
    if rs == [] then NOTHING_YET else Stored(RecordingOf(rs[..|rs| - 1]), rs[|rs| - 1])
  }

  class RecorderBackend {
    // channels of the backend behind it
    var backendAddrResponses: multiset<AddrResponse>
    var backendTxResponses: multiset<TxResponse>
    var backendBlockResponses: multiset<BlockResponse>

    // channels used to communicate with the accounter and the block finder
    var addrResponses: multiset<AddrResponse>
    var txResponses: multiset<TxResponse>
    var blockResponses: multiset<BlockResponse>

    var addrIndex: map<string, AddrResponse>
    var txIndex: map<string, TxResponse>
    var blockIndex: map<nat, BlockResponse>
    var hand: Hand                            // where the goroutine is with a response

    constructor ()
      ensures Behind() == EMPTY && Own() == EMPTY && hand.Empty? && IndexView() == NOTHING_YET
    {
      backendAddrResponses, backendTxResponses, backendBlockResponses := multiset{}, multiset{}, multiset{};
      addrResponses, txResponses, blockResponses := multiset{}, multiset{}, multiset{};
      addrIndex, txIndex, blockIndex, hand := map[], map[], map[], Empty;
    }

    ghost function Behind(): Channels
      reads this
    {
      Channels(Queues(multiset{}, backendAddrResponses, multiset{}, backendTxResponses),
               multiset{}, backendBlockResponses)
    }

    ghost function Own(): Channels
      reads this
    {
      Channels(Queues(multiset{}, addrResponses, multiset{}, txResponses), multiset{}, blockResponses)
    }

    ghost function IndexView(): Index
      reads this
    {
      Index(addrIndex, txIndex, blockIndex)
    }

    predicate Ready()
      reads this
    {
      || backendAddrResponses != multiset{} || backendTxResponses != multiset{}
      || backendBlockResponses != multiset{}
    }

    /** The select: any response of any of the three kinds. */
    method Pick()
      requires hand.Empty? && Ready()
      modifies this`backendAddrResponses, this`backendTxResponses, this`backendBlockResponses, this`hand
      ensures hand.Picked? && Waiting(old(Behind()), hand.response) > 0
      ensures Behind() == Received(old(Behind()), hand.response)
    {
      if
      case backendAddrResponses != multiset{} =>
        var addrResp :| addrResp in backendAddrResponses;
        backendAddrResponses := backendAddrResponses - multiset{addrResp};
        hand := Picked(AddrDone(addrResp));
      case backendTxResponses != multiset{} =>
        var txResp :| txResp in backendTxResponses;
        backendTxResponses := backendTxResponses - multiset{txResp};
        hand := Picked(TxDone(txResp));
      case backendBlockResponses != multiset{} =>
        var block :| block in backendBlockResponses;
        backendBlockResponses := backendBlockResponses - multiset{block};
        hand := Picked(BlockDone(block));
    }

    /** Stores the response under its key. */
    method Note()
      requires hand.Picked?
      modifies this`addrIndex, this`txIndex, this`blockIndex, this`hand
      ensures IndexView() == Stored(old(IndexView()), old(hand).response) && hand == Noted(old(hand).response)
    {
      match hand.response {
        case AddrDone(addrResp) => addrIndex := addrIndex[addrResp.address.addr := addrResp];
        case TxDone(txResp) => txIndex := txIndex[txResp.hash := txResp];
        case BlockDone(block) => blockIndex := blockIndex[block.height := block];
      }
      hand := Noted(hand.response);
    }

    /** And only then passes it on. */
    method Forward()
      requires hand.Noted?
      modifies this`addrResponses, this`txResponses, this`blockResponses, this`hand
      ensures Own() == Delivered(old(Own()), old(hand).response) && hand.Empty?
    {
      match hand.response {
        case AddrDone(addrResp) => addrResponses := addrResponses + multiset{addrResp};
        case TxDone(txResp) => txResponses := txResponses + multiset{txResp};
        case BlockDone(block) => blockResponses := blockResponses + multiset{block};
      }
      hand := Empty;
    }

    /** The backend behind answers. */
    method Arrive(r: Response)
      modifies this`backendAddrResponses, this`backendTxResponses, this`backendBlockResponses
      ensures Behind() == Delivered(old(Behind()), r)
    {
      match r {
        case AddrDone(addrResp) => backendAddrResponses := backendAddrResponses + multiset{addrResp};
        case TxDone(txResp) => backendTxResponses := backendTxResponses + multiset{txResp};
        case BlockDone(block) => backendBlockResponses := backendBlockResponses + multiset{block};
      }
    }

    /** The accounter or the block finder takes a response. */
    method Deliver() returns (ghost r: Response)
      requires addrResponses != multiset{} || txResponses != multiset{} || blockResponses != multiset{}
      modifies this`addrResponses, this`txResponses, this`blockResponses
      ensures Waiting(old(Own()), r) > 0 && Own() == Received(old(Own()), r)
    {
      if
      case addrResponses != multiset{} =>
        var addrResp :| addrResp in addrResponses;
        addrResponses := addrResponses - multiset{addrResp};
        r := AddrDone(addrResp);
      case txResponses != multiset{} =>
        var txResp :| txResp in txResponses;
        txResponses := txResponses - multiset{txResp};
        r := TxDone(txResp);
      case blockResponses != multiset{} =>
        var block :| block in blockResponses;
        blockResponses := blockResponses - multiset{block};
        r := BlockDone(block);
    }

    /** A client takes a response. */
    method RunClient(ghost arrived: multiset<Response>, ghost passed: seq<Response>, ghost taken: multiset<Response>)
      returns (ghost taken': multiset<Response>)
      requires addrResponses != multiset{} || txResponses != multiset{} || blockResponses != multiset{}
      requires Passing(Behind(), hand, Own(), IndexView(), arrived, passed, taken)
      modifies this`addrResponses, this`txResponses, this`blockResponses
      ensures Passing(Behind(), hand, Own(), IndexView(), arrived, passed, taken')
    {
      ghost var behind, own := Behind(), Own();
      ghost var r := Deliver();
      DeliverKeeps(behind, hand, own, IndexView(), arrived, passed, taken, r);
      taken' := taken + multiset{r};
    }

    /** The backend behind answers. */
    method RunBackend(r: Response, ghost arrived: multiset<Response>, ghost passed: seq<Response>,
                      ghost taken: multiset<Response>)
      requires Passing(Behind(), hand, Own(), IndexView(), arrived, passed, taken)
      modifies this`backendAddrResponses, this`backendTxResponses, this`backendBlockResponses
      ensures Passing(Behind(), hand, Own(), IndexView(), arrived + multiset{r}, passed, taken)
    {
      ghost var behind, own := Behind(), Own();
      Arrive(r);
      ArriveKeeps(behind, hand, own, IndexView(), arrived, passed, taken, r);
    }

    /** The goroutine's next step. */
    method RunGoroutine(ghost arrived: multiset<Response>, ghost passed: seq<Response>, ghost taken: multiset<Response>)
      returns (ghost passed': seq<Response>)
      requires hand.Empty? ==> Ready()
      requires Passing(Behind(), hand, Own(), IndexView(), arrived, passed, taken)
      modifies this
      ensures Passing(Behind(), hand, Own(), IndexView(), arrived, passed', taken)
      ensures hand == match old(hand) { case Empty => hand case Picked(r) => Noted(r) case Noted(_) => Empty }
    {
      ghost var behind, own, index := Behind(), Own(), IndexView();
      passed' := passed;
      match hand {
        case Empty =>
          Pick();
          PickKeeps(behind, own, index, arrived, passed, taken, hand.response);
        case Picked(_) =>
          Note();
        case Noted(r) =>
          ForwardKeeps(behind, hand, own, index, arrived, passed, taken);
          Forward();
          passed' := passed + [r];
      }
    }

    /** The goroutine among such others, until it is told to stop in its select: what it has passed on is
        what it has stored, what it has not passed on is still behind it, and whatever was taken had been
        stored first. */
    method ProcessRequests(answers: nat -> Response)
      returns (ghost arrived: multiset<Response>, ghost passed: seq<Response>, ghost taken: multiset<Response>)
      requires Behind() == EMPTY && Own() == EMPTY && hand.Empty? && IndexView() == NOTHING_YET
      modifies this
      ensures hand.Empty? && IndexView() == RecordingOf(passed)
      ensures forall r :: Waiting(Own(), r) + taken[r] == multiset(passed)[r]
      ensures forall r :: Waiting(Behind(), r) + multiset(passed)[r] == arrived[r]
    {
      var rounds: nat := *;
      arrived, passed, taken := multiset{}, [], multiset{};
      while rounds > 0 || !hand.Empty?
        invariant Passing(Behind(), hand, Own(), IndexView(), arrived, passed, taken)
        decreases rounds, if hand.Picked? then 2 else if hand.Noted? then 1 else 0
      {
        if
        case rounds > 0 =>
          rounds := rounds - 1;
          RunBackend(answers(rounds), arrived, passed, taken);
          arrived := arrived + multiset{answers(rounds)};
        case rounds > 0 && (addrResponses != multiset{} || txResponses != multiset{} || blockResponses != multiset{}) =>
          rounds := rounds - 1;
          taken := RunClient(arrived, passed, taken);
        case rounds > 0 && hand.Empty? && Ready() =>
          rounds := rounds - 1;
          passed := RunGoroutine(arrived, passed, taken);
        case !hand.Empty? =>
          passed := RunGoroutine(arrived, passed, taken);
      }
    }

    /** What is written when the program finishes. */
    method Finish(chainHeight: nat) returns (file: File)
      ensures Holds(file, chainHeight, IndexView())
    {
      file := WriteToFile(chainHeight, Index(addrIndex, txIndex, blockIndex));
    }
  }

  function HandBag(h: Hand, r: Response): nat { if !h.Empty? && h.response == r then 1 else 0 }

  ghost predicate Passing(behind: Channels, hand: Hand, own: Channels, index: Index,
                          arrived: multiset<Response>, passed: seq<Response>, taken: multiset<Response>)
  {
    && index == (if hand.Noted? then Stored(RecordingOf(passed), hand.response) else RecordingOf(passed))
    && (forall r :: Waiting(own, r) + taken[r] == multiset(passed)[r])
    && (forall r :: Waiting(behind, r) + HandBag(hand, r) + multiset(passed)[r] == arrived[r])
  }

  lemma ArriveKeeps(behind: Channels, hand: Hand, own: Channels, index: Index,
                    arrived: multiset<Response>, passed: seq<Response>, taken: multiset<Response>, r: Response)
    requires Passing(behind, hand, own, index, arrived, passed, taken)
    ensures Passing(Delivered(behind, r), hand, own, index, arrived + multiset{r}, passed, taken)
  {
    forall other
      ensures Waiting(Delivered(behind, r), other) + HandBag(hand, other) + multiset(passed)[other]
           == (arrived + multiset{r})[other]
    {
      DeliveredAdds(behind, r, other);
    }
  }

  lemma DeliverKeeps(behind: Channels, hand: Hand, own: Channels, index: Index,
                     arrived: multiset<Response>, passed: seq<Response>, taken: multiset<Response>, r: Response)
    requires Passing(behind, hand, own, index, arrived, passed, taken) && Waiting(own, r) > 0
    ensures Passing(behind, hand, Received(own, r), index, arrived, passed, taken + multiset{r})
  {
    forall other ensures Waiting(Received(own, r), other) + (taken + multiset{r})[other] == multiset(passed)[other] {
      ReceivedTakes(own, r, other);
    }
  }

  lemma PickKeeps(behind: Channels, own: Channels, index: Index,
                  arrived: multiset<Response>, passed: seq<Response>, taken: multiset<Response>, r: Response)
    requires Passing(behind, Empty, own, index, arrived, passed, taken) && Waiting(behind, r) > 0
    ensures Passing(Received(behind, r), Picked(r), own, index, arrived, passed, taken)
  {
    forall other
      ensures Waiting(Received(behind, r), other) + HandBag(Picked(r), other) + multiset(passed)[other]
           == arrived[other]
    {
      ReceivedTakes(behind, r, other);
    }
  }

  lemma ForwardKeeps(behind: Channels, hand: Hand, own: Channels, index: Index,
                     arrived: multiset<Response>, passed: seq<Response>, taken: multiset<Response>)
    requires Passing(behind, hand, own, index, arrived, passed, taken) && hand.Noted?
    ensures Passing(behind, Empty, Delivered(own, hand.response), index, arrived, passed + [hand.response], taken)
  {
    var now := passed + [hand.response];
    assert now[..|passed|] == passed;
    forall r ensures Waiting(Delivered(own, hand.response), r) + taken[r] == multiset(now)[r] {
      DeliveredAdds(own, hand.response, r);
    }
  }

  // ----- What is recorded in the end -----

  predicate SameKey(a: Response, b: Response) {
    match a
    case AddrDone(x) => b.AddrDone? && x.address.addr == b.addr.address.addr
    case TxDone(x) => b.TxDone? && x.hash == b.tx.hash
    case BlockDone(x) => b.BlockDone? && x.height == b.block.height
  }

  /** The last response with a key. */
  function Latest(rs: seq<Response>, r: Response): (last: Response)
    requires r in rs
    ensures last in rs && SameKey(last, r)
  {
    var n := |rs| - 1;
    if SameKey(rs[n], r) then rs[n] else Latest(rs[..n], r)
  }

  /** Of the responses with one key the last one is recorded. */
  lemma {:induction false} RecordsLatest(rs: seq<Response>, r: Response)
    requires r in rs
    ensures Keyed(RecordingOf(rs)) && Recorded(RecordingOf(rs), Latest(rs, r))
  {
    var n := |rs| - 1;
    RecordingIsKeyed(rs);
    if !SameKey(rs[n], r) {
      RecordsLatest(rs[..n], r);
    }
  }

  lemma {:induction false} RecordingIsKeyed(rs: seq<Response>)
    ensures Keyed(RecordingOf(rs))
  {
    if rs != [] {
      RecordingIsKeyed(rs[..|rs| - 1]);
    }
  }

  /** The backend behind never gave two different responses with one key. */
  ghost predicate Steady(rs: seq<Response>) {
    forall a, b {:trigger SameKey(a, b)} :: a in rs && b in rs && SameKey(a, b) ==> a == b
  }

  /** Everything that was passed on is recorded as it was, exactly when the backend was steady. */
  lemma RecordsAll(rs: seq<Response>)
    ensures (forall r :: r in rs ==> Recorded(RecordingOf(rs), r)) <==> Steady(rs)
  {
    if Steady(rs) {
      forall r | r in rs ensures Recorded(RecordingOf(rs), r) {
        RecordsLatest(rs, r);
      }
    }
  }
}
