/** What single steps of the accounter take from its channels and ask for. */
module FetchingSteps {
  import opened Basics
  import opened Wallet
  import opened Fetching
  import opened FetchingSafety

  /** What a step of the accounter holds or stores was in front of it or with it before. */
  ghost predicate Takes(c: Core, q: Queues, c': Core, q': Queues) {
    && q'.addrResponses <= q.addrResponses && q'.txResponses <= q.txResponses
    && (HeldAddr(c').Some? ==> HeldAddr(c') == HeldAddr(c) || HeldAddr(c').value in q.addrResponses)
    && (HeldTx(c').Some? ==> HeldTx(c') == HeldTx(c) || HeldTx(c').value in q.txResponses)
    && (c'.transactions == c.transactions
        || (HeldTx(c).Some? && c'.transactions.Keys == c.transactions.Keys + {HeldTx(c).value.hash}))
  }

  lemma SendTakes(w: World, c: Core, q: Queues, a: SenderAction, c': Core, q': Queues)
    requires SendEnabled(c, a) && c' == SendApply(c, a) && q' == Exchange(w, c, q, Send(a))
    ensures c'.receiver == c.receiver && c'.transactions == c.transactions
    ensures q'.addrResponses == q.addrResponses && q'.txResponses == q.txResponses
  {
  }

  lemma AddrTakes(w: World, c: Core, q: Queues, a: AddrAction, c': Core, q': Queues)
    requires AddrEnabled(c, a) && CanTake(q, OnAddr(a))
    requires c' == AddrApply(w, c, a) && q' == Exchange(w, c, q, OnAddr(a))
    ensures q'.addrResponses <= q.addrResponses && q'.txResponses == q.txResponses
    ensures HeldAddr(c').Some? ==> HeldAddr(c') == HeldAddr(c) || HeldAddr(c').value in q.addrResponses
    ensures HeldTx(c').None? && c'.transactions == c.transactions
  {
  }

  lemma TxTakes(w: World, c: Core, q: Queues, a: TxAction, c': Core, q': Queues)
    requires TxEnabled(c, a) && CanTake(q, OnTx(a)) && c' == TxApply(c, a) && q' == Exchange(w, c, q, OnTx(a))
    ensures q'.addrResponses == q.addrResponses && q'.txResponses <= q.txResponses
    ensures HeldAddr(c').None?
    ensures HeldTx(c').Some? ==> HeldTx(c') == HeldTx(c) || HeldTx(c').value in q.txResponses
    ensures c'.transactions == c.transactions
         || (HeldTx(c).Some? && c'.transactions.Keys == c.transactions.Keys + {HeldTx(c).value.hash})
  {
  }

  lemma CoreTakes(w: World, c: Core, q: Queues, b: CoreAction, c': Core, q': Queues)
    requires CoreEnabled(c, b) && CanTake(q, b) && c' == CoreApply(w, c, b) && q' == Exchange(w, c, q, b)
    ensures Takes(c, q, c', q')
  {
    match b
    case Send(a) => SendTakes(w, c, q, a, c', q');
    case OnAddr(a) => AddrTakes(w, c, q, a, c', q');
    case OnTx(a) => TxTakes(w, c, q, a, c', q');
    case Tick =>
  }

  /** A step of the accounter asks for one more address or for none. */
  lemma CoreAsks(w: World, top: Pair, s: State, b: CoreAction, c': Core)
    requires SenderInv(w, top, s.core) && Enabled(s, CoreStep(b)) && c' == CoreApply(w, s.core, b)
    requires top[0] < TWO31 && top[1] < TWO31
    ensures Asked(w, SentPair(s.core)) <= Asked(w, SentPair(c'))
    ensures forall x :: x in Asked(w, SentPair(c')) ==>
      x in Asked(w, SentPair(s.core)) || (b == Send(SendRequest) && x == NextAddr(w, s.core))
  {
    var n, n' := SentPair(s.core), SentPair(c');
    if b.Send? {
      SendEffect(w, top, s.core, s.queues, b.send);
      AskedGrows(w, n, n');
      forall x | x in Asked(w, n') ensures x in Asked(w, n) || (b == Send(SendRequest) && x == NextAddr(w, s.core)) {
        var chain: nat, i: nat :| chain < 2 && i < n'[chain] && x == w.Addr(chain, i);
        if i < n[chain] {
          assert Requested(w, n, x);
        }
      }
    } else {
      RestKeepsSent(w, s, CoreStep(b));
    }
  }
}
