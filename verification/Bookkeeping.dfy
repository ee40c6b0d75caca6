/** The loops of `processTransactions` and `balance` over the accounter's transactions map, whose
    entries share their output slices with every copy made of them. */
module Bookkeeping {
  import opened Basics
  import opened Sums
  import opened Wallet
  import opened Ledger

  /** The loop variable `hash` of the debit loop: one variable for all iterations (Go before 1.22),
      whose address is what `spentBy` is set to. */
  class HashVar {
    var hash: string
    constructor () { hash := ""; }
  }

  datatype Vout = Vout(value: int, address: string, ours: bool, spentBy: HashVar?)

  datatype Transaction = Transaction(height: int, hex: string, vin: seq<OutPoint>, vout: array<Vout>)

  class Table {
    var transactions: map<string, Transaction>
    const scripts: set<string>   // keys of the addresses map
    const blockHeight: nat
    const parse: Parser

    /** As recvWork leaves it: nothing parsed, empty slices. */
    constructor (fetched: map<string, RawTx>, scripts: set<string>, blockHeight: nat, parse: Parser)
      ensures this.scripts == scripts && this.blockHeight == blockHeight && this.parse == parse
      ensures transactions.Keys == fetched.Keys && Unparsed(fetched) && fresh(Slices())
    {
      this.scripts, this.blockHeight, this.parse := scripts, blockHeight, parse;
      var none := new Vout[0];
      this.transactions := map h | h in fetched :: Transaction(fetched[h].height, fetched[h].hex, [], none);
    }

    ghost predicate Unparsed(fetched: map<string, RawTx>)
      reads this
    {
      forall h :: h in transactions ==>
        && h in fetched
        && transactions[h].height == fetched[h].height && transactions[h].hex == fetched[h].hex
        && transactions[h].vin == [] && transactions[h].vout.Length == 0
    }

    ghost function Slices(): set<array<Vout>>
      reads this
    {
      set h | h in transactions :: transactions[h].vout
    }

    /** No two transactions share a slice that holds outputs. */
    ghost predicate Separate()
      reads this
    {
      forall h, h' :: h in transactions && h' in transactions && h != h' && transactions[h].vout.Length > 0
        ==> transactions[h].vout != transactions[h'].vout
    }

    /** The heap holds book `b`, with `spentBy` set, to `cell`, exactly on the outputs in `marked`. */
    ghost predicate Holds(b: Book, marked: set<OutPoint>, cell: HashVar?)
      reads this, Slices()
    {
      && transactions.Keys == b.Keys
      && (forall h :: h in b ==> transactions[h].vin == b[h].vin && transactions[h].vout.Length == |b[h].vout|)
      && (forall h, i :: h in b && 0 <= i < |b[h].vout| ==>
            transactions[h].vout[i] == Vout(b[h].vout[i].value, b[h].vout[i].address, b[h].vout[i].ours,
                                            if OutPoint(h, i) in marked then cell else null))
    }

    /** The first loop: drop what is too recent or not mined. */
    method Filter(ghost fetched: map<string, RawTx>)
      requires transactions.Keys == fetched.Keys && Unparsed(fetched)
      modifies this
      ensures Unparsed(fetched)
      ensures transactions.Keys == set h | h in fetched && 0 < fetched[h].height <= blockHeight
      ensures Slices() <= old(Slices())
    {
      var remaining := transactions.Keys;
      while remaining != {}
        invariant Unparsed(fetched) && remaining <= transactions.Keys && Slices() <= old(Slices())
        invariant forall h :: h in fetched && h !in remaining
                    ==> (h in transactions <==> 0 < fetched[h].height <= blockHeight)
      {
        var hash :| hash in remaining;
        var tx := transactions[hash];
        if tx.height > blockHeight {
          transactions := transactions - {hash};
        }
        if tx.height <= 0 {
          transactions := transactions - {hash};
        }
        remaining := remaining - {hash};
      }
    }

    /** Appends the outputs of a parsed transaction to an empty slice, which allocates a new one. */
    method Append(outs: seq<TxOut>) returns (vout: array<Vout>)
      ensures fresh(vout) && vout.Length == |outs|
      ensures forall i :: 0 <= i < |outs| ==>
                vout[i] == Vout(outs[i].value, outs[i].script, outs[i].script in scripts, null)
    {
      vout := new Vout[|outs|](_ => Vout(0, "", false, null));
      for i := 0 to |outs|
        invariant forall j :: 0 <= j < i ==>
                    vout[j] == Vout(outs[j].value, outs[j].script, outs[j].script in scripts, null)
      {
        vout[i] := Vout(outs[i].value, outs[i].script, outs[i].script in scripts, null);
      }
    }

    /** Entry `h` is what the ledger makes of `raw`, in a slice of its own. */
    ghost predicate EnteredAt(h: string, raw: RawTx)
      reads this, if h in transactions then {transactions[h].vout} else {}
    {
      h in transactions &&
      var t, e := transactions[h], Entered(parse, scripts, raw);
      && t.height == raw.height && t.vin == e.vin && t.vout.Length == |e.vout|
      && (forall i :: 0 <= i < |e.vout| ==>
            t.vout[i] == Vout(e.vout[i].value, e.vout[i].address, e.vout[i].ours, null))
    }

    /** All but the entries in `remaining` are entered, and those are as they were `before`. */
    ghost predicate Parsing(fetched: map<string, RawTx>, before: map<string, Transaction>, remaining: set<string>)
      reads this, Slices()
    {
      && transactions.Keys == before.Keys && remaining <= before.Keys
      && (forall h :: h in remaining ==> transactions[h] == before[h])
      && (forall h :: h in transactions && h !in remaining ==> h in fetched && EnteredAt(h, fetched[h]))
      && Separate()
    }

    /** Parses one transaction and rewrites its entry, unless parsing fails. */
    method ParseOne(hash: string, ghost raw: RawTx)
      requires hash in transactions && Separate()
      requires transactions[hash].vin == [] && transactions[hash].vout.Length == 0
      requires transactions[hash].height == raw.height && transactions[hash].hex == raw.hex
      modifies this
      ensures EnteredAt(hash, raw) && Separate()
      ensures transactions == old(transactions)[hash := transactions[hash]]
      ensures fresh(transactions[hash].vout) || transactions[hash].vout == old(transactions)[hash].vout
    {
      var tx := transactions[hash];
      match parse(tx.hex) {
        case None =>  // reported, and left without inputs and outputs
        case Some(parsed) =>
          var vout := Append(parsed.outs);
          transactions := transactions[hash := tx.(vin := tx.vin + parsed.ins, vout := vout)];
      }
    }

    /** One round of the second loop. */
    method ParseNext(hash: string, ghost fetched: map<string, RawTx>, ghost before: map<string, Transaction>,
                     ghost remaining: set<string>)
      requires Parsing(fetched, before, remaining) && hash in remaining && hash in fetched
      requires before[hash].vin == [] && before[hash].vout.Length == 0
      requires before[hash].height == fetched[hash].height && before[hash].hex == fetched[hash].hex
      modifies this
      ensures Parsing(fetched, before, remaining - {hash})
      ensures hash in transactions && transactions == old(transactions)[hash := transactions[hash]]
      ensures fresh(transactions[hash].vout) || transactions[hash].vout == before[hash].vout
    {
      ParseOne(hash, fetched[hash]);
      assert forall h :: h in transactions && h != hash ==> transactions[h] == old(transactions)[h];
    }

    /** The second loop: parse every transaction, in any order of the map. */
    method Parse(ghost fetched: map<string, RawTx>)
      requires Unparsed(fetched)
      modifies this
      ensures transactions.Keys == old(transactions.Keys)
      ensures forall h :: h in transactions ==> h in fetched && EnteredAt(h, fetched[h])
      ensures Separate() && (forall a :: a in Slices() ==> fresh(a) || a in old(Slices()))
    {
      var remaining := transactions.Keys;
      ghost var before := transactions;
      while remaining != {}
        invariant Parsing(fetched, before, remaining)
        invariant forall h :: h in transactions ==>
                    fresh(transactions[h].vout) || transactions[h].vout == before[h].vout
      {
        var hash :| hash in remaining;
        ParseNext(hash, fetched, before, remaining);
        remaining := remaining - {hash};
      }
    }

    /** Keeps the transactions mined up to the block height, with their inputs and outputs. */
    method ProcessTransactions(ghost fetched: map<string, RawTx>)
      requires transactions.Keys == fetched.Keys && Unparsed(fetched)
      modifies this
      ensures Holds(BookOf(parse, scripts, blockHeight, fetched), {}, null) && Separate()
      ensures forall a :: a in Slices() ==> fresh(a) || a in old(Slices())
    {
      Filter(fetched);
      Parse(fetched);
      ghost var b := BookOf(parse, scripts, blockHeight, fetched);
      forall h | h in b ensures b[h] == Entered(parse, scripts, fetched[h]) && EnteredAt(h, fetched[h]) {}
    }

    /** The inner credit loop, over the outputs of one transaction. */
    method CreditOne(hash: string, start: int, ghost b: Book, ghost done: set<string>) returns (balance: int)
      requires Holds(b, {}, null) && hash in transactions && hash !in done
      requires start == Wrap64(SumMap(CreditsWithin(b, done, "", 0)))
      ensures balance == Wrap64(SumMap(CreditsWithin(b, done + {hash}, "", 0)))
    {
      balance := start;
      var tx := transactions[hash];
      CreditsStart(b, done, hash);
      for i := 0 to tx.vout.Length
        invariant balance == Wrap64(SumMap(CreditsWithin(b, done, hash, i)))
      {
        var txout := tx.vout[i];
        CreditsNext(b, done, hash, i);
        if txout.ours {
          balance := Credit(balance, txout.value, CreditsWithin(b, done, hash, i), OutPoint(hash, i));
        }
      }
      CreditsDone(b, done, hash);
    }

    /** All credits: the outputs that are ours, in any order of the map. */
    method AddCredits(ghost b: Book) returns (balance: int)
      requires Holds(b, {}, null)
      ensures balance == Wrap64(SumMap(Credits(b)))
    {
      balance := 0;
      var remaining := transactions.Keys;
      ghost var done: set<string> := {};
      assert CreditsWithin(b, done, "", 0) == map[];
      while remaining != {}
        invariant done + remaining == b.Keys && done !! remaining
        invariant balance == Wrap64(SumMap(CreditsWithin(b, done, "", 0)))
      {
        var hash :| hash in remaining;
        balance := CreditOne(hash, balance, b, done);
        remaining, done := remaining - {hash}, done + {hash};
      }
      assert CreditsWithin(b, done, "", 0) == Credits(b);
    }

    /** Sets `spentBy` of one output. */
    method Mark(vout: array<Vout>, i: nat, cell: HashVar,
                ghost b: Book, ghost marked: set<OutPoint>, ghost hash: string)
      requires Holds(b, marked, cell) && Separate()
      requires hash in transactions && vout == transactions[hash].vout && i < vout.Length
      modifies vout
      ensures Holds(b, marked + {OutPoint(hash, i)}, cell)
    {
      vout[i] := vout[i].(spentBy := cell);
    }

    /** The state of the debit loop with the transactions in `done` and `k` inputs of `cur` behind it. */
    ghost predicate Debited(b: Book, done: set<string>, cur: string, k: nat, marked: set<OutPoint>, cell: HashVar,
                            balance: int)
      reads this, Slices()
    {
      && Holds(b, marked, cell) && DebitInv(b, done, cur, k, marked)
      && balance == Wrap64(SumMap(Credits(b) - marked))
    }

    /** The inner debit loop, over the inputs of one transaction. */
    method DebitInputs(hash: string, start: int, cell: HashVar, ghost b: Book, ghost done: set<string>,
                       ghost before: set<OutPoint>)
      returns (balance: int, panic: Option<Outcome>, ghost marked: set<OutPoint>)
      requires Separate() && hash in transactions && hash !in done && hash in b
      requires Debited(b, done, hash, 0, before, cell, start)
      modifies Slices()
      ensures panic.None? ==> Debited(b, done, hash, |b[hash].vin|, marked, cell, balance)
      ensures panic.Some? ==> PanicsRightly(b, panic.value)
    {
      balance, marked := start, before;
      var vin := transactions[hash].vin;
      for k := 0 to |vin|
        invariant Debited(b, done, hash, k, marked, cell, balance)
      {
        var txin := vin[k];
        DebitVisit(b, done, hash, k, marked);
        if txin.hash in transactions {
          var prev := transactions[txin.hash];
          if txin.index >= prev.vout.Length {
            return balance, Some(PrevIndexPanic), marked;
          }
          if prev.vout[txin.index].ours {
            balance := Debit(balance, prev.vout[txin.index].value, Credits(b) - marked, txin);
            if prev.vout[txin.index].spentBy != null {
              return balance, Some(DoubleSpendPanic), marked;
            }
            Mark(prev.vout, txin.index, cell, b, marked, txin.hash);
            marked := marked + {txin};
          }
        }
      }
      panic := None;
    }

    /** One round of the outer debit loop. */
    method DebitOne(hash: string, start: int, cell: HashVar, ghost b: Book, ghost done: set<string>,
                    ghost before: set<OutPoint>)
      returns (balance: int, panic: Option<Outcome>, ghost marked: set<OutPoint>)
      requires Separate() && hash in transactions && hash !in done && hash in b
      requires Debited(b, done, "", 0, before, cell, start)
      modifies Slices(), cell
      ensures panic.None? ==> Debited(b, done + {hash}, "", 0, marked, cell, balance)
      ensures panic.Some? ==> PanicsRightly(b, panic.value)
    {
      cell.hash := hash;
      DebitBegin(b, done, hash, before);
      balance, panic, marked := DebitInputs(hash, start, cell, b, done, before);
      if panic.None? {
        DebitNext(b, done, hash, "", marked);
      }
    }

    /** The debit loop, in any order of the map; `cell`, its variable, is one for all iterations. */
    method SubtractDebits(start: int, cell: HashVar, ghost b: Book) returns (balance: int, panic: Option<Outcome>)
      requires Holds(b, {}, cell) && Separate() && start == Wrap64(SumMap(Credits(b)))
      modifies Slices(), cell
      ensures panic.None? ==>
        && !BadIndex(b) && !DoubleSpend(b) && Holds(b, SpentOutputs(b), cell)
        && balance == Wrap64(SumMap(Unspent(b)))
      ensures panic.Some? ==> PanicsRightly(b, panic.value)
    {
      balance := start;
      var remaining := transactions.Keys;
      ghost var done: set<string>, marked: set<OutPoint> := {}, {};
      DebitStart(b);
      while remaining != {}
        invariant done + remaining == b.Keys && done !! remaining
        invariant Debited(b, done, "", 0, marked, cell, balance)
      {
        var hash :| hash in remaining;
        balance, panic, marked := DebitOne(hash, balance, cell, b, done, marked);
        if panic.Some? {
          return;
        }
        remaining, done := remaining - {hash}, done + {hash};
      }
      DebitEnd(b, "", marked);
      panic := None;
    }

    /** Credits minus debits, with every way to panic. */
    method Balance(ghost b: Book) returns (r: Outcome, cell: HashVar)
      requires Holds(b, {}, null) && Separate()
      modifies Slices()
      ensures Settles(b, r)
      ensures r.Balance? ==> Holds(b, SpentOutputs(b), cell)
    {
      var credits := AddCredits(b);
      cell := new HashVar();
      var balance, panic := SubtractDebits(credits, cell, b);
      if panic.Some? {
        return panic.value, cell;
      }
      if balance < 0 {
        return NegativePanic, cell;
      }
      return Outcome.Balance(balance), cell;
    }
  }

  ghost predicate PanicsRightly(b: Book, r: Outcome) {
    (r == PrevIndexPanic && BadIndex(b)) || (r == DoubleSpendPanic && DoubleSpend(b))
  }

  /** Go's `balance += value`, for an entry that was not part of the sum. */
  method Credit(balance: int, value: int, ghost m: map<OutPoint, int>, ghost o: OutPoint) returns (r: int)
    requires o !in m && balance == Wrap64(SumMap(m))
    ensures r == Wrap64(SumMap(m[o := value]))
  {
    SumMapAdd(m, o, value);
    WrapOnce(SumMap(m), value);
    r := Add64(balance, value);
  }

  /** Go's `balance -= value`, which takes an entry out of the sum if it was part of it. */
  method Debit(balance: int, value: int, ghost m: map<OutPoint, int>, ghost o: OutPoint) returns (r: int)
    requires o in m ==> balance == Wrap64(SumMap(m)) && value == m[o]
    ensures o in m ==> r == Wrap64(SumMap(m - {o}))
  {
    if o in m {
      SumMapRemove(m, o);
      WrapOnce(SumMap(m), -value);
    }
    r := Add64(balance, -value);
  }

  /** Our outputs of the transactions in `done` and the first `k` outputs of `cur`. */
  ghost function CreditsWithin(b: Book, done: set<string>, cur: string, k: nat): map<OutPoint, int> {
    map o | o in Credits(b) && (o.hash in done || (o.hash == cur && o.index < k)) :: Credits(b)[o]
  }

  lemma DebitStart(b: Book)
    ensures DebitInv(b, {}, "", 0, {}) && Credits(b) - {} == Credits(b)
  {
  }

  /** What one more input means for the debit loop: its panics, or the next invariant. */
  lemma DebitVisit(b: Book, done: set<string>, cur: string, k: nat, marked: set<OutPoint>)
    requires DebitInv(b, done, cur, k, marked) && cur in b && cur !in done && k < |b[cur].vin|
    ensures var o := b[cur].vin[k];
      && (o.hash in b && o.index >= |b[o.hash].vout| ==> BadIndex(b))
      && (o in marked ==> DoubleSpend(b))
      && (o in Credits(b) <==> o.hash in b && o.index < |b[o.hash].vout| && b[o.hash].vout[o.index].ours)
      && ((o.hash in b ==> o.index < |b[o.hash].vout|) && o !in Credits(b) ==> DebitInv(b, done, cur, k + 1, marked))
      && (o in Credits(b) && o !in marked ==>
            && DebitInv(b, done, cur, k + 1, marked + {o})
            && Credits(b)[o] == b[o.hash].vout[o.index].value
            && Credits(b) - marked - {o} == Credits(b) - (marked + {o}))
  {
    var o := b[cur].vin[k];
    assert Names(b, cur, k, o);
    if o in marked {
      MarkedTwice(b, done, cur, k, marked);
    } else if o.hash in b ==> o.index < |b[o.hash].vout| {
      DebitStep(b, done, cur, k, marked);
      if o in Credits(b) {
        assert Credits(b) - marked - {o} == Credits(b) - (marked + {o});
      }
    }
  }

  lemma DebitBegin(b: Book, done: set<string>, cur: string, marked: set<OutPoint>)
    requires DebitInv(b, done, "", 0, marked)
    ensures DebitInv(b, done, cur, 0, marked)
  {
    forall h, j | h in b && 0 <= j < |b[h].vin|
      ensures Visited(b, done, cur, 0, h, j) <==> Visited(b, done, "", 0, h, j)
    {
    }
    forall o | o in marked ensures Witnessed(b, done, cur, 0, o) {
      var h, j :| Visited(b, done, "", 0, h, j) && b[h].vin[j] == o;
      assert Visited(b, done, cur, 0, h, j);
    }
  }

  lemma CreditsStart(b: Book, done: set<string>, cur: string)
    ensures CreditsWithin(b, done, "", 0) == CreditsWithin(b, done, cur, 0)
  {
  }

  lemma CreditsNext(b: Book, done: set<string>, cur: string, k: nat)
    requires cur in b && cur !in done && k < |b[cur].vout|
    ensures CreditsWithin(b, done, cur, k + 1)
         == if b[cur].vout[k].ours then CreditsWithin(b, done, cur, k)[OutPoint(cur, k) := b[cur].vout[k].value]
            else CreditsWithin(b, done, cur, k)
    ensures OutPoint(cur, k) !in CreditsWithin(b, done, cur, k)
  {
    assert OutPoint(cur, k) in Outputs(b);
  }

  lemma CreditsDone(b: Book, done: set<string>, cur: string)
    requires cur in b
    ensures CreditsWithin(b, done, cur, |b[cur].vout|) == CreditsWithin(b, done + {cur}, "", 0)
  {
  }
}
