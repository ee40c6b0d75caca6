/** The ledger half of the accounter: filter and parse the fetched transactions, then credit our
    outputs and debit the ones that are spent. */
module Ledger {
  import opened Basics
  import opened Sums
  import opened Wallet

  /** An output named by an input: the hash of its transaction and its position there. */
  datatype OutPoint = OutPoint(hash: string, index: nat)

  datatype TxOut = TxOut(value: int, script: string)

  datatype ParsedTx = ParsedTx(ins: seq<OutPoint>, outs: seq<TxOut>)

  /** Hex decoding and transaction parsing, which may fail. */
  type Parser = string -> Option<ParsedTx>

  /** The transactions map as a value. */
  datatype Out = Out(value: int, address: string, ours: bool)
  datatype Tx = Tx(vin: seq<OutPoint>, vout: seq<Out>)
  type Book = map<string, Tx>

  /** What the ledger makes of one fetched transaction: outputs to a known script are ours, and one
      that does not parse stays in the map without inputs and outputs. */
  function Entered(parse: Parser, scripts: set<string>, raw: RawTx): Tx {
    match parse(raw.hex)
    case None => Tx([], [])
    case Some(p) => Tx(p.ins, seq(|p.outs|, i requires 0 <= i < |p.outs| =>
                                Out(p.outs[i].value, p.outs[i].script, p.outs[i].script in scripts)))
  }

  predicate Confirmed(blockHeight: nat, raw: RawTx) { 0 < raw.height <= blockHeight }

  function BookOf(parse: Parser, scripts: set<string>, blockHeight: nat, raws: map<string, RawTx>): Book {
    map h | h in raws && Confirmed(blockHeight, raws[h]) :: Entered(parse, scripts, raws[h])
  }

  /** What is not mined, or mined later, has no part in the balance. */
  lemma PendingIsIgnored(parse: Parser, scripts: set<string>, blockHeight: nat, raws: map<string, RawTx>,
                         h: string, raw: RawTx)
    requires h !in raws && (raw.height <= 0 || raw.height > blockHeight)
    ensures BookOf(parse, scripts, blockHeight, raws[h := raw]) == BookOf(parse, scripts, blockHeight, raws)
  {
    var b, c := BookOf(parse, scripts, blockHeight, raws[h := raw]), BookOf(parse, scripts, blockHeight, raws);
    assert b.Keys == c.Keys;
  }

  function Outputs(b: Book): set<OutPoint> {
    set h, i | h in b && 0 <= i < |b[h].vout| :: OutPoint(h, i)
  }

  /** Our outputs with their values. */
  function Credits(b: Book): map<OutPoint, int> {
    map o | o in Outputs(b) && b[o.hash].vout[o.index].ours :: b[o.hash].vout[o.index].value
  }

  /** Input `j` of transaction `h` names `o`. */
  predicate Names(b: Book, h: string, j: int, o: OutPoint) {
    h in b && 0 <= j < |b[h].vin| && b[h].vin[j] == o
  }

  ghost predicate Spent(b: Book, o: OutPoint) {
    exists h, j :: Names(b, h, j, o)
  }

  /** Our outputs that no input in the book names. */
  ghost function Unspent(b: Book): map<OutPoint, int> {
    map o | o in Credits(b) && !Spent(b, o) :: Credits(b)[o]
  }

  ghost function SpentOutputs(b: Book): set<OutPoint> {
    set o | o in Credits(b) && Spent(b, o)
  }

  /** Some input names an output past the end of a transaction in the book. */
  ghost predicate BadIndex(b: Book) {
    exists h, j, o :: Names(b, h, j, o) && o.hash in b && o.index >= |b[o.hash].vout|
  }

  /** Two input occurrences name the same output of ours. */
  ghost predicate DoubleSpend(b: Book) {
    exists h, j, h', j', o :: Names(b, h, j, o) && Names(b, h', j', o) && (h, j) != (h', j') && o in Credits(b)
  }

  /** How `balance()` can end. */
  datatype Outcome = Balance(amount: nat) | PrevIndexPanic | DoubleSpendPanic | NegativePanic

  /** The outcomes that a book allows: a value is the unspent sum, as an int64. */
  ghost predicate Settles(b: Book, r: Outcome) {
    var total := Wrap64(SumMap(Unspent(b)));
    match r
    case Balance(n) => !BadIndex(b) && !DoubleSpend(b) && n == total
    case PrevIndexPanic => BadIndex(b)
    case DoubleSpendPanic => DoubleSpend(b)
    case NegativePanic => !BadIndex(b) && !DoubleSpend(b) && total < 0
  }

  /** The occurrences visited so far: all inputs of the transactions in `done` and the first `k` of `cur`. */
  predicate Visited(b: Book, done: set<string>, cur: string, k: nat, h: string, j: int) {
    h in b && 0 <= j < |b[h].vin| && (h in done || (h == cur && j < k))
  }

  ghost predicate InRange(b: Book, done: set<string>, cur: string, k: nat) {
    forall h, j {:trigger b[h].vin[j]} :: Visited(b, done, cur, k, h, j) && b[h].vin[j].hash in b
      ==> b[h].vin[j].index < |b[b[h].vin[j].hash].vout|
  }

  /** `marked` holds exactly our outputs that a visited input names. */
  ghost predicate MarksVisited(b: Book, done: set<string>, cur: string, k: nat, marked: set<OutPoint>) {
    && marked <= Credits(b).Keys
    && (forall h, j {:trigger b[h].vin[j]} :: Visited(b, done, cur, k, h, j) && b[h].vin[j] in Credits(b)
          ==> b[h].vin[j] in marked)
    && (forall o :: o in marked ==> Witnessed(b, done, cur, k, o))
  }

  ghost predicate Witnessed(b: Book, done: set<string>, cur: string, k: nat, o: OutPoint) {
    exists h, j :: Visited(b, done, cur, k, h, j) && b[h].vin[j] == o
  }

  ghost predicate OnceEach(b: Book, done: set<string>, cur: string, k: nat) {
    forall h, j, h', j' {:trigger b[h].vin[j], b[h'].vin[j']} ::
      (Visited(b, done, cur, k, h, j) && Visited(b, done, cur, k, h', j')
        && b[h].vin[j] == b[h'].vin[j'] && b[h].vin[j] in Credits(b)) ==> (h, j) == (h', j')
  }

  ghost predicate DebitInv(b: Book, done: set<string>, cur: string, k: nat, marked: set<OutPoint>) {
    InRange(b, done, cur, k) && MarksVisited(b, done, cur, k, marked) && OnceEach(b, done, cur, k)
  }

  /** Visiting one more input. */
  lemma DebitStep(b: Book, done: set<string>, cur: string, k: nat, marked: set<OutPoint>)
    requires DebitInv(b, done, cur, k, marked) && cur in b && cur !in done && k < |b[cur].vin|
    requires var o := b[cur].vin[k]; o.hash in b ==> o.index < |b[o.hash].vout|
    requires b[cur].vin[k] in Credits(b) ==> b[cur].vin[k] !in marked
    ensures DebitInv(b, done, cur, k + 1,
                     if b[cur].vin[k] in Credits(b) then marked + {b[cur].vin[k]} else marked)
  {
    var o := b[cur].vin[k];
    var marked' := if o in Credits(b) then marked + {o} else marked;
    assert Visited(b, done, cur, k + 1, cur, k);
    forall x | x in marked' ensures Witnessed(b, done, cur, k + 1, x) {
      if x in marked {
        var h, j :| Visited(b, done, cur, k, h, j) && b[h].vin[j] == x;
        assert Visited(b, done, cur, k + 1, h, j);
      }
    }
    forall h, j, h', j' | Visited(b, done, cur, k + 1, h, j) && Visited(b, done, cur, k + 1, h', j')
        && b[h].vin[j] == b[h'].vin[j'] && b[h].vin[j] in Credits(b)
      ensures (h, j) == (h', j')
    {
      assert Visited(b, done, cur, k, h, j) || (h, j) == (cur, k);
      assert Visited(b, done, cur, k, h', j') || (h', j') == (cur, k);
    }
  }

  /** Meeting a marked output again means that two inputs name it. */
  lemma MarkedTwice(b: Book, done: set<string>, cur: string, k: nat, marked: set<OutPoint>)
    requires DebitInv(b, done, cur, k, marked) && cur in b && cur !in done && k < |b[cur].vin|
    requires b[cur].vin[k] in marked
    ensures DoubleSpend(b)
  {
    var o := b[cur].vin[k];
    var h, j :| Visited(b, done, cur, k, h, j) && b[h].vin[j] == o;
    assert Names(b, h, j, o) && Names(b, cur, k, o) && (h, j) != (cur, k);
  }

  /** After the last input of a transaction it counts as done. */
  lemma DebitNext(b: Book, done: set<string>, cur: string, next: string, marked: set<OutPoint>)
    requires cur in b && DebitInv(b, done, cur, |b[cur].vin|, marked)
    ensures DebitInv(b, done + {cur}, next, 0, marked)
  {
    forall h, j | h in b && 0 <= j < |b[h].vin|
      ensures Visited(b, done + {cur}, next, 0, h, j) <==> Visited(b, done, cur, |b[cur].vin|, h, j)
    {
    }
    forall o | o in marked ensures Witnessed(b, done + {cur}, next, 0, o) {
      var h, j :| Visited(b, done, cur, |b[cur].vin|, h, j) && b[h].vin[j] == o;
      assert Visited(b, done + {cur}, next, 0, h, j);
    }
  }

  /** When all inputs are visited, the marks are our spent outputs. */
  lemma DebitEnd(b: Book, cur: string, marked: set<OutPoint>)
    requires DebitInv(b, b.Keys, cur, 0, marked)
    ensures !BadIndex(b) && !DoubleSpend(b)
    ensures marked == SpentOutputs(b)
    ensures Credits(b) - marked == Unspent(b)
  {
    forall h, j, o | Names(b, h, j, o) && o.hash in b ensures o.index < |b[o.hash].vout| {
      assert Visited(b, b.Keys, cur, 0, h, j);
    }
    forall h, j, h', j', o | Names(b, h, j, o) && Names(b, h', j', o) && o in Credits(b)
      ensures (h, j) == (h', j')
    {
      assert Visited(b, b.Keys, cur, 0, h, j) && Visited(b, b.Keys, cur, 0, h', j');
      assert b[h].vin[j] == b[h'].vin[j'];
    }
    forall o ensures o in marked <==> o in Credits(b) && Spent(b, o) {
      if o in marked {
        var h, j :| Visited(b, b.Keys, cur, 0, h, j) && b[h].vin[j] == o;
        assert Names(b, h, j, o);
      }
      if o in Credits(b) && Spent(b, o) {
        var h, j :| Names(b, h, j, o);
        assert Visited(b, b.Keys, cur, 0, h, j);
        assert b[h].vin[j] in marked;
      }
    }
  }

  /** Two runs over the same book, with the maps ranged over in any orders, end alike: both return
      the same amount, or both panic (which sanity check fires first may differ). */
  lemma OrderIrrelevant(b: Book, r: Outcome, r': Outcome)
    requires Settles(b, r) && Settles(b, r')
    ensures r.Balance? || r'.Balance? ==> r == r'
    ensures r.NegativePanic? <==> r'.NegativePanic?
  {
  }

  ghost predicate NonNegative(b: Book) {
    forall o :: o in Credits(b) ==> Credits(b)[o] >= 0
  }

  /** The running balance of the debit loop is the sum of our outputs not marked yet. With
      non-negative values whose sum is an int64 it never wraps and never goes below zero. */
  lemma RunningBalanceInRange(b: Book, marked: set<OutPoint>)
    requires NonNegative(b) && SumMap(Credits(b)) < TWO63
    ensures 0 <= Wrap64(SumMap(Credits(b) - marked)) == SumMap(Credits(b) - marked) <= SumMap(Credits(b))
  {
    SumMapSubset(Credits(b), marked);
  }

  /** With such values `balance()` panics exactly on a bad index or a double spend; otherwise it
      returns the sum of our unspent outputs. */
  lemma PanicsExactly(b: Book, r: Outcome)
    requires Settles(b, r) && NonNegative(b) && SumMap(Credits(b)) < TWO63
    ensures r.Balance? <==> !BadIndex(b) && !DoubleSpend(b)
    ensures r.Balance? ==> r.amount == SumMap(Unspent(b)) <= SumMap(Credits(b))
    ensures !r.NegativePanic?
  {
    var spent := SpentOutputs(b);
    assert Credits(b) - spent == Unspent(b);
    RunningBalanceInRange(b, spent);
  }

  /** A transaction that does not parse keeps its place without outputs, so that an input that names one of
      them ends the audit. */
  lemma UnparsedIsFatal(parse: Parser, scripts: set<string>, blockHeight: nat, raws: map<string, RawTx>,
                        h: string, j: int, o: OutPoint, r: Outcome)
    requires o.hash in raws && 0 < raws[o.hash].height <= blockHeight && parse(raws[o.hash].hex).None?
    requires var b := BookOf(parse, scripts, blockHeight, raws); Names(b, h, j, o) && Settles(b, r)
    ensures r == PrevIndexPanic || r == DoubleSpendPanic
  {
    var b := BookOf(parse, scripts, blockHeight, raws);
    assert Names(b, h, j, o) && o.hash in b && |b[o.hash].vout| == 0;
  }

  /** A sum that is not an int64 is a panic, not a wrong balance. */
  lemma OverflowPanics(b: Book, r: Outcome)
    requires Settles(b, r) && !BadIndex(b) && !DoubleSpend(b)
    requires 0x8000_0000_0000_0000 <= SumMap(Unspent(b)) < 0x1_0000_0000_0000_0000
    ensures r == NegativePanic
  {
  }
}
