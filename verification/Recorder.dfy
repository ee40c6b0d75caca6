/** The file that the recorder writes and the fixture loads. */
module Recorder {
  import opened Sorting
  import opened Deriver
  import opened Fetching
  import opened Workers

  /** The maps of recorded responses: by address string, by transaction hash, by height. */
  datatype Index = Index(
    addrs: map<string, AddrResponse>, txs: map<string, TxResponse>, blocks: map<nat, BlockResponse>)

  datatype AddressRecord = AddressRecord(
    address: string, path: Path, network: string, change: nat, addressIndex: nat, txHashes: seq<string>)
  datatype TransactionRecord = TransactionRecord(hash: string, height: int, hex: string)
  datatype BlockRecord = BlockRecord(height: nat, timestamp: int)

  datatype File = File(
    height: nat, addresses: seq<AddressRecord>, transactions: seq<TransactionRecord>, blocks: seq<BlockRecord>)

  function AddressEntry(key: string, r: AddrResponse): AddressRecord {
    AddressRecord(key, r.address.path, r.address.net, r.address.change, r.address.addrIndex, r.txHashes)
  }

  function TransactionEntry(r: TxResponse): TransactionRecord { TransactionRecord(r.hash, r.height, r.hex) }

  function BlockEntry(r: BlockResponse): BlockRecord { BlockRecord(r.height, r.timestamp) }

  /** Lexicographic order of strings. */
  predicate AtMost(a: string, b: string) {
    a == [] || (b != [] && (a[0] < b[0] || (a[0] == b[0] && AtMost(a[1..], b[1..]))))
  }

  lemma {:induction false} AtMostTotal(a: string, b: string)
    ensures AtMost(a, b) || AtMost(b, a)
  {
    if a != [] && b != [] {
      AtMostTotal(a[1..], b[1..]);
    }
  }

  lemma {:induction false} AtMostTransitive(a: string, b: string, c: string)
    requires AtMost(a, b) && AtMost(b, c)
    ensures AtMost(a, c)
  {
    if a != [] && b != [] && c != [] && a[0] == b[0] && b[0] == c[0] {
      AtMostTransitive(a[1..], b[1..], c[1..]);
    }
  }

  predicate CharBelow(c: char, d: char) { c < d }

  /** `AtMost` is the ascending order that Go has on strings. */
  lemma {:induction false} AtMostIsAscending(a: string, b: string)
    ensures AtMost(a, b) <==> a == b || Precedes(CharBelow, a, b)
  {
    if a != [] && b != [] && a[0] == b[0] {
      AtMostIsAscending(a[1..], b[1..]);
      PrecedesTail(CharBelow, a, b);
      assert a == [a[0]] + a[1..] && b == [b[0]] + b[1..];
    } else {
      PrecedesHead(CharBelow, a, b);
    }
  }

  predicate ByAddress(a: AddressRecord, b: AddressRecord) { AtMost(a.address, b.address) }

  predicate ByTransactionID(a: TransactionRecord, b: TransactionRecord) { AtMost(a.hash, b.hash) }

  lemma RecordOrders()
    ensures TotalPreorder(ByAddress) && TotalPreorder(ByTransactionID)
  {
    forall a, b ensures AtMost(a, b) || AtMost(b, a) { AtMostTotal(a, b); }
    forall a, b, c | AtMost(a, b) && AtMost(b, c) ensures AtMost(a, c) { AtMostTransitive(a, b, c); }
  }

  /** The records list the entries of a map, each once, in any order. */
  ghost predicate ListsAddresses(records: seq<AddressRecord>, addrs: map<string, AddrResponse>) {
    && (forall e :: e in records ==> e.address in addrs && e == AddressEntry(e.address, addrs[e.address]))
    && (forall k :: k in addrs ==> AddressEntry(k, addrs[k]) in records)
    && |records| == |addrs|
  }

  ghost predicate ListsTransactions(records: seq<TransactionRecord>, txs: map<string, TxResponse>) {
    && (forall e :: e in records ==> exists k :: k in txs && e == TransactionEntry(txs[k]))
    && (forall k :: k in txs ==> TransactionEntry(txs[k]) in records)
    && |records| == |txs|
  }

  ghost predicate ListsBlocks(records: seq<BlockRecord>, blocks: map<nat, BlockResponse>) {
    && (forall e :: e in records ==> exists k :: k in blocks && e == BlockEntry(blocks[k]))
    && (forall k :: k in blocks ==> BlockEntry(blocks[k]) in records)
    && |records| == |blocks|
  }

  /** What the recorder promises of the file. */
  ghost predicate Holds(file: File, height: nat, index: Index) {
    && file.height == height
    && ListsAddresses(file.addresses, index.addrs)
    && ListsTransactions(file.transactions, index.txs)
    && ListsBlocks(file.blocks, index.blocks)
  }

  lemma SortedHasSame<E(!new)>(le: (E, E) -> bool, records: seq<E>)
    requires TotalPreorder(le)
    ensures |Sort(le, records)| == |records|
    ensures forall e :: e in Sort(le, records) <==> e in records
  {
    SortSorts(le, records);
    forall e ensures e in Sort(le, records) <==> e in records {
      assert e in multiset(Sort(le, records)) <==> e in multiset(records);
    }
  }

  method WriteAddresses(addrs: map<string, AddrResponse>) returns (records: seq<AddressRecord>)
    ensures ListsAddresses(records, addrs) && SortedBy(ByAddress, records)
  {
    var entries: seq<AddressRecord> := [];
    var remaining := addrs.Keys;
    while remaining != {}
      invariant remaining <= addrs.Keys && |entries| == |addrs| - |remaining|
      invariant forall e :: e in entries ==> e.address in addrs && e == AddressEntry(e.address, addrs[e.address])
      invariant forall k :: k in addrs && k !in remaining ==> AddressEntry(k, addrs[k]) in entries
    {
      var addr :| addr in remaining;
      entries := entries + [AddressEntry(addr, addrs[addr])];
      remaining := remaining - {addr};
    }
    RecordOrders();
    SortedHasSame(ByAddress, entries);
    SortSorts(ByAddress, entries);
    records := Sort(ByAddress, entries);
  }

  method WriteTransactions(txs: map<string, TxResponse>) returns (records: seq<TransactionRecord>)
    ensures ListsTransactions(records, txs) && SortedBy(ByTransactionID, records)
  {
    var entries: seq<TransactionRecord> := [];
    var remaining := txs.Keys;
    while remaining != {}
      invariant remaining <= txs.Keys && |entries| == |txs| - |remaining|
      invariant forall e :: e in entries ==> exists k :: k in txs && e == TransactionEntry(txs[k])
      invariant forall k :: k in txs && k !in remaining ==> TransactionEntry(txs[k]) in entries
    {
      var hash :| hash in remaining;
      entries := entries + [TransactionEntry(txs[hash])];
      remaining := remaining - {hash};
    }
    RecordOrders();
    SortedHasSame(ByTransactionID, entries);
    SortSorts(ByTransactionID, entries);
    records := Sort(ByTransactionID, entries);
  }

  method WriteBlocks(blocks: map<nat, BlockResponse>) returns (records: seq<BlockRecord>)
    ensures ListsBlocks(records, blocks)
  {
    records := [];
    var remaining := blocks.Keys;
    while remaining != {}
      invariant remaining <= blocks.Keys && |records| == |blocks| - |remaining|
      invariant forall e :: e in records ==> exists k :: k in blocks && e == BlockEntry(blocks[k])
      invariant forall k :: k in blocks && k !in remaining ==> BlockEntry(blocks[k]) in records
    {
      var height :| height in remaining;
      records := records + [BlockEntry(blocks[height])];
      remaining := remaining - {height};
    }
  }

  /** Addresses and transactions are sorted; blocks come in the map's order. */
  method WriteToFile(chainHeight: nat, index: Index) returns (file: File)
    ensures Holds(file, chainHeight, index)
    ensures SortedBy(ByAddress, file.addresses) && SortedBy(ByTransactionID, file.transactions)
  {
    var addresses := WriteAddresses(index.addrs);
    var transactions := WriteTransactions(index.txs);
    var blocks := WriteBlocks(index.blocks);
    file := File(chainHeight, addresses, transactions, blocks);
  }

  /** In a file that was written the addresses ascend, and so do the transactions. */
  lemma WrittenAscending(file: File, height: nat, index: Index)
    requires Holds(file, height, index) && SortedBy(ByAddress, file.addresses)
    requires SortedBy(ByTransactionID, file.transactions)
    ensures forall i, j :: 0 <= i < j < |file.addresses| ==>
      file.addresses[i].address == file.addresses[j].address
      || Precedes(CharBelow, file.addresses[i].address, file.addresses[j].address)
    ensures forall i, j :: 0 <= i < j < |file.transactions| ==>
      file.transactions[i].hash == file.transactions[j].hash
      || Precedes(CharBelow, file.transactions[i].hash, file.transactions[j].hash)
  {
    forall i, j | 0 <= i < j < |file.addresses|
      ensures file.addresses[i].address == file.addresses[j].address
           || Precedes(CharBelow, file.addresses[i].address, file.addresses[j].address)
    {
      AtMostIsAscending(file.addresses[i].address, file.addresses[j].address);
      assert ByAddress(file.addresses[i], file.addresses[j]);
    }
    forall i, j | 0 <= i < j < |file.transactions|
      ensures file.transactions[i].hash == file.transactions[j].hash
           || Precedes(CharBelow, file.transactions[i].hash, file.transactions[j].hash)
    {
      AtMostIsAscending(file.transactions[i].hash, file.transactions[j].hash);
      assert ByTransactionID(file.transactions[i], file.transactions[j]);
    }
  }

  function AddressOf(e: AddressRecord): AddrResponse {
    AddrResponse(Address(e.path, e.address, e.network, e.change, e.addressIndex), e.txHashes)
  }

  function TransactionOf(e: TransactionRecord): TxResponse { TxResponse(e.hash, e.height, e.hex) }

  function BlockOf(e: BlockRecord): BlockResponse { BlockResponse(e.height, e.timestamp) }

  /** The maps that the loaded records fill, a later record replacing an earlier one with its key. */
  ghost predicate LoadedAddresses(records: seq<AddressRecord>, addrs: map<string, AddrResponse>) {
    && (forall e :: e in records ==> e.address in addrs)
    && (forall k :: k in addrs ==> exists e :: e in records && e.address == k && addrs[k] == AddressOf(e))
  }

  ghost predicate LoadedTransactions(records: seq<TransactionRecord>, txs: map<string, TxResponse>) {
    && (forall e :: e in records ==> e.hash in txs)
    && (forall k :: k in txs ==> exists e :: e in records && e.hash == k && txs[k] == TransactionOf(e))
  }

  ghost predicate LoadedBlocks(records: seq<BlockRecord>, blocks: map<nat, BlockResponse>) {
    && (forall e :: e in records ==> e.height in blocks)
    && (forall k :: k in blocks ==> exists e :: e in records && e.height == k && blocks[k] == BlockOf(e))
  }

  ghost predicate Loaded(file: File, index: Index) {
    && LoadedAddresses(file.addresses, index.addrs)
    && LoadedTransactions(file.transactions, index.txs)
    && LoadedBlocks(file.blocks, index.blocks)
  }

  method LoadFromFile(file: File) returns (height: nat, index: Index)
    ensures height == file.height && Loaded(file, index)
  {
    var addrs: map<string, AddrResponse> := map[];
    var txs: map<string, TxResponse> := map[];
    var blocks: map<nat, BlockResponse> := map[];
    for i := 0 to |file.addresses|
      invariant LoadedAddresses(file.addresses[..i], addrs)
    {
      var e := file.addresses[i];
      addrs := addrs[e.address := AddressOf(e)];
    }
    for i := 0 to |file.transactions|
      invariant LoadedTransactions(file.transactions[..i], txs)
    {
      var e := file.transactions[i];
      txs := txs[e.hash := TransactionOf(e)];
    }
    for i := 0 to |file.blocks|
      invariant LoadedBlocks(file.blocks[..i], blocks)
    {
      var e := file.blocks[i];
      blocks := blocks[e.height := BlockOf(e)];
    }
    assert file.addresses[..|file.addresses|] == file.addresses;
    assert file.transactions[..|file.transactions|] == file.transactions;
    assert file.blocks[..|file.blocks|] == file.blocks;
    height, index := file.height, Index(addrs, txs, blocks);
  }

  /** Every key is the one that its entry carries. */
  ghost predicate Keyed(index: Index) {
    && (forall k :: k in index.addrs ==> index.addrs[k].address.addr == k)
    && (forall k :: k in index.txs ==> index.txs[k].hash == k)
    && (forall k :: k in index.blocks ==> index.blocks[k].height == k)
  }

  lemma AddressesRoundTrip(records: seq<AddressRecord>,
                           addrs: map<string, AddrResponse>, loaded: map<string, AddrResponse>)
    requires ListsAddresses(records, addrs) && LoadedAddresses(records, loaded)
    requires forall k :: k in addrs ==> addrs[k].address.addr == k
    ensures loaded == addrs
  {
    forall k ensures k in addrs <==> k in loaded {
      if k in addrs {
        assert AddressEntry(k, addrs[k]) in records;
      }
    }
  }

  lemma TransactionsRoundTrip(records: seq<TransactionRecord>,
                              txs: map<string, TxResponse>, loaded: map<string, TxResponse>)
    requires ListsTransactions(records, txs) && LoadedTransactions(records, loaded)
    requires forall k :: k in txs ==> txs[k].hash == k
    ensures loaded == txs
  {
    forall k ensures k in txs <==> k in loaded {
      if k in txs {
        assert TransactionEntry(txs[k]) in records;
      }
    }
    forall k | k in txs ensures loaded[k] == txs[k] {
      var e :| e in records && e.hash == k && loaded[k] == TransactionOf(e);
      var k' :| k' in txs && e == TransactionEntry(txs[k']);
    }
  }

  lemma BlocksRoundTrip(records: seq<BlockRecord>, blocks: map<nat, BlockResponse>, loaded: map<nat, BlockResponse>)
    requires ListsBlocks(records, blocks) && LoadedBlocks(records, loaded)
    requires forall k :: k in blocks ==> blocks[k].height == k
    ensures loaded == blocks
  {
    forall k ensures k in blocks <==> k in loaded {
      if k in blocks {
        assert BlockEntry(blocks[k]) in records;
      }
    }
    forall k | k in blocks ensures loaded[k] == blocks[k] {
      var e :| e in records && e.height == k && loaded[k] == BlockOf(e);
      var k' :| k' in blocks && e == BlockEntry(blocks[k']);
    }
  }

  /** Loading what was written gives back the recorded maps exactly when every key matches its
      entry; the order of the records does not matter. */
  lemma WriteThenLoad(file: File, height: nat, index: Index, loaded: Index)
    requires Holds(file, height, index) && Loaded(file, loaded)
    ensures loaded == index <==> Keyed(index)
  {
    if Keyed(index) {
      AddressesRoundTrip(file.addresses, index.addrs, loaded.addrs);
      TransactionsRoundTrip(file.transactions, index.txs, loaded.txs);
      BlocksRoundTrip(file.blocks, index.blocks, loaded.blocks);
    }
  }
}
