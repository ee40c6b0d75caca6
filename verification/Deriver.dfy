/** Deriving wallet addresses. BIP 32 child keys and address encodings are foreign, deterministic
    functions; what the code adds is the choice of mode and the canonical order of multisig keys. */
module Deriver {
  import opened Sorting

  type Key = seq<bv8>

  datatype Path = NotApplicable | Branch(change: nat, addrIndex: nat)

  datatype Address = Address(path: Path, addr: string, net: string, change: nat, addrIndex: nat)

  /** The library calls of the derivation; extended keys are in their serialised form. */
  datatype Library = Library(
    child: (string, nat) -> string,                   // one BIP 32 step from an extended key to another
    publicKey: string -> Key,                         // its compressed public key
    keyAddress: (string, string) -> string,           // its address on a network
    multiSigAddress: (seq<Key>, int, string) -> string // address of an m-of-n script on a network
  )

  /** `bytes.Compare`: -1, 0 or 1 in lexicographic order. */
  function Compare(a: Key, b: Key): (c: int)
    ensures -1 <= c <= 1
  {
    if a == [] && b == [] then 0
    else if a == [] then -1
    else if b == [] then 1
    else if a[0] < b[0] then -1
    else if a[0] > b[0] then 1
    else Compare(a[1..], b[1..])
  }

  predicate Less(a: Key, b: Key) { Compare(a, b) == -1 }

  predicate LessOrEqual(a: Key, b: Key) { !Less(b, a) }

  lemma {:induction false} CompareFlips(a: Key, b: Key)
    ensures Compare(a, b) == -Compare(b, a)
    ensures Compare(a, b) == 0 <==> a == b
  {
    if a != [] && b != [] && a[0] == b[0] {
      CompareFlips(a[1..], b[1..]);
      assert a == [a[0]] + a[1..] && b == [b[0]] + b[1..];
    }
  }

  lemma {:induction false} CompareTransitive(a: Key, b: Key, c: Key)
    requires Compare(a, b) <= 0 && Compare(b, c) <= 0
    ensures Compare(a, c) <= 0
  {
    if a != [] && b != [] && c != [] && a[0] == b[0] && b[0] == c[0] {
      CompareTransitive(a[1..], b[1..], c[1..]);
    }
  }

  /** Lexicographic byte comparison, the order that `Less` gives to the sort package, is total. */
  lemma KeyOrderIsTotal()
    ensures TotalOrder(LessOrEqual)
  {
    forall a, b ensures LessOrEqual(a, b) || LessOrEqual(b, a) { CompareFlips(a, b); }
    forall a, b | LessOrEqual(a, b) && LessOrEqual(b, a) ensures a == b { CompareFlips(a, b); }
    forall a, b, c | LessOrEqual(a, b) && LessOrEqual(b, c) ensures LessOrEqual(a, c) {
      CompareFlips(a, b);
      CompareFlips(b, c);
      CompareFlips(a, c);
      CompareTransitive(a, b, c);
    }
  }

  predicate ByteBelow(x: bv8, y: bv8) { x < y }

  /** It is the ascending order: the first byte that differs decides, and a prefix comes first. */
  lemma {:induction false} CompareIsAscending(a: Key, b: Key)
    ensures Compare(a, b) == -1 <==> Precedes(ByteBelow, a, b)
    ensures Compare(a, b) == 1 <==> Precedes(ByteBelow, b, a)
  {
    if a != [] && b != [] && a[0] == b[0] {
      CompareIsAscending(a[1..], b[1..]);
      PrecedesTail(ByteBelow, a, b);
      PrecedesTail(ByteBelow, b, a);
    } else {
      PrecedesHead(ByteBelow, a, b);
      PrecedesHead(ByteBelow, b, a);
    }
  }

  datatype AddressDeriver = AddressDeriver(
    network: string, xpubs: seq<string>, m: int, singleAddress: string, lib: Library)
  {
    /** The extended key of cosigner `j` at a change and index. */
    function ChildKey(j: nat, change: nat, addrIndex: nat): string
      requires j < |xpubs|
    {
      lib.child(lib.child(xpubs[j], change), addrIndex)
    }

    /** The child public keys, in the order of the extended keys. */
    function ChildKeys(change: nat, addrIndex: nat): (ks: seq<Key>)
      ensures |ks| == |xpubs|
      ensures forall j :: 0 <= j < |ks| ==> ks[j] == lib.publicKey(ChildKey(j, change, addrIndex))
    {
      seq(|xpubs|, j requires 0 <= j < |xpubs| => lib.publicKey(ChildKey(j, change, addrIndex)))
    }

    function SingleDerive(change: nat, addrIndex: nat): string
      requires xpubs != []
    {
      lib.keyAddress(ChildKey(0, change, addrIndex), network)
    }

    function MultiSigSegwitDerive(change: nat, addrIndex: nat): string {
      lib.multiSigAddress(Sort(LessOrEqual, ChildKeys(change, addrIndex)), m, network)
    }

    /** In single-address mode every derivation is the same address with change and index 0. */
    function Derive(change: nat, addrIndex: nat): (a: Address)
      requires change < 2
      ensures a.change < 2
    {
      if singleAddress != "" then
        Address(NotApplicable, singleAddress, network, 0, 0)
      else
        Address(Branch(change, addrIndex),
                if |xpubs| == 1 then SingleDerive(change, addrIndex) else MultiSigSegwitDerive(change, addrIndex),
                network, change, addrIndex)
    }
  }

  // ----- What is derived -----

  /** With one extended key each chain has one branch key, the child of the extended key at the number of
      the chain, and every address of the chain is that of one further child, at its index. */
  lemma OneBranchPerChain(d: AddressDeriver, c: nat) returns (branch: string)
    requires c < 2 && d.singleAddress == "" && |d.xpubs| == 1
    ensures branch == d.lib.child(d.xpubs[0], c)
    ensures forall i: nat ::
      d.Derive(c, i) == Address(Branch(c, i), d.lib.keyAddress(d.lib.child(branch, i), d.network), d.network, c, i)
  {
    branch := d.lib.child(d.xpubs[0], c);
    assert forall i: nat :: d.ChildKey(0, c, i) == d.lib.child(branch, i);
  }

  /** The public keys of the branches' children at one index. */
  function KeysAt(lib: Library, branches: seq<string>, i: nat): (ks: seq<Key>)
    ensures |ks| == |branches|
    ensures forall j :: 0 <= j < |ks| ==> ks[j] == lib.publicKey(lib.child(branches[j], i))
  {
    seq(|branches|, j requires 0 <= j < |branches| => lib.publicKey(lib.child(branches[j], i)))
  }

  ghost predicate Ascending(keys: seq<Key>) {
    forall j, k :: 0 <= j < k < |keys| ==> keys[j] == keys[k] || Precedes(ByteBelow, keys[j], keys[k])
  }

  /** With several extended keys each chain has one branch key for each of them, and every address of the
      chain is that of the keys of all branches at its index, in ascending order. */
  lemma BranchesPerChain(d: AddressDeriver, c: nat, i: nat) returns (branches: seq<string>, keys: seq<Key>)
    requires c < 2 && d.singleAddress == "" && |d.xpubs| != 1
    ensures |branches| == |d.xpubs|
    ensures forall j :: 0 <= j < |branches| ==> branches[j] == d.lib.child(d.xpubs[j], c)
    ensures multiset(keys) == multiset(KeysAt(d.lib, branches, i)) && Ascending(keys)
    ensures d.Derive(c, i) == Address(Branch(c, i), d.lib.multiSigAddress(keys, d.m, d.network), d.network, c, i)
  {
    branches := seq(|d.xpubs|, j requires 0 <= j < |d.xpubs| => d.lib.child(d.xpubs[j], c));
    keys := Sort(LessOrEqual, d.ChildKeys(c, i));
    KeyOrderIsTotal();
    SortSorts(LessOrEqual, d.ChildKeys(c, i));
    assert d.ChildKeys(c, i) == KeysAt(d.lib, branches, i);
    SortedAscends(keys);
  }

  lemma SortedAscends(keys: seq<Key>)
    requires SortedBy(LessOrEqual, keys)
    ensures Ascending(keys)
  {
    forall j, k | 0 <= j < k < |keys| ensures keys[j] == keys[k] || Precedes(ByteBelow, keys[j], keys[k]) {
      assert LessOrEqual(keys[j], keys[k]);
      CompareFlips(keys[j], keys[k]);
      CompareIsAscending(keys[j], keys[k]);
    }
  }

  /** In single-address mode every change and index give the one address. */
  lemma OneAddress(d: AddressDeriver, c: nat, i: nat)
    requires c < 2 && d.singleAddress != ""
    ensures d.Derive(c, i) == Address(NotApplicable, d.singleAddress, d.network, 0, 0)
  {
  }

  /** The loop of the multisig derivation: append one child key, then sort all so far. */
  method MultiSigSegwitDerive(d: AddressDeriver, change: nat, addrIndex: nat) returns (addr: string)
    ensures addr == d.MultiSigSegwitDerive(change, addrIndex)
  {
    var pubKeysBytes: seq<Key> := [];
    KeyOrderIsTotal();
    for i := 0 to |d.xpubs|
      invariant SortedBy(LessOrEqual, pubKeysBytes)
      invariant multiset(pubKeysBytes) == multiset(d.ChildKeys(change, addrIndex)[..i])
    {
      var key := d.lib.child(d.xpubs[i], change);
      key := d.lib.child(key, addrIndex);
      var pubKeyBytes := d.lib.publicKey(key);
      assert d.ChildKeys(change, addrIndex)[..i + 1] == d.ChildKeys(change, addrIndex)[..i] + [pubKeyBytes];
      pubKeysBytes := pubKeysBytes + [pubKeyBytes];
      SortSorts(LessOrEqual, pubKeysBytes);
      pubKeysBytes := Sort(LessOrEqual, pubKeysBytes);
    }
    var keys := d.ChildKeys(change, addrIndex);
    assert keys[..|d.xpubs|] == keys;
    SortOfSorted(LessOrEqual, pubKeysBytes);
    SortCanonical(LessOrEqual, pubKeysBytes, keys);
    addr := d.lib.multiSigAddress(pubKeysBytes, d.m, d.network);
  }

  lemma {:induction false} ChildKeysPermute(d: AddressDeriver, e: AddressDeriver, change: nat, addrIndex: nat)
    requires d.lib == e.lib && multiset(d.xpubs) == multiset(e.xpubs)
    ensures multiset(d.ChildKeys(change, addrIndex)) == multiset(e.ChildKeys(change, addrIndex))
    decreases |d.xpubs|
  {
    var a, b := d.xpubs, e.xpubs;
    assert |multiset(a)| == |a| && |multiset(b)| == |b|;
    if a == [] {
      assert b == [];
    } else {
      assert a[0] in multiset(b);
      var j :| 0 <= j < |b| && b[j] == a[0];
      RemoveXpub(d, 0, change, addrIndex);
      RemoveXpub(e, j, change, addrIndex);
      ChildKeysPermute(Without(d, 0), Without(e, j), change, addrIndex);
    }
  }

  ghost function Without(d: AddressDeriver, j: nat): AddressDeriver
    requires j < |d.xpubs|
  {
    d.(xpubs := d.xpubs[..j] + d.xpubs[j + 1..])
  }

  lemma RemoveXpub(d: AddressDeriver, j: nat, change: nat, addrIndex: nat)
    requires j < |d.xpubs|
    ensures multiset(Without(d, j).xpubs) == multiset(d.xpubs) - multiset{d.xpubs[j]}
    ensures multiset(d.ChildKeys(change, addrIndex))
         == multiset(Without(d, j).ChildKeys(change, addrIndex))
            + multiset{d.lib.publicKey(d.ChildKey(j, change, addrIndex))}
  {
    var rest, keys := Without(d, j), d.ChildKeys(change, addrIndex);
    assert d.xpubs == d.xpubs[..j] + [d.xpubs[j]] + d.xpubs[j + 1..];
    assert keys == keys[..j] + [keys[j]] + keys[j + 1..];
    assert rest.ChildKeys(change, addrIndex) == keys[..j] + keys[j + 1..];
  }

  /** The key order of BIP 67's Specification section: cosigners who list the same extended keys in
      different orders derive the same address at every change and index. */
  lemma XpubOrderIrrelevant(d: AddressDeriver, xpubs: seq<string>, change: nat, addrIndex: nat)
    requires change < 2 && multiset(xpubs) == multiset(d.xpubs)
    ensures d.(xpubs := xpubs).Derive(change, addrIndex) == d.Derive(change, addrIndex)
  {
    var e := d.(xpubs := xpubs);
    assert |multiset(xpubs)| == |xpubs| && |multiset(d.xpubs)| == |d.xpubs|;
    if |xpubs| == 1 {
      assert xpubs[0] in multiset(d.xpubs);
      assert xpubs == d.xpubs;
    } else {
      ChildKeysPermute(e, d, change, addrIndex);
      KeyOrderIsTotal();
      SortCanonical(LessOrEqual, e.ChildKeys(change, addrIndex), d.ChildKeys(change, addrIndex));
    }
  }
}
