# Beancounter, verified

A Dafny model of Beancounter, the command line tool that audits the balance of a Bitcoin wallet at a
block height, with proofs about its three cores and about how they compose.

* **The accounter** fetches the history of a wallet with two goroutines and decides from four counters
  when everything has been fetched; then it filters, credits and debits what it fetched.
  `Fetching` is the protocol as a step system in which every shared access is a step of its own:
  the sender's limit snapshot, its counter, its send and its index; the receiver's critical sections;
  answers in any order. `FetchingSafety`, `FetchingResults` and `FetchingProgress` prove what every step
  keeps, that stopping is sound and exact, that the outcome does not depend on the schedule, and that
  fetching ends. `Ledger` and `Bookkeeping` are the tally, as a specification and as loops over shared
  slices. `Chain` replays a block chain, and `Audit` proves the tally equal to the value of the
  unspent outputs. `Accounter` is the class itself, its methods the atomic steps.
* **The block finder** (`Medians`, `BlockFinder`) searches over medians of 11 block times. The order
  statistic behind it, that the medians never decrease under the consensus rule for block times, is
  proved, and with it the exact chain heights at which the search is right; `BlockFinder` models the
  search in `uint32` arithmetic for every height, with its panic, its waits and its endless loops.
* **The backends.** `Workers` is what the Electrum and Btcd backends share: workers who hold requests,
  channels that deliver in any order, and a proof that no request is lost or answered twice and that
  the accounter over such a backend runs the fetch protocol. `Electrum`, `ElectrumRuns` and
  `ElectrumBackend` are the pool of nodes that fail and requeue, with its height cache, and `ElectrumFailures`
  what a failure is; `Btcd`, `BtcdRuns`, `BtcdTables` and `BtcdBackend` the two memo tables under concurrent
  workers. `Recorder`, `RecorderRuns`,
  `RecorderBackend`, `Replay` and `FixtureBackend` are the pair that records an audit and replays it, and
  `SearchReplay` what a recorded search for a block needs. `ElectrumProgress`, `BtcdProgress`,
  `RecorderProgress` and `ReplayProgress` prove that fetching over each of them ends, with what they share
  in `Schedules`, `WorkersProgress`, `WorkersAnswers` and `FetchingSteps`. `BackendAudits` composes each
  with the accounter and the ledger.
* **The deriver** (`Deriver`) sorts multisig keys, so that the order of the extended keys is irrelevant.
  `Wallet` defines the limits that address discovery has to reach.

`Basics`, `Sums` and `Sorting` hold machine arithmetic, sums over maps and multisets, and sorting.
`dafny verify dfyconfig.toml` checks everything.

## How to read it

A `World` fixes what is outside: derivation, the script of an address, the history of an address, the
height and bytes of a transaction. A `Run` is a sequence of enabled steps, so a statement about every
run holds for every interleaving and every order of answers. Channels are unbounded multisets. Go's
`uint32` and `int64` arithmetic is written out (`Add32`, `Sub32`, `Wrap64`).

`Bounded(top)` is the assumption under which the 32-bit sums of the accounter are exact: there are
closed limits below 2^31 (for example when every used index plus the lookahead is, `NoWrapSuffices`) and
fewer than 2^32 history entries below them. That the sums never wrap is then proved.

Pure code is modelled by functions, code that changes state by classes and methods. A class method of
the backends and the accounter is one atomic step and is proved equal to the step of the machine whose
runs the lemmas are about; a loop around such steps is proved to keep what its contract says, under any
scheduling; any other loop is proved against its specification.

A `Schedule` is an infinite sequence of steps that stands still once the run is over. It is `Patient` if
only finitely many of its steps are idle: polls, failing calls of a Btcd node, new workers, the fixture taking
back its own responses, and what the block finder does. Termination is proved for every patient schedule, from two facts
about every reachable state: some step that is not idle is enabled, and every such step lowers a
well-founded measure.

## What was found

* The limits that discovery reaches leave lookahead - 1 unused addresses after the last used one, one
  fewer than "Address gap limit" in BIP 44 asks for (`Wallet.GapLimit`).
* The first of the tests in `complete()` is redundant (`FetchingResults.DerivedTestIsRedundant`).
* `Search` gives the block asked for on every valid chain exactly from chain height 21 on
  (`BlockFinder.SearchExactly`, for heights below 2^31). Below 15 it asks for blocks above the tip and at 15
  it waits for answers to requests that it never sent (`BlockFinder.TooLowToBegin`). At heights 16 to 20 the
  bounds are crossed in unsigned arithmetic: the search panics on a valid chain unless two medians are equal,
  and then, for a target below them, it does not end (`BlockFinder.CrossedExactly`).
  The midpoint is between its bounds exactly when their sum stays below 2^32 (`BlockFinder.MidpointWraps`).
* The running balance may wrap on the way, without harm to the result (`Audit.BalanceIsUtxoValue`); whether one
  of the two sanity checks fires does not depend on map order (`Ledger.OrderIrrelevant`).
* All `spentBy` pointers point to one loop variable under Go before 1.22; only whether the pointer is nil matters
  to the result (`Bookkeeping.HashVar`).
* The Btcd backend panics on a transaction that is not in a block, because `getBlockHeight` has no answer for
  it, unless an earlier one of the same history is cached already (`BtcdBackend.BtcdBackend.CacheTxs`). A wallet
  can make the program panic without a failing call exactly when some address that has to be asked for has
  such a transaction or more than 1000 of them (`BtcdProgress.PanicsExactly`).
* The fixture drops a request for a transaction that it does not have, which would leave the accounter waiting.
  After a complete recording it never has to (`Replay.LookupsHit`), if different addresses have different
  address strings, and so every replay ends (`ReplayProgress.ReplayEnds`).
* Written and loaded maps are equal exactly when each key matches its entry (`Recorder.WriteThenLoad`).

## Model

| member | source | states |
|---|---|---|
| `Accounter.Accounter.constructor` | accounter/accounter.go:75-88 | A new accounter over an empty backend is in the protocol's initial state: both limits at the lookahead, counters zero, maps empty |
| `Accounter.Accounter.CheckComplete` | accounter/accounter.go:319-330 | The test is a function of the limits and the four counters alone, with a 32-bit sum |
| `Accounter.Accounter.SendWork` | accounter/accounter.go:222-240 | Each step of the sender loop is the protocol's: stale limit snapshot, count before send, send, advance |
| `Accounter.Accounter.SelectAddr` | accounter/accounter.go:246-247 | Receiving takes one address response off the channel, whichever is there |
| `Accounter.Accounter.SelectTx` | accounter/accounter.go:280 | Receiving takes one transaction response off the channel, whichever is there |
| `Accounter.Accounter.SelectTick` | accounter/accounter.go:300-303 | The tick returns exactly when the counters say complete, and else changes nothing |
| `Accounter.Accounter.HandleAddr` | accounter/accounter.go:255-279 | Count, store, one request per hash that is not stored yet, and a raised limit if there are transactions, as separate steps |
| `Accounter.Accounter.HandleTx` | accounter/accounter.go:289-299 | Count and store of a transaction response |
| `Accounter.Accounter.Step` | accounter/accounter.go:103-112 | Whichever goroutine is scheduled takes an enabled step of the protocol; only idle polling uses up the scheduler's patience |
| `Accounter.Accounter.FetchTransactions` | accounter/accounter.go:103-112 | Under any interleaving that ends, recvWork returns with everything fetched and nothing under way; the loop terminates |
| `Accounter.Accounter.Tally` | accounter/accounter.go:94-98 | Filter, parse and balance end in an outcome that the ledger of the fetched transactions allows |
| `Accounter.Accounter.ComputeBalance` | accounter/accounter.go:90-99 | The whole audit: for every valid chain that the backend serves, the result is the value of the outputs unspent at the block height that pay the discovered scripts |
| `FetchingSafety.InitInv` | accounter/accounter.go:75-88 | The invariant holds initially |
| `FetchingSafety.SendKeepsSender` | accounter/accounter.go:222-240 | The sender never passes its snapshot, a snapshot never passes the limit, and the derived count is exact |
| `FetchingSafety.RaiseStep` | accounter/accounter.go:275-279 | Raising a limit never goes above what any closed limits allow, never lowers it, and the 32-bit sum does not wrap |
| `FetchingSafety.AddrKeepsAddrCount` | accounter/accounter.go:255-257 | Addresses sent are exactly those queued, answered, in hand or counted as processed |
| `FetchingSafety.AddrKeepsTxCount` | accounter/accounter.go:264-271 | Transactions counted as seen are exactly those queued, answered, in hand or processed |
| `FetchingSafety.AddrKeepsSeen` | accounter/accounter.go:264-271 | No more transactions are asked for than the histories of the addresses sent have entries |
| `FetchingSafety.RestKeepsHonest` | accounter/accounter.go:242-306 | Everything under way or stored is the world's answer for an address that was sent |
| `FetchingSafety.AddrKeepsCoverage` | accounter/accounter.go:247-279 | Handling an address response loses nothing: each address sent is still under way, or stored with all its hashes covered and its limit raised |
| `FetchingSafety.StepKeepsInv` | accounter/accounter.go:222-330 | Every step of every goroutine keeps the whole invariant |
| `FetchingResults.CompleteExactly` | accounter/accounter.go:316-330 | The four sums are right: complete holds in the receiver's select if and only if nothing is under way and the sender has reached both limits |
| `FetchingResults.DerivedTestIsRedundant` | accounter/accounter.go:319-330 | In every reachable state the test of the derived addresses follows from that of the processed ones |
| `FetchingResults.CompleteIsSettled` | accounter/accounter.go:316-330 | At that point every address below the limits and every hash of their histories is stored, nothing else is, and the limits are the least closed ones |
| `FetchingResults.SettledIsFinal` | accounter/accounter.go:222-306 | From then on no address can be derived and nothing stored changes |
| `FetchingResults.StoppingIsSound` | accounter/accounter.go:242-330 | The same for every schedule from the start, also after recvWork has returned |
| `FetchingResults.ReadLimitStaysRight` | accounter/accounter.go:308-314 | What the sender reads as a limit stays a lower bound of the limit for good, and is never above the limits that the wallet's history calls for |
| `FetchingResults.StoredIsNotAskedFor` | accounter/accounter.go:264-271 | Along every schedule, a transaction that is stored is never asked for again |
| `FetchingResults.ChainsInTurn` | accounter/accounter.go:216-240 | Along every schedule, no change address is derived before the first lookahead receive addresses |
| `FetchingResults.ScheduleIndependence` | accounter/accounter.go:222-306 | Two schedules that both return end with the same limits, scripts and transactions, and with the same path and history for each script if no two addresses share one |
| `FetchingResults.FinalLimits` | accounter/accounter.go:216-221 | The final limit of each chain is the least L >= lookahead with i + lookahead <= L for each used i < L; in single-address mode it is the lookahead |
| `FetchingProgress.EveryStepProgresses` | accounter/accounter.go:222-306 | Every step except idle polling lowers a lexicographic rank of the remaining work; polling changes only the sender's position |
| `FetchingProgress.NeverStuck` | accounter/accounter.go:242-306 | Until recvWork returns some productive step is enabled; at the end it is the tick |
| `FetchingProgress.FetchingEnds` | accounter/accounter.go:222-306 | Both hold in every state that any schedule reaches |
| `Wallet.NoWrapSuffices` | accounter/accounter.go:277 | If each used index plus the lookahead is below 2^31, closed limits below 2^31 exist |
| `Wallet.LimitsPerChain` | accounter/accounter.go:216-221 | For an HD wallet the two chains are independent |
| `Wallet.GapLimit` | accounter/accounter.go:216-221 | Behind the last used index lie exactly lookahead - 1 unused ones that were checked |
| `Wallet.SingleAddressLimits` | deriver/address_deriver.go:101-110 | With one address for all indices the least closed limits are the lookahead |
| `Bookkeeping.Table.constructor` | accounter/accounter.go:293-299 | The table starts with the fetched transactions, no inputs and empty output slices |
| `Bookkeeping.Table.Filter` | accounter/accounter.go:115-126 | Keeps exactly the transactions with 0 < height <= block height |
| `Bookkeeping.Table.Append` | accounter/accounter.go:150-159 | A new slice with every output, marked ours if its script belongs to a fetched address |
| `Bookkeeping.Table.ParseOne` | accounter/accounter.go:133-163 | Rewrites one entry into a slice of its own, or leaves it empty if it does not parse; no two entries share a slice with outputs |
| `Bookkeeping.Table.ParseNext` | accounter/accounter.go:133-163 | One more entry is entered, and the others are as they were |
| `Bookkeeping.Table.Parse` | accounter/accounter.go:133-163 | Every entry is parsed, in any map order, and no two share a slice with outputs |
| `Bookkeeping.Table.ProcessTransactions` | accounter/accounter.go:114-164 | The table holds the book of the fetched transactions, with nothing marked spent |
| `Bookkeeping.Table.AddCredits` | accounter/accounter.go:174-180 | In any map order the credits are the sum of our outputs, as an int64 |
| `Bookkeeping.Table.Mark` | accounter/accounter.go:192-205 | A mark set through a copied transaction is seen in the map, and nowhere else, because the slice is shared |
| `Bookkeeping.Table.DebitInputs` | accounter/accounter.go:191-207 | The running balance is the sum of our outputs not marked yet; a panic happens only for a bad index or a second spender |
| `Bookkeeping.Table.SubtractDebits` | accounter/accounter.go:190-208 | In any map order the loop ends with the sum of our unspent outputs, marks exactly on our spent ones, or a rightful panic |
| `Bookkeeping.Table.Balance` | accounter/accounter.go:166-214 | balance() ends in an outcome that the book allows, and if it returns, spentBy is set exactly on our spent outputs |
| `Bookkeeping.DebitVisit` | accounter/accounter.go:191-207 | What one more input means: a panic for a bad index, a panic for a marked output, or one more debit |
| `Ledger.MarkedTwice` | accounter/accounter.go:201-204 | A marked output that is met again is named by two inputs |
| `Ledger.DebitEnd` | accounter/accounter.go:190-208 | When every input was visited without a panic, there is no bad index and no double spend, and the marks are our spent outputs |
| `Ledger.OrderIrrelevant` | accounter/accounter.go:174-208 | Two map orders either both return the same amount or both panic |
| `Ledger.RunningBalanceInRange` | accounter/accounter.go:167-213 | With non-negative values whose sum is an int64, the running balance never wraps and never goes below zero |
| `Ledger.PanicsExactly` | accounter/accounter.go:196-212 | With such values balance() panics exactly on a bad index or a double spend, never for a negative balance, and otherwise returns our unspent sum |
| `Ledger.PendingIsIgnored` | accounter/accounter.go:115-126 | A transaction that is not mined, or is mined above the block height, has no part in the book |
| `Ledger.UnparsedIsFatal` | accounter/accounter.go:135-146 | A transaction that does not parse stays without outputs, so an input that names one of them is a panic |
| `Ledger.OverflowPanics` | accounter/accounter.go:209-213 | An unspent sum from 2^63 to below 2^64 is the panic for a negative balance, not a wrong result |
| `Chain.ReplayBlocks` | README.md:99-107 | Replaying a chain block by block gives what replaying its transactions one by one gives |
| `Chain.ReplayExplained` | README.md:99-107 | In a valid chain the unspent outputs are those created and not spent, only what exists is spent, and only once |
| `Audit.NoPanics` | accounter/accounter.go:196-204 | A complete book of a valid chain has no bad index and no double spend |
| `Audit.UnspentIsUtxo` | accounter/accounter.go:166-214 | The outputs that the ledger finds unspent are the chain's unspent outputs that pay us |
| `Audit.BalanceIsUtxoValue` | accounter/accounter.go:166-214 | balance() returns their value, if that value is an int64 |
| `Audit.LedgerIsUtxo` | accounter/accounter.go:114-214 | The same for the ledger of everything fetched from a world that serves the chain, whatever else the histories list that is not mined or mined later |
| `Audit.EndToEnd` | accounter/accounter.go:90-213 | From the first step to the balance, for every schedule and every valid chain |
| `Deriver.CompareFlips` | deriver/address_deriver.go:197-209 | Lexicographic byte comparison is antisymmetric, and zero only for equal keys |
| `Deriver.CompareTransitive` | deriver/address_deriver.go:197-209 | It is transitive |
| `Deriver.KeyOrderIsTotal` | deriver/address_deriver.go:197-209 | Less gives a total order on keys, as the sort package requires |
| `Deriver.CompareIsAscending` | deriver/address_deriver.go:197-209 | The order is the ascending one: -1 exactly if the first byte that differs is smaller, or the first key is a proper prefix |
| `Deriver.OneBranchPerChain` | deriver/address_deriver.go:101-135 | With one extended key each chain has one branch key, the child at the chain's number, and each address is that of one further child at its index, with its path, change and index |
| `Deriver.BranchesPerChain` | deriver/address_deriver.go:101-188 | With several, each chain has one branch key per cosigner, and each address is that of the public keys of all branches' children at its index, in ascending order |
| `Deriver.OneAddress` | deriver/address_deriver.go:101-110 | In single-address mode every derivation is the one address with change and index 0 |
| `Deriver.MultiSigSegwitDerive` | deriver/address_deriver.go:140-188 | Sorting after each append leaves the unique sorted arrangement of all child keys |
| `Deriver.XpubOrderIrrelevant` | deriver/address_deriver.go:101-188 | Any permutation of the extended keys derives the same address at every change and index (Specification section of BIP 67) |
| `Sorting.SortCanonical` | deriver/address_deriver.go:214-218 | The outcome of sorting by a total order depends only on the elements |
| `Medians.MedianOfArrivals` | blockfinder/blockfinder.go:84-90 | The median does not depend on the order in which responses arrive |
| `Medians.SlideKeepsMedian` | blockfinder/blockfinder.go:73-79 | Replacing the oldest of 11 times by one above their median cannot lower the median |
| `Medians.MediansMonotone` | blockfinder/blockfinder.go:73-79 | If every block's time exceeds the median of the 11 before it, later windows never have lower medians, over any distance |
| `BlockFinder.MedianOfAnswers` | blockfinder/blockfinder.go:84-90 | Eleven answers in any order have the median of the heights asked for |
| `BlockFinder.Blockfinder.RequestRange` | blockfinder/blockfinder.go:81-83 | Each height of the window is asked for once, up to a block that is not there |
| `BlockFinder.Blockfinder.ReceiveWindow` | blockfinder/blockfinder.go:84-90 | Eleven answers in any order give the median of exactly the heights h-5 to h+5, and none is left behind |
| `BlockFinder.Blockfinder.SearchSync` | blockfinder/blockfinder.go:80-91 | For every uint32 height: the window's median after 11 requests, or the way in which it fails, by a missing block, by waiting, or by asking for ever |
| `BlockFinder.Blockfinder.Open` | blockfinder/blockfinder.go:32-37 | The two end windows, and the guard over their unsigned difference |
| `BlockFinder.Blockfinder.Halve` | blockfinder/blockfinder.go:39-60 | One round is one step of the search machine: the panic, the block found, or the half that is kept |
| `BlockFinder.Blockfinder.BlockTime` | blockfinder/blockfinder.go:62-63 | The last request gives the time of the block found |
| `BlockFinder.Blockfinder.Search` | blockfinder/blockfinder.go:29-69 | On every chain below 2^32, the method is the search machine after any number of rounds, asks for exactly its heights, and for no more than 23 + 11 rounds of them |
| `BlockFinder.CeilLog2Bounds` | blockfinder/blockfinder.go:39-40 | The bound is the base-2 logarithm, rounded up |
| `BlockFinder.MedianOfMonotone` | blockfinder/blockfinder.go:45-47 | Under the consensus rule the medians of a chain never decrease |
| `BlockFinder.SearchCorrect` | blockfinder/blockfinder.go:29-68 | From chain height 21 on, under that rule, the search ends within as many rounds as halvings of the distance, the panic is unreachable, a target between the end medians is bracketed by the height found and the next, one below gives the lowest height, one above the height before the last |
| `BlockFinder.SearchExactly` | blockfinder/blockfinder.go:29-68 | For chain heights below 2^31: every valid chain and every target give the block asked for if and only if the height is at least 21 |
| `BlockFinder.AskedInRange` | blockfinder/blockfinder.go:32-62 | It asks only for heights 5 to chainHeight - 6 |
| `BlockFinder.TooLowToBegin` | blockfinder/blockfinder.go:32-37 | Below height 15 a window asks for a missing block; at 15 the second window sends nothing and waits |
| `BlockFinder.CrossedExactly` | blockfinder/blockfinder.go:36-60 | At heights 16 to 20 on a valid chain: the panic, unless the two end medians are equal; then at that median or above it a block is returned, and below it the loop never ends |
| `BlockFinder.SearchReplays` | backend/fixture_backend.go:179-189 | A search over recorded blocks, if they cover its windows, goes through the same states and asks for the same heights |
| `SearchReplay.SearchIsReplayed` | backend/fixture_backend.go:179-189 | If the blocks of a search came back in a recorded run, the same search over the fixture loaded from its file goes through the same states, and no run that asks for its blocks panics for a missing one |
| `BlockFinder.MidpointWraps` | blockfinder/blockfinder.go:40 | The probe lies between the bounds exactly when their sum does not wrap |
| `Workers.EffectConserves` | backend/electrum_backend.go:295-320 | Taking, requeueing and answering move a request between queue, one worker's hands, and answered, never copying or dropping it |
| `Workers.RunConserves` | backend/backend.go:30-41 | Along every run each request was scheduled exactly as often as it is queued, held, or was answered |
| `Workers.StepRefines` | backend/backend.go:30-41 | A worker's response is one answer of the fetch protocol's backend; no other step of a worker is visible |
| `Workers.RunRefines` | backend/backend.go:30-41 | A run with true responses is a run of the fetch protocol |
| `Workers.FloorFetches` | backend/backend.go:26-41 | When the accounter over such a backend returns, everything is fetched and no request is left in a channel or a worker's hands |
| `Workers.OnlyWalletIsAsked` | accounter/accounter.go:264-271 | Only addresses below closed limits, and transactions of their histories, are ever queued at a backend or in its hands |
| `Electrum.CacheExactly` | backend/electrum_backend.go:440-451 | The cache panics exactly on heights that contradict it or one another; otherwise it keeps what it knew and learns exactly the history |
| `Electrum.PoolIsEffect` | backend/electrum_backend.go:295-438 | Each step of a node's goroutine takes a request, puts it back, answers it, or leaves it in hand |
| `ElectrumRuns.ElectrumConserves` | backend/electrum_backend.go:341-438 | Whatever nodes fail, no address, transaction or block request is lost or answered twice |
| `ElectrumRuns.PoolKeepsCache` | backend/electrum_backend.go:424-451 | Each step keeps every hash that can still be asked for in the cache |
| `ElectrumRuns.NeverMisses` | backend/electrum_backend.go:364-373 | Whatever the servers answer, getTxHeight never misses |
| `ElectrumRuns.PoolKeepsTruth` | backend/electrum_backend.go:341-451 | With servers that agree, no step panics, and everything cached or held is the world's |
| `ElectrumRuns.ElectrumFetches` | backend/electrum_backend.go:295-451 | With servers that agree no run panics, and when recvWork returns everything is fetched and no request is left |
| `ElectrumFailures.FailureIsFinal` | backend/electrum_backend.go:295-320 | In every run, once its node has failed, a worker takes no further request and its node does not fail again |
| `ElectrumFailures.OneFailureEach` | backend/electrum_backend.go:304-351 | No run has more failures than nodes were connected |
| `ElectrumFailures.PanicsExactly` | backend/electrum_backend.go:364-451 | In every reachable state a step panics if and only if it hears a header that does not parse, or caches heights that contradict the cache or one another |
| `ElectrumProgress.ElectrumCanWork` | backend/electrum_backend.go:295-320 | In every reachable state, unless recvWork has returned or every node has failed, some step other than a poll, a failure or a new node is enabled |
| `ElectrumProgress.ElectrumFalls` | backend/electrum_backend.go:295-438 | Every step except polls, new nodes and the block finder's lowers a well-founded measure of the protocol's rank, the nodes left, the queued requests and those in hand; a failure too |
| `ElectrumProgress.ElectrumEnds` | backend/electrum_backend.go:295-451 | So every schedule with finitely many idle steps ends with everything fetched and each request answered, whichever nodes fail and whenever |
| `ElectrumBackend.ElectrumBackend.CacheTxs` | backend/electrum_backend.go:440-451 | The loop succeeds exactly on consistent heights and leaves the cache of the specification |
| `ElectrumBackend.ElectrumBackend.TakeRequest` | backend/electrum_backend.go:295-319 | A waiting worker takes one queued request of any kind |
| `ElectrumBackend.ElectrumBackend.HearReply` | backend/electrum_backend.go:341-401 | The node's answer or failure is the pool machine's step, with the panic on a bad header |
| `ElectrumBackend.ElectrumBackend.Requeue` | backend/electrum_backend.go:343-352 | A failed request goes back into its own queue and the worker stops |
| `ElectrumBackend.ElectrumBackend.ProceedAddr` | backend/electrum_backend.go:424-437 | Heights are cached before the response is sent; the response lists the hashes in order |
| `ElectrumBackend.ElectrumBackend.ProceedTx` | backend/electrum_backend.go:353-361 | The response carries the cached height |
| `ElectrumBackend.ElectrumBackend.ProceedBlock` | backend/electrum_backend.go:403-408 | The block response is sent |
| `ElectrumBackend.ElectrumBackend.RunWorkers` | backend/electrum_backend.go:295-320 | Whichever worker is scheduled takes an enabled step of the pool machine, whatever its node answers |
| `ElectrumBackend.ElectrumBackend.Serve` | backend/electrum_backend.go:295-438 | At work for any time, with any nodes and any client that asks only for transactions of received histories, the backend never misses its cache, and every request is waiting, in one worker's hands, or was answered once |
| `Btcd.PoolIsEffect` | backend/btcd_backend.go:159-287 | Each step takes a request, answers it, or leaves it in hand, also when the answer comes from a table |
| `BtcdRuns.PoolKeepsTruth` | backend/btcd_backend.go:289-343 | No interleaving of lookups and stores, and no early return of cacheTxs, makes a table or a worker say what the node would not |
| `BtcdTables.KnownForGood` | backend/btcd_backend.go:289-343 | In every interleaving, a block height or transaction in a table is never asked for again, except by a worker that was past its lookup |
| `BtcdTables.AnswersAlone` | backend/btcd_backend.go:183-312 | A worker that handles an address request by itself answers with the whole history if and only if there are at most 1000 transactions and every one outside the known blocks comes after one at which the caching stops |
| `BtcdRuns.BtcdAnswers` | backend/btcd_backend.go:221-257 | Every response of every run is the one that the node's uncached lookup gives, and the world's; a request on which that lookup fails gets none |
| `BtcdRuns.BtcdFetches` | backend/btcd_backend.go:159-257 | When recvWork returns everything is fetched, and each request was answered exactly as often as it was scheduled, with the uncached answer |
| `BtcdRuns.PanicsOnlyOnFailure` | backend/btcd_backend.go:202-204 | If the addresses below any closed limits have at most 1000 transactions each, in known blocks, no interleaving panics unless a call to the node fails |
| `BtcdProgress.BtcdNeverStuck` | backend/btcd_backend.go:159-181 | Before the end and with any worker, some step other than a poll, a failing call or a new worker is enabled |
| `BtcdProgress.BtcdFalls` | backend/btcd_backend.go:159-343 | Every such step lowers a well-founded measure, whatever way through the tables the workers take |
| `BtcdProgress.BtcdEnds` | backend/btcd_backend.go:159-257 | Every schedule with finitely many idle steps ends: with everything fetched, or with a panic |
| `BtcdProgress.BtcdCompletes` | backend/btcd_backend.go:159-257 | With everything fetched, if the wallet is within the limits, no call to the node fails and only existing blocks are asked for |
| `BtcdProgress.PanicsExactly` | backend/btcd_backend.go:202-204 | Some run panics without a failing call if and only if some address below the least closed limits has more than 1000 transactions or one outside the known blocks |
| `BtcdBackend.BtcdBackend.GetBlockHeight` | backend/btcd_backend.go:315-343 | The node's answer, from the table or not, whatever other workers store meanwhile |
| `BtcdBackend.BtcdBackend.CacheTxs` | backend/btcd_backend.go:289-312 | Where the loop stops: at a transaction cached at entry or by another worker, at an unknown block, or at the end; without interference it fails if and only if some unknown block comes before the first transaction cached at entry |
| `BtcdBackend.BtcdBackend.ProcessTxRequest` | backend/btcd_backend.go:221-257 | Returns exactly the uncached answer under any interference |
| `BtcdBackend.BtcdBackend.ProcessAddrRequest` | backend/btcd_backend.go:183-219 | The full history, the empty one for an unused address, and a panic: always above 1000 transactions, never for up to 1000 in known blocks, and without interference exactly at an unknown block that no cached transaction shields |
| `Recorder.WriteToFile` | backend/recorder_backend.go:148-192 | The file lists each recorded entry once, addresses and transactions sorted |
| `Recorder.AtMostIsAscending` | backend/recorder_backend.go:148-192 | The order of the written strings is the ascending one |
| `Recorder.WrittenAscending` | backend/recorder_backend.go:148-192 | Addresses and transactions of a written file ascend |
| `Recorder.LoadFromFile` | backend/fixture_backend.go:191-232 | The maps hold exactly the records' entries under the records' keys |
| `Recorder.WriteThenLoad` | backend/recorder_backend.go:120-192 | Loading what was written gives the recorded maps back if and only if every key matches its entry |
| `RecorderRuns.StepRefines` | backend/recorder_backend.go:108-146 | A response on its way through the recorder is a response under way; storing and passing on are not visible |
| `RecorderRuns.StepKeepsRec` | backend/recorder_backend.go:108-146 | Each step keeps: what is stored is true and keyed, what was passed on is stored, what was asked for is under way or stored |
| `RecorderRuns.RecordedFirst` | backend/recorder_backend.go:115-141 | In every run each response that the accounter or block finder can take, or works on, is in the index as received |
| `RecorderRuns.RecordingIsComplete` | backend/recorder_backend.go:95-146 | When recvWork returns, the index holds the true response for exactly the addresses up to the limits and exactly their transactions |
| `RecorderRuns.ReceivedIsRecorded` | backend/recorder_backend.go:134-141 | Every block that the block finder ever received is recorded, with its time |
| `RecorderProgress.RecordingCanWork` | backend/recorder_backend.go:108-146 | In every reachable state of a recorded run, until recvWork has returned, some step other than a poll is enabled: the recorder holds nothing back |
| `RecorderProgress.RecordingFalls` | backend/recorder_backend.go:108-146 | Every such step lowers a well-founded measure |
| `RecorderProgress.RecordingEnds` | backend/recorder_backend.go:95-146 | Every schedule with finitely many idle steps ends with a complete recording |
| `Replay.SameLimits` | backend/fixture_backend.go:150-164 | The recorded limits are the least closed ones for the fixture, for which an address without an entry was never used |
| `Replay.RepostIsNoOp` | backend/fixture_backend.go:130-141 | Taking a response back and putting it in again leaves the channels as they were |
| `Replay.StepRefines` | backend/fixture_backend.go:123-164 | A lookup is one answer of the fixture's world; taking requests and reposting responses is not visible |
| `Replay.LookupsHit` | backend/fixture_backend.go:166-177 | Whatever the replayed accounter asks for is in the recording, so no request is dropped |
| `Replay.ReplayIsFaithful` | backend/fixture_backend.go:123-232 | A recorded run and a replayed run that have both returned, each under any schedule, have the same limits, scripts and transactions, and the same entries if no two addresses share a script |
| `ReplayProgress.ReplayCanWork` | backend/fixture_backend.go:123-177 | In every reachable state of a replay, until the end, some step other than polling and taking back is enabled: no request of the accounter is dropped |
| `ReplayProgress.ReplayFalls` | backend/fixture_backend.go:123-189 | Every such step lowers a well-founded measure, a panic too |
| `ReplayProgress.PanicsOnlyOnMissing` | backend/fixture_backend.go:179-189 | The fixture panics only if a block is asked for that was not recorded |
| `ReplayProgress.PanicsExactly` | backend/fixture_backend.go:179-189 | A run of the fixture panics if and only if it looks up a block that was not recorded |
| `ReplayProgress.OnlyRecordedIsAnswered` | backend/fixture_backend.go:150-189 | Whatever is asked for, every response is the recorded one or says that an address was not used: a transaction without an entry gets none |
| `ReplayProgress.ReplayEnds` | backend/fixture_backend.go:123-189 | Every schedule of a replay with finitely many idle steps, and with recorded blocks only, ends with everything fetched |
| `ReplayProgress.RecordThenReplay` | backend/fixture_backend.go:123-232 | A recorded run and its replay from the file both end, under any such schedules, with the same result |
| `Replay.SameBalance` | accounter/accounter.go:94-98 | So they return the same balance, or both panic |
| `RecorderBackend.RecorderBackend.Pick` | backend/recorder_backend.go:113-135 | One response of any kind is taken from the backend behind |
| `RecorderBackend.RecorderBackend.Note` | backend/recorder_backend.go:120-140 | The response is stored under its own key |
| `RecorderBackend.RecorderBackend.ProcessRequests` | backend/recorder_backend.go:108-146 | Whatever the backend behind answers and whenever clients take: what was passed on is what is stored, each response is still behind or was passed on once, and whatever was taken had been stored first |
| `RecorderBackend.RecordsLatest` | backend/recorder_backend.go:120-140 | Of the responses with one key the last one is recorded, under its key |
| `RecorderBackend.RecordsAll` | backend/recorder_backend.go:120-140 | Everything passed on is recorded as it was if and only if no two different responses had one key |
| `RecorderBackend.RecorderBackend.Finish` | backend/recorder_backend.go:95-102 | The file holds the recorded maps and the chain height |
| `FixtureBackend.FixtureBackend.constructor` | backend/fixture_backend.go:47-74 | The maps are the ones loaded, nothing is under way |
| `FixtureBackend.FixtureBackend.ProcessAddrRequest` | backend/fixture_backend.go:150-164 | The recorded response, or an unused address |
| `FixtureBackend.FixtureBackend.ProcessTxRequest` | backend/fixture_backend.go:166-177 | The recorded response, or none |
| `FixtureBackend.FixtureBackend.ProcessBlockRequest` | backend/fixture_backend.go:179-189 | The recorded response, or a panic |
| `FixtureBackend.FixtureBackend.Look` | backend/fixture_backend.go:123-189 | The lookup of each kind of request, with the dropped transaction and the panic for a missing block |
| `FixtureBackend.FixtureBackend.Select` | backend/fixture_backend.go:123-148 | One request, or one of its own responses, is taken into hand, and nothing is lost or doubled |
| `FixtureBackend.FixtureBackend.ProcessRequests` | backend/fixture_backend.go:123-189 | For any clients and any time: every request is waiting, in hand, or was looked up once; every response answers one lookup and is waiting, in hand, or was taken once, however often it was taken back; a panic comes only from a missing block |
| `FixtureBackend.AnswersWhatWasPassedOn` | backend/fixture_backend.go:123-232 | A fixture loaded from a recorder's file answers every request with the response that the recorder passed on, if and only if no two different responses had one key |
| `BackendAudits.ElectrumAudits` | accounter/accounter.go:90-213 | Over Electrum servers that agree, whichever of them fail, the balance is the value of our unspent outputs on every chain that they serve |
| `BackendAudits.ElectrumAuditEnds` | accounter/accounter.go:90-213 | And every schedule with finitely many idle steps comes to that balance, whichever nodes fail and whenever |
| `BackendAudits.BtcdAudits` | accounter/accounter.go:90-213 | The same over a Btcd node, in every interleaving of its workers |
| `BackendAudits.BtcdAuditEnds` | accounter/accounter.go:90-213 | And every schedule comes to it if the wallet is within the limits and no call to the node fails |
| `BackendAudits.ReplayAudits` | backend/fixture_backend.go:123-232 | A recorded audit and its replay both end, with the same outcomes of the ledger, and the balance is the value of our unspent outputs |

## Left out

- Transport: TCP, TLS, JSON-RPC, peer discovery, version checks and the map of connected nodes (`addNode`, `removeNode`, `findPeers`, backend/electrum) are I/O without a property that the accounter needs beyond its answers; a failed node is a worker that stops (`ElectrumFailures.FailureIsFinal`).
- Libraries: BIP 32 derivation, hashing, script and address encoding, hex decoding and transaction parsing are deterministic functions; parsing may fail in the ledger and succeeds in the end-to-end statement.
- Files: the JSON bytes and the file handle; the file is the record that is marshalled.
- Finite channels: their capacities, and so the possible deadlock that backend/electrum_backend.go:83-85 mentions, are not modelled; channels are unbounded.
- Time: sleeps and tickers are steps that may happen at any time; what goroutines do after Finish is not part of this model.
- Disagreement: chain reorganisations and servers that change their answers are outside the end-to-end statements. What holds for any answers (`ElectrumRuns.ElectrumConserves`, `ElectrumRuns.NeverMisses`, `Electrum.CacheExactly`) is stated for any.
- Locks: the receiver holds countMu over its whole loop of hashes (accounter/accounter.go:264-271); the model lets the sender run in between, which only adds interleavings.
- The genesis block, whose output cannot be spent, and duplicate transaction identifiers, which valid chains exclude here.
- Reporter, the command line in main.go, and the table lookups and prefix checks in utils.
- Accounter.Accounter.FetchTransactions: covers the schedules with finitely many idle polls; a schedule that only ever polls is excluded by the scheduler's patience, and `FetchingProgress.NeverStuck` says that something else can always be scheduled. The schedules of `ElectrumProgress`, `BtcdProgress`, `RecorderProgress` and `ReplayProgress` are bounded in the same way.
- BlockFinder.SearchExactly: stated for chain heights below 2^31; above, a sum of two bounds can wrap, as `BlockFinder.MidpointWraps` says.
- Replay.ReplayIsFaithful: assumes that different addresses of the wallet have different address strings, which is the key under which they are recorded.
