# Index, mempool view and subscriptions of an Electrum server, in Dafny

This project models the core of a light-client Electrum server: a confirmed script-hash index with an
undo journal, a graph of pending transactions kept beside it, and the subscriptions through which
clients follow both. It states what these parts promise and proves it.

* **Confirmed index** (`Confirmed`, `Reorg`, `Chronicle`, `Shares`, `Limits`). A connected block is
  flattened into the items the indexer meets in order (transaction, input, output), so a connect is one fold
  over six coupled structures and a disconnect is the journal replayed in reverse. Undo is described by an
  exact formula. Whole runs of connects and disconnects refine a plain ledger, and `Chronicle` reads the
  index off the transactions of the surviving chain alone: every output record with its height, every
  unspent entry, and every history entry of a payment or a known spend.
* **Pending pool** (`Pending`, `Notify`, `Queries`, `Fees`, `Accounts`). Descendants are paths in the
  spend graph; the worklists of the code compute them. The script hashes that a change returns are proved to
  include every script hash whose pending entries change, and no others than those that a removed or added
  transaction touches. Balances, listings and the fee histogram obey accounting laws.
* **What clients are told** (`Effects`, `Answers`, `Listings`). History, mempool, balance, fee, status and
  listing answers in terms of the chain, the pending transactions and the transaction hash, independently
  of the functions that compute them.
* **Text and bytes** (`Codecs`, `Status`). The fixed-width encoders with their decoders, and the text
  that is hashed into a status.
* **The indexer as a whole** (`Model`, `Restart`, `Lifetimes`, `Store`, `Indexer`, `Progress`). `Model.State` joins
  index, raw transactions, pool and the stored pending list under arbitrary events. `Store` and
  `Indexer` are the mutable classes; each of their methods is proved against the value-level model, and
  `Progress` holds the facts about partly finished loops. `Restart` compares a state with the one that
  is rebuilt from its store, and `Lifetimes` treats runs with any number of stops.
* **Fan-out and subscriptions** (`Fanout`, `Electrum`, `Statuses`, `Announce`, `Subscriptions`, `Wire`, `Waiting`, `Convergence`,
  `Overlooked`, `Overtaken`, `Stale`). Lock-protected broadcast, the block source with its cache, the state
  of one connection, and a state machine of a server on any store it has opened, in which the indexer, the
  broadcasters and both threads of any number of connections interleave freely. Between any two reads, and
  between recording a status and writing the line for it, everything else may happen. A client may take a
  block event at any time, so waits that are cut off are part of it.

`Chain` holds the shared types, `Sorting` and `Sums` the sorting and summation lemmas.

## Modelling choices

A `Txid` is the 256-bit number shown by its displayed string, so string order is number order. A `Naming`
stands for the transaction hash: equal txids have equal inputs and outputs, while witnesses (the weight)
may differ. Sled trees are maps and sets, the store does not fail, and HashMap iteration is a choice of
any remaining element. SHA-256 is an uninterpreted function. Amounts are `u64` with the code's saturating
arithmetic, and the unconfirmed delta wraps as an `i64`. The methods of a class return sets where the
code returns a vector made from a set.

## Where the code differs from the obvious claim

The model follows the code. In these places an expected law fails, and the project says exactly when it
holds or gives an input on which it fails.

* Spends are recognised from `outputs`, which keeps spent outputs. Undo is exact if and only if the tip
  was the block's parent and every known prevout was live (`Confirmed.ExactUndo`). Otherwise a spent
  output comes back to life, as in the run of `Limits.DeadSpendExample`.
* For the same reason an input files a history entry for a known output even when that output is already
  spent. Every filed spend is of an output on the ledger just before it if and only if no output is spent
  twice (`Chronicle.LiveExactly`).
* Journal numbering restarts at 0 on each connect. Connecting at a height that has records makes a reload
  lose some; a reload gives back the recorded heights if and only if the height was free
  (`Limits.ReloadsAfterConnect`).
* `restore_pending_transaction` is documented for reverted transactions, but a disconnect deletes the raw
  transactions, so nothing is left to restore (`Limits.DisconnectedNotRestorable`).
* If the restore comes before the disconnect, the transaction stays pending without its raw transaction
  and is lost at the next reopening (`Restart.RestoredThenLost`, `Limits.RestoredRunLoses`). After any
  stack-ordered run a reopening restores the state if and only if every pending transaction is unconfirmed
  and stored as it is pending (`Restart.RestartExact`). The lost txid stays in the stored list, so a later
  stop can bring the transaction back beside a conflicting one (`Lifetimes.LostReturns`); the exact
  conditions over whole lifetimes are `Lifetimes.LifetimeListed` and `Lifetimes.LifetimeNoDoubleSpend`.
* Conflict detection skips direct parents but not the transaction itself. Tracking keeps the pool free of
  double spends if and only if no surviving direct parent shares a prevout with the new transaction
  (`Pending.TrackNoDoubleSpend`, `Pending.SharedWithParentDoubleSpends`). Tracking a pending transaction
  again drops its descendants: the pool stays whole if and only if the transaction spends nothing or no
  other pending transaction spends it (`Pending.RetrackHarmless`, and `Pending.RetrackKeepsPool` for pools
  with double spends).
* The status text contains each pending transaction twice, once through the history and once through the
  mempool answer. It still determines both lists (`Status.PreimageInjective`), but nothing here claims
  conformance with the status definition of Electrum Protocol 1.4.
* The unconfirmed delta subtracts outputs that pending transactions both create and spend although they
  were never added; `Queries.BalanceAccounting` carries that term explicitly.
* A client that connects after a block event was broadcast, and subscribes before the indexer has handled
  it, is never told of that block (`Stale.EarlySubscriberStale`). With any number of unhandled events, its
  status is current after catching up if and only if those events leave the answers as they were
  (`Overlooked.EarlySubscriber`).
* The wait for the indexer compares tip heights. On a stack-ordered log above height 0 that is right for a
  client that is not ahead of the indexer (`Convergence.LooksAndIsHandled`); for any other the comparison
  passes too early if and only if the unhandled events shorten the chain before a block or lengthen it before
  a disconnect (`Waiting.ReadyUnhandled`). When events arrive out of order even a client that connected in
  time and waited for every event can end up stale (`Overlooked.HastySubscriber`), as in the run of
  `Stale.UnorderedStale`, where a second block arrives before the disconnect of the first.
* A status is recorded under the state lock and its line is written after the lock is released, by one
  thread for responses and by another for notifications. A newer notification can be written before an
  older response, and the client is left with the older status although all queues are empty and the
  record is current (`Overtaken.ReplyOvertaken`). When both threads hold a line for a script hash, the
  order of writing alone decides (`Overtaken.CrossedOrders`). Otherwise the last line written is the record.
* A client that connected when the indexer had caught up, and whose own waits were never cut off while the
  event was unhandled, has a current record once everything is drained, whatever other clients do; and the
  last line it got is current too, unless its own two threads crossed over that script hash
  (`Convergence.PunctualConverged`).

## Model

| member | source | states |
|---|---|---|
| Confirmed.StepSound | src/indexer.rs:643-735 | connecting one input or output, in any situation, keeps every unspent entry backed by an output record with the same script hash and value |
| Confirmed.UndoAllSound | src/indexer.rs:747-788 | replaying any journal entries in reverse keeps that coupling too |
| Confirmed.StepsApplied | src/indexer.rs:618-737 | what a connect at a height without records has written: consecutive journal keys matching the in-memory actions, the history keys those actions name, cached entries of that height only, the outputs created and the known outputs spent |
| Confirmed.UndoAllUtxos | src/indexer.rs:747-788 | an entry whose output the journal entries did not create is unspent after replaying them if and only if it was before or its spend is among them |
| Confirmed.UndoFormula | src/indexer.rs:618-801 | connect then disconnect restores every tree and cache, except that each known prevout of the block is live afterwards and the tip is the parent height |
| Confirmed.ExactUndo | src/indexer.rs:743-801 | connect then disconnect is the identity if and only if the tip was the parent and every known prevout was live (in-block spends allowed) |
| Reorg.AlwaysSound | src/indexer.rs:618-801 | over every sequence of connects and disconnects, however ordered, each unspent entry has an output record with the same script hash and value |
| Reorg.StepsMatch | src/indexer.rs:638-737 | the unspent tree follows the created-minus-spent ledger item by item |
| Reorg.ChainIndexed | src/indexer.rs:638-737 | for every valid chain the unspent tree equals the ledger of the chain and nothing is recorded above its tip |
| Reorg.DisconnectLast | src/indexer.rs:745-801 | disconnecting the last block of a valid chain gives back the index of the chain before it |
| Reorg.ReorgRefinement | src/indexer.rs:618-801 | after any stack-ordered run the index (outputs, unspent, stored and cached history, journal, by-height lists) equals that of freshly indexing the surviving chain, and the tip is the last surviving height |
| Chronicle.ChainChronicled | src/indexer.rs:618-737 | for every valid chain, read off its transactions: an output record exists, with its script hash, value and block height, if and only if a transaction creates it; an unspent entry if and only if no later transaction spends it; a stored history key if and only if an output pays the script hash at that index, or the input at that index spends what an earlier transaction paid it |
| Chronicle.RunChronicled | src/indexer.rs:618-801 | the same for the surviving chain after any stack-ordered run, and the cached history of each script hash holds each entry once for each such key |
| Chronicle.LedgerMeaning | src/indexer.rs:638-737 | the created-minus-spent ledger is what transactions of the chain create and no later one spends |
| Chronicle.LiveExactly | src/indexer.rs:643-673 | every filed spend is of an output on the ledger just before its input, if and only if no output is spent twice |
| Chronicle.ChainOnce | src/indexer.rs:643-673 | in a valid chain none is if no block spends one twice |
| Chronicle.RunLive | src/indexer.rs:643-664 | so after any stack-ordered run of such blocks, a spend is filed under a script hash if and only if its prevout is on the ledger just before it under that script hash |
| Shares.ShareTotal | src/store.rs:237-245 | the per-script sum of unspent values is the script's share of the ledger |
| Shares.RecordHeights | src/indexer.rs:706-707 | after any stack-ordered run each output record has the height of the surviving block that has its transaction |
| Shares.ScriptShare | src/store.rs:237-268 | after any stack-ordered run balance (saturating) and unspent listing of a script hash are exactly its share of the surviving chain's ledger, each entry at the height of the block of that chain with its transaction, and every listed outpoint has its record |
| Limits.ReloadsAfterConnect | src/indexer.rs:618-632 | after connecting a block the journal reloads to the recorded by-height lists if and only if the height had no records |
| Limits.DeadSpendRevived | src/indexer.rs:774-786 | undoing a block makes each known output it spends live again, also one spent long before |
| Limits.DeadSpendInexact | src/indexer.rs:643-673 | on the index of any valid chain, undoing a block that spends what the chain has already spent brings a dead output back |
| Limits.DeadSpendExample | src/indexer.rs:643-673 | a run of three blocks and a disconnect after which a spent output is unspent again |
| Limits.MinedAreBlock | src/indexer.rs:620-637 | at a free height the journal's mined txids are those of the block |
| Limits.DisconnectedNotRestorable | src/indexer.rs:745-752 | after a disconnect no transaction of the block is pending, stored or restorable |
| Limits.RestoredRunLoses | src/indexer.rs:745-752 | in any run, restoring a transaction of the last block before its disconnect leaves it pending without its raw transaction, and every reopening loses it |
| Limits.UndoneState | src/indexer.rs:618-801 | connect then disconnect on the whole state: the index is back, and pool, stored list and raw transactions have lost exactly the block's txids |
| Pending.CacheAgrees | src/indexer.rs:559-572 | with the derived cache up to date, cached lookup equals direct lookup in the pool for every outpoint |
| Pending.DescendantsClosed | src/indexer.rs:324-339 | the transactions reachable by spending contain every pending spender of one of them |
| Pending.DescendantsLeast | src/indexer.rs:307-340 | and are the least such set with the root, so nothing else is removed |
| Pending.EvictLeavesNoOrphan | src/indexer.rs:307-348 | no survivor of a chain eviction spends a removed transaction |
| Pending.EvictAllChains | src/indexer.rs:281-283 | evicting the conflicts one by one removes the union of their chains, whatever the order |
| Pending.TrackNoDoubleSpend | src/indexer.rs:276-290 | tracking keeps the pool free of double spends if and only if no surviving direct parent shares a prevout |
| Pending.TrackMeaning | src/indexer.rs:276-290 | tracking files the transaction and loses exactly those reached by a path of spenders from a transaction, not a direct parent, that shares a prevout |
| Pending.SharedWithParentDoubleSpends | src/indexer.rs:496-519 | a child that spends its parent's own input: the pool then holds a double spend |
| Pending.RetrackKeepsPool | src/indexer.rs:276-290 | tracking a pending transaction again keeps the whole pool if and only if nothing else conflicts with it and, if it conflicts with itself, no other pending transaction spends it |
| Pending.RetrackDropsDescendants | src/indexer.rs:505-518 | tracking a pending transaction again evicts its descendants |
| Pending.RetrackHarmless | src/indexer.rs:505-518 | in a pool without double spends that is: if and only if it spends nothing or no other pending transaction spends it |
| Notify.ChainComplete | src/indexer.rs:307-348 | a chain eviction announces every script hash whose pending entries it changes |
| Notify.EvictComplete | src/indexer.rs:281-283 | so does a sequence of chain evictions |
| Notify.ChainAffectedExact | src/indexer.rs:307-348 | a chain eviction announces nothing but what the removed transactions touch |
| Notify.EvictAffectedExact | src/indexer.rs:281-283 | nor does a sequence of them, whatever the order |
| Notify.InsertComplete | src/indexer.rs:284-289 | adding a transaction announces every script hash whose entries change, also when a stored output becomes shadowed by a pending one |
| Notify.TrackComplete | src/indexer.rs:276-290 | tracking with replacement announces every script hash whose (txid, height) entries change, whatever the order of evictions |
| Notify.StaleCacheUnseen | src/indexer.rs:1140-1145 | the walk that runs before the cache is rebuilt sees what it would see afterwards |
| Notify.ForgetComplete | src/indexer.rs:1138-1147 | forgetting one transaction announces every script hash whose entries change, including those of children that now resolve differently |
| Effects.TouchingMeaning | src/indexer.rs:523-539 | a pending transaction concerns a script hash if and only if it pays it, or an input of it spends a stored or pending output of it |
| Effects.MoversTouch | src/indexer.rs:580-613 | every transaction behind the unconfirmed balance of a script hash, spending or paying, is in its history and mempool answers |
| Effects.EvictedAnnounced | src/indexer.rs:462-473 | a script hash is announced for evicted chains if and only if a removed transaction pays it or spends a known output of it |
| Effects.TrackAnnounced | src/indexer.rs:276-290 | and for tracking if and only if a displaced transaction did, or the new one or a pending descendant does |
| Effects.BalancesQuiet | src/indexer.rs:276-360 | a pending change announces every script hash whose unconfirmed balance, spendable confirmed outputs or listing it changes |
| Queries.HistoryDetermined | src/indexer.rs:805-816 | the history answer depends only on the multiset of confirmed entries and the set of pending ones (heights below the largest u32) |
| Answers.HistoryMeaning | src/indexer.rs:805-816 | after any stack-ordered run the history answer holds exactly the payments and known spends of the surviving chain and the pending transactions that pay or spend from the script hash, each as often as it occurs |
| Answers.HistoryOrder | src/indexer.rs:808-814 | confirmed entries ascend by height, unconfirmed ones follow, and within a height entries ascend by index, then txid |
| Queries.MempoolDetermined | src/indexer.rs:397-434 | the mempool answer is determined by the pool and the stored outputs |
| Answers.MempoolMeaning | src/indexer.rs:397-434 | the mempool answer lists, once each and by txid, exactly the pending transactions that pay or spend from the script hash, with height -1 if and only if a non-null prevout is not a stored output, and with that fee |
| Queries.SpentFromSplit | src/indexer.rs:586-604 | what pending transactions spend from a script hash is, disjointly, unspent confirmed outputs and outputs chained in the pool |
| Queries.ListingTotal | src/indexer.rs:1188-1200 | the unspent listing totals the unspent confirmed outputs and the unclaimed pending ones, and deduplication drops nothing |
| Listings.DedupOrder | src/indexer.rs:1197-1198 | sorting and deduplicating leaves entries by height, txid and output index, none of an outpoint next to another, and for each entry one of its outpoint at most as high |
| Listings.ListingMeaning | src/indexer.rs:1188-1200 | after any stack-ordered run the listing is in that order and holds only confirmed outputs, at their block's height, that nothing confirmed or pending spends, and pending outputs that no pending transaction spends; each of these, if pending and stored outputs are disjoint, and otherwise an entry of its outpoint |
| Queries.BalanceAccounting | src/indexer.rs:580-613 | total of the listing = confirmed balance + unconfirmed delta + value chained inside the pool |
| Answers.DeltaMeaning | src/indexer.rs:580-613 | the unconfirmed balance, with no bound on amounts: what pending transactions pay the script hash and none spends, less the known outputs of it that they spend, valued by the transactions that created them, wrapped to 64 bits |
| Accounts.ChainMined | src/indexer.rs:620-637 | the journal of a valid chain's index has every transaction of the chain as mined |
| Accounts.RunDisjoint | src/indexer.rs:618-623 | after a stack-ordered run, a pool apart from the journal's txids has none of the stored outputs |
| Accounts.RunSpendsUnspent | src/indexer.rs:643-673 | after any stack-ordered run, stored outputs that the pool spends are live if and only if they are on the surviving chain's ledger |
| Accounts.RunAccounting | src/indexer.rs:580-613 | the accounting law after any stack-ordered run whose pool is apart from the journal and spends only ledger outputs |
| Accounts.TimelyAccounting | src/indexer.rs:580-613 | for runs in which no confirmed transaction is tracked or restored and no pending one is stored again with another witness, the first of these premises is not needed |
| Queries.FlatAccounting | src/indexer.rs:580-613 | without chains in the pool the listing and the two balances agree exactly |
| Fees.RowsGroup | src/indexer.rs:904-912 | rows with strictly decreasing rates regroup the per-transaction sums |
| Fees.HistogramBrackets | src/indexer.rs:863-914 | the histogram brackets the fees: sum of rate * vsize <= total eligible fee < sum of (rate + 1) * vsize |
| Answers.FeeMeaning | src/indexer.rs:406-431 | the fee, in saturating arithmetic: what the transactions behind the distinct known prevouts paid into them, less the outputs |
| Answers.KnownFee | src/indexer.rs:883-884 | with all prevouts known and totals in 64 bits it is exactly inputs less outputs, or 0 |
| Answers.EligibleMeaning | src/indexer.rs:870-903 | a transaction is in the histogram if and only if all its prevouts are known and four times its fee is at least its weight |
| Codecs.FromToBytes | src/store.rs:335-340 | big-endian fixed-width numbers read back |
| Codecs.ToFromBytes | src/store.rs:342-370 | and every byte string of the width is the encoding of its number |
| Codecs.OrderKept | src/store.rs:335-340 | byte order of fixed-width encodings is numeric order |
| Codecs.NumberOrder | src/store.rs:237-249 | keys of equal length are ordered as the numbers they spell |
| Codecs.PrecedesFirstDifference | src/store.rs:228-235 | the recursive byte order is the lexicographic one, decided at the first difference |
| Codecs.OutputRoundTrip | src/store.rs:342-370 | output records decode to what was encoded; exactly the 44-byte strings decode, and re-encode to themselves |
| Codecs.OutPointRoundTrip | src/indexer.rs:976-996 | the same for 36-byte outpoints |
| Codecs.UtxoPrefix | src/store.rs:239-249 | a prefix scan by script hash meets exactly that script's keys |
| Codecs.UtxoKeyRoundTrip | src/store.rs:251-256 | the scan reads each outpoint back from its key |
| Codecs.HistoryKeyRoundTrip | src/store.rs:372-415 | history keys decode to script hash, height, txid and sequence; exactly the 73-byte strings decode |
| Codecs.HistoryKeyInjective | src/store.rs:372-386 | different history keys have different encodings |
| Codecs.JournalRoundTrip | src/store.rs:417-446 | every journal record with 32-bit numbers decodes to its key and action |
| Codecs.JournalOrder | src/store.rs:335-340 | byte order of journal keys is (height, sequence) order |
| Codecs.TxidsRoundTrip | src/store.rs:448-468 | the pending list decodes to what was encoded |
| Codecs.ChunksRoundTrip | src/store.rs:456-468 | every list of whole 32-byte chunks re-encodes to itself |
| Status.EntryInjective | src/electrum_server.rs:909-920 | the first "txid:height:" entry and the rest can be read back from the text |
| Status.TextInjective | src/electrum_server.rs:908-920 | the concatenated text determines the entries |
| Status.ReadText | src/electrum_server.rs:908-920 | a reader that knows only hexadecimal and decimal digits, minus signs and colons gets the entries back from the text |
| Status.SameSize | src/electrum_server.rs:891-895 | a script hash has as many pending history entries as mempool entries |
| Status.PendingTwice | src/electrum_server.rs:903-920 | a txid occurs in the text as often as among the confirmed entries, and exactly twice more if it is a pending one of the script hash |
| Status.HistorySplit | src/indexer.rs:805-816 | the history answer is the sorted confirmed entries followed by the pending ones |
| Status.PreimageInjective | src/electrum_server.rs:891-923 | the status text determines the confirmed list and the pending (txid, height) list |
| Status.PreimageDetermined | src/electrum_server.rs:891-923 | the status text does not depend on iteration or insertion order |
| Answers.StatusRead | src/electrum_server.rs:891-923 | a status is the digest of a text from which that reader gets the history pairs followed by the mempool pairs |
| Answers.StatusPresence | src/electrum_server.rs:903-906 | after any stack-ordered run there is no status if and only if nothing in the surviving chain or the pool pays or spends from the script hash |
| Model.RunIndex | src/indexer.rs:276-360 | pending events, however interleaved, leave the confirmed index to the block events |
| Model.NeverDoubleSpent | src/indexer.rs:276-300 | over every run without a stop in which no tracked transaction shares a prevout with a surviving direct parent, no two pending transactions spend one output |
| Model.AlwaysListed | src/indexer.rs:276-300 | over every run without a stop, however ordered, the stored list names exactly the pending transactions |
| Model.AlwaysSettled | src/indexer.rs:213-226 | over every run in which no confirmed transaction is tracked or restored and no pending one is stored again with another witness, pool and journal have no txid in common, and stored list and raw transactions back the pool |
| Model.TimelyExact | src/indexer.rs:276-300 | one event keeps that if and only if it is none of these |
| Model.SettledThroughout | src/indexer.rs:276-300 | so a run keeps it throughout if and only if none of its events is |
| Restart.StepsAgree | src/indexer.rs:643-707 | a block of distinct transactions on top of the recorded heights keeps each cached history entry in one-to-one correspondence with the stored keys |
| Restart.ChainAgrees | src/indexer.rs:158-207 | for every valid chain the stored journal and history keys agree with the in-memory lists |
| Restart.JournalReloads | src/indexer.rs:176-207 | sorting the reloaded records by sequence gives back the recorded order |
| Restart.HistoryReloads | src/indexer.rs:158-170 | a reloaded history holds the same entries |
| Restart.PoolReloads | src/indexer.rs:213-226 | the pool survives a reopening if and only if every pending transaction is unconfirmed and stored as it is pending |
| Restart.RestartExact | src/indexer.rs:139-226 | reopening after any stack-ordered run restores by-height lists, tip, pool and store, and the history up to the order of entries, if and only if every pending transaction is unconfirmed and stored as it is pending |
| Restart.RestartRestores | src/indexer.rs:139-226 | so it does in particular when no confirmed transaction is tracked and no pending one is stored again with another witness |
| Restart.RestoredThenLost | src/indexer.rs:745-752 | a transaction restored before its disconnect stays pending and is lost at the next reopening |
| Lifetimes.RestartsUnseen | src/indexer.rs:139-226 | a lifetime whose restarts all find an intact pool ends like the run of its events without them |
| Lifetimes.RestartsKeepIndex | src/indexer.rs:139-226 | whatever the stops of a lifetime lose of the pool, its confirmed index is that of the run without them, up to the order of cached entries |
| Lifetimes.LifetimeCovered | src/indexer.rs:213-226 | over every lifetime the stored list names at least the pending transactions |
| Lifetimes.LifetimeListed | src/indexer.rs:213-226 | it names exactly them throughout if and only if each stop finds everything listed unconfirmed and stored |
| Lifetimes.HonestExact | src/indexer.rs:276-300 | one event keeps the pool free of double spends if and only if it tracks nothing that shares a prevout with a surviving direct parent |
| Lifetimes.ListedClear | src/indexer.rs:213-226 | a stop cannot bring a double spend back while the list names only pending transactions |
| Lifetimes.LifetimeNoDoubleSpend | src/indexer.rs:213-226 | over every lifetime no pool holds a double spend if and only if every event is such and no stop finds two listed, loadable transactions that share a prevout |
| Lifetimes.LostReturns | src/indexer.rs:213-226 | a transaction that a stop lost comes back beside a conflicting one at the next stop, once it is stored again |
| Restart.NextSimilar | src/indexer.rs:618-801 | every event keeps two such states alike |
| Restart.LaterRunsSame | src/indexer.rs:618-801 | so every later run is the same with and without a restart |
| Restart.SimilarAnswers | src/indexer.rs:805-816 | and every history, mempool answer and status text is the same |
| Store.PersistentIndex.constructor | src/store.rs:76-106 | a new store has empty trees and tip 0 |
| Store.PersistentIndex.SetTipHeight | src/store.rs:108-112 | the tip is recorded |
| Store.PersistentIndex.StoreTx | src/store.rs:124-128 | a raw transaction is filed under its txid |
| Store.PersistentIndex.DeleteTx | src/store.rs:138-141 | and removed |
| Store.PersistentIndex.StorePendingTxid | src/store.rs:143-151 | the pending list gains the txid once |
| Store.PersistentIndex.DeletePendingTxid | src/store.rs:153-159 | the pending list loses the txid and keeps its order |
| Store.PersistentIndex.StoreOutput | src/store.rs:168-189 | an output is written to both trees |
| Store.PersistentIndex.DeleteOutput | src/store.rs:198-201 | only the output record goes |
| Store.PersistentIndex.DeleteUtxo | src/store.rs:203-206 | only the unspent entry goes |
| Store.PersistentIndex.StoreJournalAction | src/store.rs:208-221 | a journal record is written and its key returned |
| Store.PersistentIndex.DeleteJournalKey | src/store.rs:223-226 | and removed |
| Store.PersistentIndex.StoreHistoryEntry | src/store.rs:270-281 | a history key is written and returned |
| Store.PersistentIndex.DeleteHistoryKey | src/store.rs:283-286 | and removed |
| Store.PersistentIndex.BalanceForScript | src/store.rs:237-245 | the scan returns the sum of the script's unspent values, saturating |
| Store.PersistentIndex.ListUnspentForScript | src/store.rs:247-268 | the scan lists the script's unspent entries with their heights in the byte order of their keys, and fails if and only if one has no output record |
| Indexer.IndexState.Open | src/indexer.rs:139-155 | opening rebuilds every cache from the trees |
| Indexer.ReopenedFromStore | src/indexer.rs:139-155 | what a store can be reopened to depends on its trees and not on the caches of the state that wrote them |
| Indexer.IndexState.LoadHistory | src/indexer.rs:158-170 | the cache holds each stored key's entry once |
| Indexer.IndexState.LoadJournal | src/indexer.rs:176-207 | each height lists its records once, sorted, and the mined txids are returned |
| Indexer.IndexState.SortHeights | src/indexer.rs:203-205 | sorting each height by sequence keeps its records |
| Indexer.IndexState.LoadPending | src/indexer.rs:213-226 | the pool is the listed txids that are unconfirmed and still stored |
| Indexer.IndexState.PendingSpentOutpoints | src/indexer.rs:934-945 | the outpoints spent by pending transactions |
| Indexer.IndexState.RebuildPendingView | src/indexer.rs:235-269 | the cache is exactly the pool's outputs that no pending transaction spends |
| Indexer.IndexState.TouchedScripts | src/indexer.rs:462-473 | the script hashes a transaction pays to or resolvably spends from |
| Indexer.IndexState.QueueSpenders | src/indexer.rs:475-485 | the unvisited pending spenders of a txid are queued |
| Indexer.IndexState.AffectedScripts | src/indexer.rs:441-489 | the worklist visits exactly the descendants and terminates despite duplicates |
| Indexer.IndexState.ForgetInternal | src/indexer.rs:296-300 | one txid leaves pool and stored list, the cache is up to date again |
| Indexer.IndexState.ForgetChainInternal | src/indexer.rs:307-348 | exactly the root and its transitive pending spenders are removed, and what they touch is returned |
| Indexer.IndexState.RemoveAll | src/indexer.rs:342-345 | the collected txids leave pool and stored list |
| Indexer.IndexState.EvictConflicts | src/indexer.rs:281-283 | the chains of all conflicts are evicted in some order |
| Indexer.IndexState.TrackInternal | src/indexer.rs:276-290 | tracking makes the model's step and returns what it announces |
| Indexer.IndexState.Restore | src/indexer.rs:355-360 | restoring tracks the stored transaction, or returns None if there is none |
| Indexer.IndexState.Forget | src/indexer.rs:1138-1147 | forgetting a pending transaction, None if it is not pending |
| Indexer.IndexState.ForgetChain | src/indexer.rs:1155-1162 | forgetting a chain, None if the root is not pending |
| Indexer.IndexState.Record | src/indexer.rs:624-637 | one undo record goes to the journal and to the by-height list under one key |
| Indexer.IndexState.RecordHistory | src/indexer.rs:645-664 | one history entry goes to cache, tree and journal |
| Indexer.IndexState.ConnectInput | src/indexer.rs:638-689 | an input makes the model's step |
| Indexer.IndexState.ConnectOutput | src/indexer.rs:690-736 | an output makes the model's step |
| Indexer.IndexState.ConnectInputs | src/indexer.rs:638-689 | the loop over inputs makes the model's steps in order |
| Indexer.IndexState.ConnectOutputs | src/indexer.rs:690-736 | the loop over outputs makes the model's steps in order |
| Indexer.IndexState.ConnectTx | src/indexer.rs:624-736 | one transaction of a block makes the model's steps |
| Indexer.IndexState.ApplyBlock | src/indexer.rs:618-741 | connecting a block makes the model's step on index, raw transactions, pool and list |
| Indexer.IndexState.UndoAction | src/indexer.rs:748-788 | one journal entry is undone |
| Indexer.IndexState.UndoEntries | src/indexer.rs:747-789 | the entries of a height are undone in reverse |
| Indexer.IndexState.DropEntries | src/indexer.rs:790-793 | the cached entries of a height and emptied lists go |
| Indexer.IndexState.RollbackHeight | src/indexer.rs:745-801 | disconnecting makes the model's step |
| Indexer.IndexState.TouchesScript | src/indexer.rs:523-539 | whether a pending transaction touches a script hash |
| Indexer.IndexState.PendingHistory | src/indexer.rs:367-381 | one height-0 entry for each pending transaction that touches the script hash |
| Indexer.IndexState.GetHistory | src/indexer.rs:805-816 | a sorted listing of confirmed and pending entries |
| Indexer.IndexState.InputsOf | src/indexer.rs:406-422 | saturating value of the distinct prevouts, and whether all are stored or known |
| Indexer.IndexState.OutputsTotal | src/indexer.rs:423-425 | saturating value of the outputs |
| Indexer.IndexState.Mempool | src/indexer.rs:397-434 | the sorted mempool entries with height and fee |
| Indexer.IndexState.SpentDelta | src/indexer.rs:586-604 | the delta after the spends, each prevout once, in wrapping arithmetic |
| Indexer.IndexState.UnconfirmedDelta | src/indexer.rs:580-613 | the unconfirmed delta of a script hash |
| Indexer.IndexState.PendingUnspentOf | src/indexer.rs:917-928 | the unspent pending outputs of a script hash |
| Indexer.IndexState.ListUnspent | src/indexer.rs:1188-1200 | the combined listing without outputs spent in the pool, sorted and deduplicated; fails only on a missing record |
| Indexer.IndexState.FeeRate | src/indexer.rs:870-903 | whether a transaction counts, and its floor rate |
| Indexer.IndexState.FeeHistogram | src/indexer.rs:863-914 | strictly decreasing rates, one row for each rate of an eligible transaction, each row the vsize of its members |
| Indexer.IndexState.RowsOf | src/indexer.rs:908-912 | the buckets sorted by decreasing rate |
| Fanout.Bus.constructor | src/electrum_server.rs:64-67 | a bus without subscribers |
| Fanout.Bus.Subscribe | src/nakamoto_source.rs:316-323 | a new subscriber is added last, with nothing delivered |
| Fanout.Bus.Broadcast | src/nakamoto_source.rs:73-77 | the event goes to every live subscriber and the dead ones are dropped |
| Fanout.DeliveredToLive | src/nakamoto_source.rs:73-77 | a broadcast keeps every live subscriber and only those, each with the event appended |
| Fanout.DeliveredOrdered | src/nakamoto_source.rs:73-77 | after a broadcast everyone has received exactly what was sent since it subscribed |
| Fanout.LaterIsSuffix | src/nakamoto_source.rs:71-77 | a later subscriber's stream is a suffix of an earlier one's |
| Fanout.SourceOrdered | src/nakamoto_source.rs:201-300 | over every interleaving of subscribers and both threads: one event order, and every announced block is already answerable by hash |
| Fanout.SubscribersAgree | src/nakamoto_source.rs:316-353 | what two subscribers see of any run |
| Electrum.ComputeStatusHash | src/electrum_server.rs:903-923 | None without entries, else the digest of history and mempool entries in order |
| Electrum.ScriptStatus | src/electrum_server.rs:891-895 | the status returned is current for the index |
| Electrum.ApplyTxStatusKind | src/electrum_server.rs:121-139 | a confirmation removes the one transaction, a replacement its chain, a reversal tracks the stored transaction, anything else changes nothing; and exactly what the change announces is broadcast |
| Electrum.ClassifiedByPrefix | src/electrum_server.rs:142-154 | the status prefixes exclude each other, so each kind is decided by its own test alone |
| Electrum.StatusMeaning | src/electrum_server.rs:121-154 | by the text alone: "included" removes one transaction, "replaced" it and every pending transaction that a path of spenders reaches, so that no survivor spends a removed one, "reverted" puts the stored transaction in place of what it displaces, and no other text does anything |
| Electrum.ApplyTxStatusChange | src/electrum_server.rs:93-101 | a malformed txid changes nothing; any other event leaves the pool as its text says, keeps the confirmed index, and broadcasts exactly what it announces |
| Electrum.TransactionBroadcast | src/electrum_server.rs:757-770 | an accepted transaction is stored, pending and announced, a rejected one changes nothing |
| Electrum.ClientState.constructor | src/electrum_server.rs:329-336 | a new connection has no subscriptions |
| Electrum.ClientState.ScripthashSubscribe | src/electrum_server.rs:705-720 | the script hash is subscribed once and its recorded status is current |
| Electrum.ClientState.Notify | src/electrum_server.rs:382-400 | the selected subscriptions get current statuses, all others keep theirs, and exactly the moved ones are returned for writing, in order |
| Electrum.ChangesMeaning | src/electrum_server.rs:382-400 | what is sent is the new status of each subscription whose status moved, and nothing else, in the order of the subscriptions |
| Statuses.MempoolPairsNow | src/electrum_server.rs:915-920 | the mempool answer lists exactly the entries that changes are announced for |
| Statuses.CurrentUnique | src/electrum_server.rs:891-923 | there is one current status (heights below the largest u32) |
| Announce.NextConsistent | src/indexer.rs:276-360 | every event keeps stored outputs, raw and pending transactions consistent with their txids |
| Announce.PendingQuiet | src/indexer.rs:276-360 | a pending change leaves every script hash it does not announce with the same answers |
| Subscriptions.IndexServed | src/indexer.rs:1024-1057 | handling a block event leaves every subscription served or covered by that event in the client's queue |
| Subscriptions.ChangeServed | src/electrum_server.rs:121-139 | so does a pending change, with its announced set still to be broadcast |
| Subscriptions.BroadcastServed | src/electrum_server.rs:82-85 | so does the broadcast that moves the set into every client's queue |
| Subscriptions.SubscribeServed | src/electrum_server.rs:705-720 | so does a subscription, which takes the state lock |
| Subscriptions.WaitServed | src/electrum_server.rs:943-962 | so does a wait that ends because the event looks handled |
| Subscriptions.TakeBlockServed | src/electrum_server.rs:366-385 | so does taking a block event, handled or not |
| Subscriptions.TakeChangeServed | src/electrum_server.rs:440-452 | so does taking an announced set |
| Subscriptions.ReadHistoryServed | src/electrum_server.rs:891-892 | so does the first read of a status |
| Subscriptions.ReadMempoolServed | src/electrum_server.rs:893-895 | so does the second, after which the status is recorded, although the index may have moved in between |
| Subscriptions.LookedUpWritten | src/electrum_server.rs:394-398 | recording a status leaves every record written, or in the one unwritten line for it, unless the threads have crossed |
| Subscriptions.WroteReply | src/electrum_server.rs:492-506 | so does writing a response after the lock is released |
| Subscriptions.WroteNote | src/electrum_server.rs:428-437 | so does writing a notification |
| Wire.NoteForTail | src/electrum_server.rs:428-437 | the last notification for a script hash among the unwritten ones stays the last while they are written in order |
| Wire.AnsweredInStep | src/electrum_server.rs:715-719 | a newly recorded response is the one line for its script hash, or the threads have crossed |
| Wire.NotedInStep | src/electrum_server.rs:394-398 | so is a newly recorded notification |
| Subscriptions.AlwaysServed | src/electrum_server.rs:339-510 | in every run on any opened store, each subscribed script hash that was not read too early is recorded as it is or covered by a queued message or unfinished loop, and each record is written, in its one unwritten line, or crossed |
| Subscriptions.Converged | src/electrum_server.rs:339-510 | in every run on any opened store, waits cut off or not, once drained every subscription that was not read too early has a current record, and the last line written for it is current unless the threads have crossed over it |
| Waiting.ReadyTooEarly | src/electrum_server.rs:943-962 | in a stack-ordered run, with exactly the earlier events handled, the tip comparison lets an event through if and only if it is a block at height 0 on an empty chain |
| Waiting.ReadyUnhandled | src/electrum_server.rs:943-962 | with any number of earlier events unhandled, a block gets through if and only if they shorten the chain, a disconnect if and only if they lengthen it |
| Waiting.ReadyHandled | src/electrum_server.rs:943-962 | so, above height 0, an event gets through only once it is handled, for a client whose earlier events are handled |
| Convergence.RanSteady | src/electrum_server.rs:354-382 | in every run, a client that connected when the indexer had caught up and took block events only once handled has never read too early |
| Convergence.PatientConverged | src/electrum_server.rs:339-510 | in every run, once drained, the record of such a client is current, and the last line written for a subscription too unless its threads have crossed over it, whatever other clients do |
| Convergence.RanFollows | src/indexer.rs:1024-1057 | in every run the index is what the handled block events make of the one that was opened |
| Convergence.TipFollows | src/indexer.rs:738-799 | the tip after further events depends only on the tip before them, so the events before a restart count |
| Convergence.LooksAndIsHandled | src/electrum_server.rs:943-962 | when the block events before and since the opening are in stack order above height 0, an event that looks handled to a client not ahead of the indexer is handled |
| Convergence.RanCareful | src/electrum_server.rs:366-382 | so a client that connected in time and waited until events looked handled took each only once handled |
| Convergence.PunctualConverged | src/electrum_server.rs:339-510 | in every run with block events in stack order above height 0, once drained, a client that connected in time and had no wait cut off while the event was unhandled has a current record, and a current last line for each subscription over which its threads have not crossed |
| Convergence.ReopenedServer | src/indexer.rs:139-155 | every store that a run leaves can be opened to a server to which these results apply, with the run's events as those before |
| Convergence.InternalCloser | src/electrum_server.rs:364-480 | without new input every move decreases a lexicographic measure |
| Convergence.NotStuck | src/electrum_server.rs:364-480 | and some move is possible until everything is drained |
| Convergence.Drains | src/electrum_server.rs:364-480 | from any point of any run, indexing, broadcasting, notifying and writing alone can drain everything, at no cost to any client's promptness or patience and without crossing any threads |
| Convergence.PatientCatchUp | src/electrum_server.rs:364-480 | so from any point of any run a prompt and patient client can get a current record without new input, and a current last line for every subscription over which its threads have not crossed |
| Overlooked.StillCurrent | src/electrum_server.rs:891-923 | when the texts of two states do not collide, a status is also current in another state if and only if confirmed pairs and pending entries are the same there |
| Overlooked.RanUntold | src/electrum_server.rs:364-480 | while nothing queued names a script hash, a client keeps its status of it through every internal move, and the index only handles logged events |
| Overlooked.UntoldCurrent | src/electrum_server.rs:364-480 | and is current once drained if and only if the events unhandled before left the answers as they were |
| Overlooked.EarlySubscriber | src/electrum_server.rs:354-355 | in any run with any number of unhandled block events: a client that connects and subscribes now is current once drained if and only if those events leave the answers as they are, provided no announcement in flight names the script hash |
| Overlooked.RanPassing | src/electrum_server.rs:384-399 | a pass of the loop that nothing interrupts makes every subscription current |
| Overlooked.HastySubscriber | src/electrum_server.rs:943-962 | when a client with emptied queues takes a new event too early because it looks handled, each of its subscriptions that nothing in flight names is current once drained if and only if the unhandled events leave the answers as they are |
| Stale.EarlySubscriberStale | src/electrum_server.rs:354-355 | a drained run with a stale record and a stale last line of a client that connected too early |
| Stale.UnorderedStale | src/electrum_server.rs:943-962 | a drained run in which a second block arrives before the disconnect of the first, and a client that connected in time and waited for every event is stale |
| Overtaken.CrossedOrders | src/electrum_server.rs:492-506 | when both threads of a connection have a line for a script hash to write, the order of writing alone decides which status the client is left with |
| Overtaken.ReplyOvertaken | src/electrum_server.rs:492-506 | a drained run in which a prompt and patient client with a current record is left with an older response |

## Left out

- TCP, JSON-RPC parsing, thread spawning and shutdown: I/O.
- Wall-clock time: that `wait_for_indexer_tip` gives up after two seconds is modelled as a client that may take a block event at any moment. Whether a wait was cut off while its event was unhandled is recorded and is a premise of `Convergence.PunctualConverged`; such a client can be stale until the next event.
- Header subscriptions, `estimatefee`, `relayfee`, block headers, metrics and configuration: small, or about wall-clock and floating point.
- Sled errors, retries and crash atomicity: the trees are not written in one transaction, so a crash inside a connect has no clean law. The store of the model does not fail, so the error branches that only pass a store error on are absent; the missing-output error is modelled.
- SHA-256, script hashing, consensus encoding and the conversion between `bitcoin` crate versions: uninterpreted.
- 32-bit overflow of journal sequence, output index and height, and u64 overflow of a histogram row: the numbers are unbounded; the codecs state the width they need.
- Reloading reads records as decoded values; the kind byte of a history key is dropped by the decoder and by the cache, as in the code. Record decoding failures on reload are not modelled beyond `Codecs`.
- The receiving end of a channel is modelled by the stream of what was sent and by a client's queue, not by a shared object.
- Answers of `get_balance`, `tip_height`, `get_transaction` and `has_history` beyond what the methods above state: single lookups.
- Pending double spends of a confirmed transaction stay in the pool, as in the code; when the pool spends only live outputs is stated by `Accounts.RunSpendsUnspent`.
- Restart.RestartRestores: a corollary with premises on the run; the exact condition is `Restart.RestartExact`.
- Lifetimes.RestartsUnseen: needs an intact pool at each restart, which by `Restart.RestartExact` is what a restart preserves; `Lifetimes.RestartsKeepIndex` needs nothing of the kind.
- Model.AlwaysListed: speaks of runs without a stop, as `Model.NeverDoubleSpent` does; `Lifetimes` has the exact conditions with stops.
- Model.NeverDoubleSpent: needs its premise about direct parents; the exact condition for one event is `Lifetimes.HonestExact`.
- Queries.BalanceAccounting: needs totals below 2^63, disjoint pending and confirmed txids, and live known prevouts; `Accounts` derives or restates the last two over runs.
- Chronicle.RunLive: needs blocks that spend no output twice, as consensus demands; the exact condition is `Chronicle.LiveExactly`, and `Chronicle.RunChronicled` has no such premise.
- Answers.KnownFee: needs known prevouts and totals in 64 bits; `Answers.FeeMeaning` has no such premise.
- Listings.ListingMeaning: that every such output is itself listed needs stored and pending outputs to be disjoint; otherwise deduplication can keep another entry of its outpoint.
- Convergence.PunctualConverged: needs stack-ordered events and a first block above height 0; `Stale.UnorderedStale` shows why. `Subscriptions.Converged` and `Convergence.PatientConverged` have no such premise. What it says about the last line needs uncrossed threads; `Overtaken.ReplyOvertaken` shows why.
- Overlooked.StillCurrent: needs that the status texts of the two states do not collide, and confirmed heights above 0 and below the largest u32.
- Failed writes to a connection and its closing by the peer: a client of the model leaves as a whole.
