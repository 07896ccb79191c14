/**
 * Reopening the store: memory is rebuilt from the trees, and after any stack-ordered run the
 * rebuilt state answers and evolves as the one that was lost.
 */
module Restart {
  import opened Chain
  import opened Confirmed
  import opened Reorg
  import opened Model
  import opened Pending
  import opened Sorting
  import opened Queries
  import Status

  // ---- What the loaders rebuild -------------------------------------------------------------

  /** How many stored keys give this entry; the in-memory entry does not keep the kind. */
  function KeyCount(stored: set<HistoryKey>, sh: ScriptHash, e: TxEntry): nat {
    (if HistoryKey(sh, e.height, Fund, e.txid, e.sequence) in stored then 1 else 0)
    + (if HistoryKey(sh, e.height, Spend, e.txid, e.sequence) in stored then 1 else 0)
  }

  /** The cache holds each stored key's entry once, in some order. */
  ghost predicate HistoryAgrees(stored: set<HistoryKey>, history: map<ScriptHash, seq<TxEntry>>) {
    && (forall sh | sh in history :: history[sh] != [])
    && (forall sh, e :: multiset(Get(history, sh))[e] == KeyCount(stored, sh, e))
  }

  function ActionKey(a: BlockAction): Key {
    Key(a.key.sequence, 0, 0)
  }

  predicate IsRecord(journal: map<JournalKey, Payload>, h: nat, a: BlockAction) {
    a.key in journal && a.key.height == h && journal[a.key] == a.payload
  }

  /** Each height lists its journal records once, sorted by sequence. */
  ghost predicate JournalLoaded(journal: map<JournalKey, Payload>, byHeight: map<nat, seq<BlockAction>>) {
    && (forall h | h in byHeight :: byHeight[h] != [])
    && (forall h :: Sorted(Get(byHeight, h), ActionKey))
    && (forall h, a :: multiset(Get(byHeight, h))[a] == if IsRecord(journal, h, a) then 1 else 0)
  }

  function ConfirmedIds(journal: map<JournalKey, Payload>): set<Txid> {
    set k | k in journal && journal[k].TxMined? :: journal[k].txid
  }

  /** Listed transactions that are not confirmed and still have their raw transaction. */
  function PoolLoaded(st: State): Pool {
    map id | id in Elements(st.listed) && id !in ConfirmedIds(st.ix.journal) && id in st.txs :: st.txs[id]
  }

  /** `st'` is a state the store of `st` can be reopened to. */
  ghost predicate Reopened(st: State, st': State) {
    && st' == st.(ix := st.ix.(history := st'.ix.history, byHeight := st'.ix.byHeight), pool := PoolLoaded(st))
    && HistoryAgrees(st.ix.stored, st'.ix.history)
    && JournalLoaded(st.ix.journal, st'.ix.byHeight)
  }

  // ---- Memory and store agree ---------------------------------------------------------------

  /** Record (h, i) of the journal is action i of height h. */
  ghost predicate JournalAgrees(journal: map<JournalKey, Payload>, byHeight: map<nat, seq<BlockAction>>) {
    && (forall k | k in journal ::
          && k.height in byHeight && k.sequence < |byHeight[k.height]|
          && byHeight[k.height][k.sequence] == BlockAction(journal[k], k))
    && (forall h | h in byHeight :: byHeight[h] != [])
    && (forall h, i | h in byHeight && 0 <= i < |byHeight[h]| :: JournalKey(h, i) in journal)
  }

  lemma NextJournalAgrees(ix: Index, h: nat, acts: seq<BlockAction>, byHeight: map<nat, seq<BlockAction>>,
                          journal: map<JournalKey, Payload>, n: nat)
    requires JournalAgrees(ix.journal, ix.byHeight) && h !in ix.byHeight
    requires Journaled(ix, h, acts, byHeight, journal, n)
    ensures JournalAgrees(journal, byHeight)
  {
    forall k | k in journal && k !in ix.journal
      ensures k.height == h && k.sequence < |acts| && acts[k.sequence] == BlockAction(journal[k], k)
    {
      assert k in Keys(acts);
      var a :| a in acts && a.key == k;
    }
    forall i | 0 <= i < |acts| ensures JournalKey(h, i) in journal {
      assert acts[i] in acts && acts[i].key in Keys(acts);
    }
  }

  predicate SameSlot(a: Item, b: Item) {
    ((a.InItem? && b.InItem?) || (a.OutItem? && b.OutItem?)) && a.txid == b.txid && a.index == b.index
  }

  ghost predicate DistinctItems(items: seq<Item>) {
    forall i, j | 0 <= i < j < |items| :: !SameSlot(items[i], items[j])
  }

  lemma TxItemsDistinct(tx: Tx)
    ensures DistinctItems(TxItems(tx))
    ensures forall item | item in TxItems(tx) :: item.txid == tx.txid
  {
    var a, b := InputItems(tx, |tx.inputs|), OutputItems(tx, |tx.outputs|);
    assert TxItems(tx) == [TxItem(tx.txid)] + a + b;
  }

  lemma {:induction false} ItemsDistinct(block: Block)
    requires DistinctTxids(block)
    ensures DistinctItems(Items(block))
  {
    if block != [] {
      hide TxItems;
      var rest, tx := block[..|block| - 1], block[|block| - 1];
      ItemsDistinct(rest);
      TxItemsDistinct(tx);
      ItemTxids(rest);
      var a, b := Items(rest), TxItems(tx);
      forall i, j | 0 <= i < j < |a + b| ensures !SameSlot((a + b)[i], (a + b)[j]) {
        if i < |a| <= j {
          assert a[i] in a && b[j - |a|] in b;
        }
      }
    }
  }

  predicate Files(item: Item, k: HistoryKey) {
    item.txid == k.txid && (if k.kind == Spend then item.InItem? && item.index == k.sequence
                            else item.OutItem? && item.index == k.sequence)
  }

  /** Every key stored by the block so far was made by one of its items. */
  ghost predicate MadeBy(stored: set<HistoryKey>, before: set<HistoryKey>, items: seq<Item>) {
    forall k | k in stored && k !in before :: exists item :: item in items && Files(item, k)
  }

  lemma StepAgrees(ix: Index, h: nat, items: seq<Item>, c: Cursor, item: Item)
    requires Below(ix, h) && DistinctItems(items + [item])
    requires HistoryAgrees(c.ix.stored, c.ix.history) && MadeBy(c.ix.stored, ix.stored, items)
    ensures var ix' := Step(c, h, item).ix;
      HistoryAgrees(ix'.stored, ix'.history) && MadeBy(ix'.stored, ix.stored, items + [item])
  {
    match item
    case TxItem(_) =>
      MadeByMore(c.ix.stored, ix.stored, items, item);
    case InItem(txid, index, o) =>
      MadeByMore(c.ix.stored, ix.stored, items, item);
      if Known(c.ix.outputs, o) {
        KeyAgrees(ix, h, items, c, item, HistoryKey(c.ix.outputs[o].scriptHash, h, Spend, txid, index));
      }
    case OutItem(txid, index, output) =>
      MadeByMore(c.ix.stored, ix.stored, items, item);
      KeyAgrees(ix, h, items, c, item, HistoryKey(output.scriptHash, h, Fund, txid, index));
  }

  lemma MadeByMore(stored: set<HistoryKey>, before: set<HistoryKey>, items: seq<Item>, item: Item)
    requires MadeBy(stored, before, items)
    ensures MadeBy(stored, before, items + [item])
  {
    forall k | k in stored && k !in before ensures exists i :: i in items + [item] && Files(i, k) {
      var i :| i in items && Files(i, k);
      assert i in items + [item];
    }
  }

  lemma KeyAgrees(ix: Index, h: nat, items: seq<Item>, c: Cursor, item: Item, key: HistoryKey)
    requires Below(ix, h) && DistinctItems(items + [item]) && Files(item, key) && key.height == h
    requires HistoryAgrees(c.ix.stored, c.ix.history) && MadeBy(c.ix.stored, ix.stored, items)
    ensures HistoryAgrees(c.ix.stored + {key}, Append(c.ix.history, key.scriptHash, EntryOf(key)))
    ensures MadeBy(c.ix.stored + {key}, ix.stored, items + [item])
  {
    if key in c.ix.stored {
      var i :| i in items && Files(i, key);
      var n :| 0 <= n < |items| && items[n] == i;
      assert SameSlot((items + [item])[n], (items + [item])[|items|]);
      assert false;
    }
    MadeByMore(c.ix.stored, ix.stored, items, item);
    assert item in items + [item];
    AppendAgrees(c.ix.stored, c.ix.history, key);
  }

  lemma KeyCountAdd(stored: set<HistoryKey>, key: HistoryKey, sh: ScriptHash, e: TxEntry)
    requires key !in stored
    ensures KeyCount(stored + {key}, sh, e)
         == KeyCount(stored, sh, e) + if sh == key.scriptHash && e == EntryOf(key) then 1 else 0
  {
    match key.kind
    case Fund =>
    case Spend =>
  }

  lemma CountAppend(history: map<ScriptHash, seq<TxEntry>>, k: ScriptHash, v: TxEntry, sh: ScriptHash, e: TxEntry)
    ensures multiset(Get(Append(history, k, v), sh))[e]
         == multiset(Get(history, sh))[e] + if sh == k && e == v then 1 else 0
  {
    assert multiset(Get(history, k) + [v]) == multiset(Get(history, k)) + multiset{v};
  }

  lemma AppendAgrees(stored: set<HistoryKey>, history: map<ScriptHash, seq<TxEntry>>, key: HistoryKey)
    requires HistoryAgrees(stored, history) && key !in stored
    ensures HistoryAgrees(stored + {key}, Append(history, key.scriptHash, EntryOf(key)))
  {
    hide KeyCount;
    var more := Append(history, key.scriptHash, EntryOf(key));
    forall sh, e ensures multiset(Get(more, sh))[e] == KeyCount(stored + {key}, sh, e) {
      KeyCountAdd(stored, key, sh, e);
      CountAppend(history, key.scriptHash, EntryOf(key), sh, e);
    }
  }

  lemma {:induction false} StepsAgree(ix: Index, h: nat, items: seq<Item>)
    requires Below(ix, h) && DistinctItems(items) && HistoryAgrees(ix.stored, ix.history)
    ensures var ix' := Steps(Cursor(ix, 0), h, items).ix;
      HistoryAgrees(ix'.stored, ix'.history) && MadeBy(ix'.stored, ix.stored, items)
  {
    hide Step, Below, HistoryAgrees;
    if items != [] {
      var rest, item := items[..|items| - 1], items[|items| - 1];
      StepsAgree(ix, h, rest);
      assert items == rest + [item];
      StepAgrees(ix, h, rest, Steps(Cursor(ix, 0), h, rest), item);
    }
  }

  ghost predicate Agrees(ix: Index) {
    JournalAgrees(ix.journal, ix.byHeight) && HistoryAgrees(ix.stored, ix.history)
  }

  lemma NextAgrees(naming: Naming, base: nat, chain: seq<Block>, ix: Index, block: Block)
    requires Indexes(naming, base, chain, ix) && ValidNext(naming, chain, block) && Agrees(ix)
    ensures Agrees(Apply(ix, block, base + |chain|))
  {
    hide Coupled, OutputsNamed, Matches, CreatedBy, SpendsLive, HistoryAgrees, JournalAgrees, Steps, Below,
         Clean, Journaled, Recorded, Moved, DistinctItems, MadeBy, Fresh, Connectable, ChainTxids, LedgerOf, Items;
    var h := base + |chain|;
    NextConnectable(naming, base, chain, ix, block);
    BlockApplied(naming, ix, block, h);
    var c := Steps(Cursor(ix, 0), h, Items(block));
    ConnectableClean(naming, ix, block, h);
    NextJournalAgrees(ix, h, Get(c.ix.byHeight, h), c.ix.byHeight, c.ix.journal, c.seqNo);
    ItemsDistinct(block);
    StepsAgree(ix, h, Items(block));
  }

  lemma ConnectableClean(naming: Naming, ix: Index, block: Block, h: nat)
    requires Connectable(naming, ix, block, h)
    ensures Clean(ix, h)
  {
  }

  /** In the index of a valid chain, memory and store agree. */
  lemma {:induction false} ChainAgrees(naming: Naming, base: nat, chain: seq<Block>)
    requires ValidChain(naming, chain)
    ensures Agrees(IndexChain(base, chain))
  {
    hide *;
    if chain == [] {
      NothingAgrees(base);
    } else {
      var rest, block := chain[..|chain| - 1], chain[|chain| - 1];
      ChainLast(naming, base, chain);
      ChainAgrees(naming, base, rest);
      ChainIndexed(naming, base, rest);
      NextAgrees(naming, base, rest, IndexChain(base, rest), block);
    }
  }

  lemma NothingAgrees(base: nat)
    ensures Agrees(IndexChain(base, []))
  {
  }

  // ---- Reloading ----------------------------------------------------------------------------

  /** A sequence without repetitions holds each of its elements once. */
  lemma {:induction false} DistinctCount<T>(xs: seq<T>, x: T)
    requires forall i, j | 0 <= i < j < |xs| :: xs[i] != xs[j]
    ensures multiset(xs)[x] == if x in xs then 1 else 0
  {
    if xs != [] {
      var rest, last := xs[..|xs| - 1], xs[|xs| - 1];
      DistinctCount(rest, x);
      assert xs == rest + [last];
    }
  }

  lemma AgreedCount(journal: map<JournalKey, Payload>, byHeight: map<nat, seq<BlockAction>>, h: nat, a: BlockAction)
    requires JournalAgrees(journal, byHeight)
    ensures multiset(Get(byHeight, h))[a] == if IsRecord(journal, h, a) then 1 else 0
  {
    var acts := Get(byHeight, h);
    forall i | 0 <= i < |acts| ensures acts[i] == BlockAction(journal[JournalKey(h, i)], JournalKey(h, i)) {
      assert JournalKey(h, i) in journal;
    }
    DistinctCount(acts, a);
  }

  lemma AgreedSorted(journal: map<JournalKey, Payload>, byHeight: map<nat, seq<BlockAction>>, h: nat)
    requires JournalAgrees(journal, byHeight)
    ensures Sorted(Get(byHeight, h), ActionKey) && Injective(Get(byHeight, h), ActionKey)
  {
    var acts := Get(byHeight, h);
    forall i | 0 <= i < |acts| ensures acts[i] == BlockAction(journal[JournalKey(h, i)], JournalKey(h, i)) {
      assert JournalKey(h, i) in journal;
    }
  }

  /** Sorting the reloaded records by sequence gives back the recorded order. */
  lemma JournalReloads(journal: map<JournalKey, Payload>, byHeight: map<nat, seq<BlockAction>>,
                       loaded: map<nat, seq<BlockAction>>)
    requires JournalAgrees(journal, byHeight) && JournalLoaded(journal, loaded)
    ensures loaded == byHeight
  {
    forall h ensures Get(loaded, h) == Get(byHeight, h) {
      hide JournalAgrees, IsRecord, Sorted;
      var a, b := Get(byHeight, h), Get(loaded, h);
      forall x ensures multiset(a)[x] == multiset(b)[x] {
        AgreedCount(journal, byHeight, h, x);
      }
      assert multiset(a) == multiset(b);
      AgreedSorted(journal, byHeight, h);
      SortedUnique(a, b, ActionKey);
    }
    forall h
      ensures h in loaded <==> h in byHeight
      ensures h in loaded ==> loaded[h] == byHeight[h]
    {
      assert Get(loaded, h) == Get(byHeight, h);
    }
    assert loaded == byHeight;
  }

  /** Equal but for the order of entries within each script's cached history. */
  ghost predicate SameHistory(a: map<ScriptHash, seq<TxEntry>>, b: map<ScriptHash, seq<TxEntry>>) {
    a.Keys == b.Keys && forall sh :: multiset(Get(a, sh)) == multiset(Get(b, sh))
  }

  ghost predicate Similar(a: State, b: State) {
    b == a.(ix := a.ix.(history := b.ix.history)) && SameHistory(a.ix.history, b.ix.history)
  }

  lemma HistoryReloads(stored: set<HistoryKey>, a: map<ScriptHash, seq<TxEntry>>, b: map<ScriptHash, seq<TxEntry>>)
    requires HistoryAgrees(stored, a) && HistoryAgrees(stored, b)
    ensures SameHistory(a, b)
  {
    forall sh ensures multiset(Get(a, sh)) == multiset(Get(b, sh)) {
      forall e ensures multiset(Get(a, sh))[e] == multiset(Get(b, sh))[e] {
      }
    }
    forall sh ensures sh in a <==> sh in b {
      assert multiset(Get(a, sh)) == multiset(Get(b, sh));
      assert |multiset(Get(a, sh))| == |Get(a, sh)| && |multiset(Get(b, sh))| == |Get(b, sh)|;
    }
  }

  /** The journal's transactions are those of the connected blocks. */
  lemma ConfirmedMined(ix: Index)
    requires JournalAgrees(ix.journal, ix.byHeight)
    ensures ConfirmedIds(ix.journal) == Mined(ix)
  {
    forall id | id in Mined(ix) ensures id in ConfirmedIds(ix.journal) {
      var h, a :| h in ix.byHeight && a in ix.byHeight[h] && a.payload.TxMined? && a.payload.txid == id;
      var i :| 0 <= i < |ix.byHeight[h]| && ix.byHeight[h][i] == a;
      assert JournalKey(h, i) in ix.journal;
    }
    forall id | id in ConfirmedIds(ix.journal) ensures id in Mined(ix) {
      var k :| k in ix.journal && ix.journal[k].TxMined? && ix.journal[k].txid == id;
      assert ix.byHeight[k.height][k.sequence] in ix.byHeight[k.height];
    }
  }

  /** Every pending transaction is unconfirmed and stored as it is pending. */
  ghost predicate Intact(st: State) {
    forall id | id in st.pool :: id !in Mined(st.ix) && id in st.txs && st.txs[id] == st.pool[id]
  }

  /** The pool survives a reopening exactly when it is intact. */
  lemma PoolReloads(st: State)
    requires Listed(st) && JournalAgrees(st.ix.journal, st.ix.byHeight)
    ensures PoolLoaded(st) == st.pool <==> Intact(st)
  {
    ConfirmedMined(st.ix);
    hide Mined, ConfirmedIds, JournalAgrees, TxsKeyed, Keyed;
    if Intact(st) {
      assert PoolLoaded(st) == st.pool;
    } else {
      var id :| id in st.pool && !(id !in Mined(st.ix) && id in st.txs && st.txs[id] == st.pool[id]);
      assert id !in PoolLoaded(st) || PoolLoaded(st)[id] != st.pool[id];
    }
  }

  lemma ReopenedSimilar(st: State, st': State)
    requires Agrees(st.ix) && Listed(st) && Reopened(st, st')
    ensures Similar(st, st') <==> Intact(st)
  {
    hide JournalAgrees, HistoryAgrees, JournalLoaded, PoolLoaded, Listed, SameHistory, Intact;
    JournalReloads(st.ix.journal, st.ix.byHeight, st'.ix.byHeight);
    HistoryReloads(st.ix.stored, st.ix.history, st'.ix.history);
    PoolReloads(st);
  }

  lemma OrderedAgrees(naming: Naming, base: nat, events: seq<Event>)
    requires StackOrdered(naming, base, BlockEvents(events))
    ensures Agrees(Model.Run(events).ix)
  {
    hide *;
    var st := Model.Run(events);
    RunIndex(events);
    ReorgRefinement(naming, base, BlockEvents(events));
    ChainAgrees(naming, base, Survivors(BlockEvents(events)));
    TipAgrees(IndexChain(base, Survivors(BlockEvents(events))), st.ix.tip);
  }

  /** Reopening the store after any stack-ordered run restores the state exactly when its pool is intact. */
  lemma RestartExact(naming: Naming, base: nat, events: seq<Event>, st': State)
    requires StackOrdered(naming, base, BlockEvents(events))
    requires Reopened(Model.Run(events), st')
    ensures Similar(Model.Run(events), st') <==> Intact(Model.Run(events))
  {
    hide *;
    OrderedAgrees(naming, base, events);
    AlwaysListed(events);
    ReopenedSimilar(Model.Run(events), st');
  }

  lemma SettledIntact(st: State)
    requires Settled(st)
    ensures Intact(st)
  {
    hide Mined;
  }

  /** In particular it does when no confirmed transaction is tracked and none is stored again while pending. */
  lemma RestartRestores(naming: Naming, base: nat, events: seq<Event>, st': State)
    requires StackOrdered(naming, base, BlockEvents(events)) && TimelyRun(events)
    requires Reopened(Model.Run(events), st')
    ensures Similar(Model.Run(events), st')
  {
    hide *;
    RestartExact(naming, base, events, st');
    AlwaysSettled(events);
    SettledIntact(Model.Run(events));
  }

  /**
   * It does not when a transaction is restored before its block is disconnected: the disconnect deletes
   * the raw transaction, the restored one stays pending, and a reopening loses it.
   */
  lemma RestoredThenLost(st: State, id: Txid, h: nat, st': State)
    requires id in MinedBy(Get(st.ix.byHeight, h)) && id in st.txs && TxsKeyed(st.txs)
    requires Reopened(Disconnect(Model.Next(st, Restored(id)), h), st')
    ensures var after := Disconnect(Model.Next(st, Restored(id)), h);
      id in after.pool && id !in after.txs && id !in st'.pool && !Similar(after, st')
  {
    hide Rollback, MinedBy, Unlist, List, Chains, Conflicts, HistoryAgrees, JournalLoaded;
    NextIndex(st, Restored(id));
  }

  lemma TipAgrees(ix: Index, tip: nat)
    requires Agrees(ix)
    ensures Agrees(ix.(tip := tip))
  {
  }

  // ---- Every later run is the same ----------------------------------------------------------

  ghost predicate SimilarCursor(c: Cursor, d: Cursor) {
    && d == c.(ix := c.ix.(history := d.ix.history))
    && SameHistory(c.ix.history, d.ix.history)
  }

  lemma AppendSame(a: map<ScriptHash, seq<TxEntry>>, b: map<ScriptHash, seq<TxEntry>>, sh: ScriptHash, e: TxEntry)
    requires SameHistory(a, b)
    ensures SameHistory(Append(a, sh, e), Append(b, sh, e))
  {
    forall t ensures multiset(Get(Append(a, sh, e), t)) == multiset(Get(Append(b, sh, e), t)) {
      assert multiset(Get(a, t)) == multiset(Get(b, t));
      assert multiset(Get(a, t) + [e]) == multiset(Get(a, t)) + multiset{e};
      assert multiset(Get(b, t) + [e]) == multiset(Get(b, t)) + multiset{e};
    }
  }

  lemma StepSimilar(c: Cursor, d: Cursor, h: nat, item: Item)
    requires SimilarCursor(c, d)
    ensures SimilarCursor(Step(c, h, item), Step(d, h, item))
  {
    hide SameHistory;
    match item
    case TxItem(_) =>
    case InItem(txid, index, o) =>
      if Known(c.ix.outputs, o) {
        AppendSame(c.ix.history, d.ix.history, c.ix.outputs[o].scriptHash, TxEntry(txid, h, index));
      }
    case OutItem(txid, index, out) =>
      AppendSame(c.ix.history, d.ix.history, out.scriptHash, TxEntry(txid, h, index));
  }

  lemma {:induction false} StepsSimilar(c: Cursor, d: Cursor, h: nat, items: seq<Item>)
    requires SimilarCursor(c, d)
    ensures SimilarCursor(Steps(c, h, items), Steps(d, h, items))
  {
    hide Step, SimilarCursor;
    if items != [] {
      StepsSimilar(c, d, h, items[..|items| - 1]);
      StepSimilar(Steps(c, h, items[..|items| - 1]), Steps(d, h, items[..|items| - 1]), h, items[|items| - 1]);
    }
  }

  lemma {:induction false} RetainCount(xs: seq<TxEntry>, h: nat, e: TxEntry)
    ensures multiset(Retain(xs, h))[e] == if e.height != h then multiset(xs)[e] else 0
  {
    if xs != [] {
      var rest, last := xs[..|xs| - 1], xs[|xs| - 1];
      RetainCount(rest, h, e);
      assert xs == rest + [last];
    }
  }

  lemma RetainSame(xs: seq<TxEntry>, ys: seq<TxEntry>, h: nat)
    requires multiset(xs) == multiset(ys)
    ensures multiset(Retain(xs, h)) == multiset(Retain(ys, h)) && |Retain(xs, h)| == |Retain(ys, h)|
  {
    forall e ensures multiset(Retain(xs, h))[e] == multiset(Retain(ys, h))[e] {
      RetainCount(xs, h, e);
      RetainCount(ys, h, e);
    }
    assert |multiset(Retain(xs, h))| == |Retain(xs, h)| && |multiset(Retain(ys, h))| == |Retain(ys, h)|;
  }

  lemma DropHeightSame(a: map<ScriptHash, seq<TxEntry>>, b: map<ScriptHash, seq<TxEntry>>, h: nat)
    requires SameHistory(a, b)
    ensures SameHistory(DropHeight(a, h), DropHeight(b, h))
  {
    forall sh
      ensures multiset(Get(DropHeight(a, h), sh)) == multiset(Get(DropHeight(b, h), sh))
      ensures sh in DropHeight(a, h) <==> sh in DropHeight(b, h)
    {
      RetainSame(Get(a, sh), Get(b, sh), h);
    }
  }

  lemma {:induction false} UndoAllHistory(ix: Index, actions: seq<BlockAction>, history: map<ScriptHash, seq<TxEntry>>)
    ensures UndoAll(ix.(history := history), actions) == UndoAll(ix, actions).(history := history)
    decreases |actions|
  {
    if actions != [] {
      UndoAllHistory(Undo(ix, actions[|actions| - 1]), actions[..|actions| - 1], history);
      assert Undo(ix.(history := history), actions[|actions| - 1])
          == Undo(ix, actions[|actions| - 1]).(history := history);
    }
  }

  lemma RollbackSimilar(a: Index, b: Index, h: nat)
    requires SimilarCursor(Cursor(a, 0), Cursor(b, 0))
    ensures SimilarCursor(Cursor(Rollback(a, h), 0), Cursor(Rollback(b, h), 0))
  {
    hide SameHistory, DropHeight, UndoAll;
    if h in a.byHeight {
      var start := a.(byHeight := a.byHeight - {h});
      UndoAllHistory(start, a.byHeight[h], b.history);
      UndoAllTrees(start, a.byHeight[h]);
      DropHeightSame(a.history, b.history, h);
    }
  }

  lemma ApplySimilar(a: Index, b: Index, block: Block, h: nat)
    requires SimilarCursor(Cursor(a, 0), Cursor(b, 0))
    ensures SimilarCursor(Cursor(Apply(a, block, h), 0), Cursor(Apply(b, block, h), 0))
  {
    hide SameHistory, Steps;
    StepsSimilar(Cursor(a, 0), Cursor(b, 0), h, Items(block));
  }

  lemma NextSimilar(a: State, b: State, e: Event)
    requires Similar(a, b)
    ensures Similar(Model.Next(a, e), Model.Next(b, e))
  {
    hide SameHistory, Apply, Rollback, Chains, Conflicts, Descendants, Unlist, List, StoreAll, Txids, MinedBy;
    match e
    case Connected(block, h) => ApplySimilar(a.ix, b.ix, block, h);
    case Disconnected(h) => RollbackSimilar(a.ix, b.ix, h);
    case Tracked(_) =>
    case Restored(_) =>
    case Forgotten(_) =>
    case ChainForgotten(_) =>
    case RawStored(_) =>
  }

  /** Similar states stay similar under any events, so nothing later can tell a restart happened. */
  lemma {:induction false} LaterRunsSame(a: State, b: State, events: seq<Event>)
    requires Similar(a, b)
    ensures Similar(RunFrom(a, events), RunFrom(b, events))
  {
    hide Similar, Model.Next;
    if events != [] {
      LaterRunsSame(a, b, events[..|events| - 1]);
      NextSimilar(RunFrom(a, events[..|events| - 1]), RunFrom(b, events[..|events| - 1]), events[|events| - 1]);
    }
  }

  /** Similar states give every script hash the same history, mempool answer and status. */
  lemma SimilarAnswers(a: State, b: State, sh: ScriptHash, h: seq<TxEntry>, m: seq<MempoolEntry>,
                       h': seq<TxEntry>, m': seq<MempoolEntry>)
    requires Similar(a, b) && HeightsBelow(Get(a.ix.history, sh), U32_MAX)
    requires IsHistory(Get(a.ix.history, sh), a.pool, a.ix.outputs, sh, h) && IsMempool(a.pool, a.ix.outputs, sh, m)
    requires IsHistory(Get(b.ix.history, sh), b.pool, b.ix.outputs, sh, h') && IsMempool(b.pool, b.ix.outputs, sh, m')
    ensures h == h' && m == m' && Status.Preimage(h, m) == Status.Preimage(h', m')
  {
    hide HeightsBelow, IsHistory, IsMempool, Status.Preimage;
    Status.PreimageDetermined(Get(a.ix.history, sh), Get(b.ix.history, sh), a.pool, a.ix.outputs, sh, h, m, h', m');
  }
}
