/** Where the obvious laws of the confirmed index fail, and exactly when they hold. */
module Limits {
  import opened Chain
  import opened Confirmed
  import opened Model
  import opened Restart
  import Reorg

  // ---- Connecting at a height that has records ----------------------------------------------

  /** The actions a connect has recorded at `h` so far, numbered from 0 whatever was there before. */
  ghost predicate Numbered(ix: Index, h: nat, acts: seq<BlockAction>, c: Cursor) {
    && c.seqNo == |acts|
    && c.ix.byHeight == (if acts == [] then ix.byHeight else ix.byHeight[h := Get(ix.byHeight, h) + acts])
    && (forall i | 0 <= i < |acts| :: acts[i].key == JournalKey(h, i))
    && c.ix.journal.Keys == ix.journal.Keys + Keys(acts)
    && (forall k | k in ix.journal && k.height != h :: c.ix.journal[k] == ix.journal[k])
    && (forall i | 0 <= i < |acts| :: c.ix.journal[JournalKey(h, i)] == acts[i].payload)
  }

  lemma JournalNumbered(ix: Index, h: nat, acts: seq<BlockAction>, c: Cursor, payload: Payload)
    requires Numbered(ix, h, acts, c)
    ensures Numbered(ix, h, acts + [BlockAction(payload, JournalKey(h, c.seqNo))], Journal(c, h, payload))
  {
    hide Keys, Get, Append;
    var a := BlockAction(payload, JournalKey(h, c.seqNo));
    HeightAppended(ix.byHeight, h, acts, c.ix.byHeight, a);
    KeysNext(acts, a);
    JournalAdded(c.ix.journal, acts, h, a);
  }

  /** The list of a height gains the new action at its end. */
  lemma HeightAppended(before: map<nat, seq<BlockAction>>, h: nat, acts: seq<BlockAction>,
                       now: map<nat, seq<BlockAction>>, a: BlockAction)
    requires now == (if acts == [] then before else before[h := Get(before, h) + acts])
    ensures Append(now, h, a) == before[h := Get(before, h) + (acts + [a])]
  {
    assert Get(before, h) + acts + [a] == Get(before, h) + (acts + [a]);
    if acts == [] {
      assert acts + [a] == [a];
    }
  }

  /** Under the next sequence number no earlier record is overwritten. */
  lemma JournalAdded(journal: map<JournalKey, Payload>, acts: seq<BlockAction>, h: nat, a: BlockAction)
    requires a.key == JournalKey(h, |acts|)
    requires forall i | 0 <= i < |acts| :: JournalKey(h, i) in journal && journal[JournalKey(h, i)] == acts[i].payload
    ensures var journal' := journal[a.key := a.payload];
      forall i | 0 <= i < |acts + [a]| ::
        JournalKey(h, i) in journal' && journal'[JournalKey(h, i)] == (acts + [a])[i].payload
  {
  }

  lemma KeysNext(acts: seq<BlockAction>, a: BlockAction)
    ensures Keys(acts + [a]) == Keys(acts) + {a.key}
    ensures forall i | 0 <= i < |acts| :: acts[i].key in Keys(acts)
  {
    forall i | 0 <= i < |acts| ensures acts[i].key in Keys(acts) {
      assert acts[i] in acts;
    }
  }

  lemma StepNumbered(ix: Index, h: nat, acts: seq<BlockAction>, c: Cursor, item: Item) returns (more: seq<BlockAction>)
    requires Numbered(ix, h, acts, c)
    ensures Numbered(ix, h, more, Step(c, h, item)) && |more| >= |acts| && (item.TxItem? ==> more != [])
  {
    hide Numbered;
    match item
    case TxItem(txid) =>
      more := OneNumbered(ix, h, acts, c, c, TxMined(txid));
      SameNumbered(ix, h, more, StepJournal(c, h, item), Step(c, h, item));
    case InItem(txid, index, o) =>
      if Known(c.ix.outputs, o) {
        var key := HistoryKey(c.ix.outputs[o].scriptHash, h, Spend, txid, index);
        more := TwoNumbered(ix, h, acts, c, key, OutputSpent(o));
      } else {
        more := acts;
      }
      SameNumbered(ix, h, more, StepJournal(c, h, item), Step(c, h, item));
    case OutItem(txid, index, output) =>
      more := TwoNumbered(ix, h, acts, c, HistoryKey(output.scriptHash, h, Fund, txid, index),
                          OutputAdded(OutPoint(txid, index)));
      SameNumbered(ix, h, more, StepJournal(c, h, item), Step(c, h, item));
  }

  lemma SameNumbered(ix: Index, h: nat, acts: seq<BlockAction>, c: Cursor, c': Cursor)
    requires Numbered(ix, h, acts, c) && c'.seqNo == c.seqNo
    requires c'.ix.journal == c.ix.journal && c'.ix.byHeight == c.ix.byHeight
    ensures Numbered(ix, h, acts, c')
  {
  }

  lemma OneNumbered(ix: Index, h: nat, acts: seq<BlockAction>, c: Cursor, c': Cursor, payload: Payload)
    returns (more: seq<BlockAction>)
    requires Numbered(ix, h, acts, c) && c'.seqNo == c.seqNo
    requires c'.ix.journal == c.ix.journal && c'.ix.byHeight == c.ix.byHeight
    ensures Numbered(ix, h, more, Journal(c', h, payload)) && |more| == |acts| + 1
  {
    more := acts + [BlockAction(payload, JournalKey(h, c.seqNo))];
    SameNumbered(ix, h, acts, c, c');
    JournalNumbered(ix, h, acts, c', payload);
  }

  lemma TwoNumbered(ix: Index, h: nat, acts: seq<BlockAction>, c: Cursor, key: HistoryKey, payload: Payload)
    returns (more: seq<BlockAction>)
    requires Numbered(ix, h, acts, c) && key.height == h
    ensures Numbered(ix, h, more, Journal(AddHistory(c, key), h, payload)) && |more| >= |acts|
  {
    hide Numbered;
    var filed := c.(ix := c.ix.(stored := c.ix.stored + {key},
                                history := Append(c.ix.history, key.scriptHash, EntryOf(key))));
    var one := OneNumbered(ix, h, acts, c, filed, HistoryAdded(key));
    more := OneNumbered(ix, h, one, AddHistory(c, key), AddHistory(c, key), payload);
  }

  lemma {:induction false} StepsNumbered(ix: Index, h: nat, items: seq<Item>) returns (acts: seq<BlockAction>)
    ensures Numbered(ix, h, acts, Steps(Cursor(ix, 0), h, items))
    ensures items != [] && items[0].TxItem? ==> acts != []
  {
    hide Step;
    acts := [];
    if items != [] {
      var rest := StepsNumbered(ix, h, items[..|items| - 1]);
      acts := StepNumbered(ix, h, rest, Steps(Cursor(ix, 0), h, items[..|items| - 1]), items[|items| - 1]);
    }
  }

  lemma {:induction false} FirstItem(block: Block)
    requires block != []
    ensures Items(block) != [] && Items(block)[0].TxItem?
  {
    if |block| > 1 {
      FirstItem(block[..|block| - 1]);
    }
  }

  /** Two records with one key cannot both be reloaded. */
  lemma TwiceNumbered(before: seq<BlockAction>, acts: seq<BlockAction>, journal: map<JournalKey, Payload>, h: nat,
                      all: seq<BlockAction>)
    requires before != [] && acts != [] && all == before + acts && before[0].key == acts[0].key
    requires acts[0].key in journal && journal[acts[0].key] == acts[0].payload
    ensures exists a :: multiset(all)[a] != if IsRecord(journal, h, a) then 1 else 0
  {
    var a := before[0];
    assert all[0] == a && a in multiset(all);
    if IsRecord(journal, h, a) {
      assert a == acts[0];
      assert multiset(all) == multiset(before) + multiset(acts);
      assert a in multiset(before) && a in multiset(acts);
    }
  }

  /** A reload gives back the recorded heights exactly when the block was connected at a free height. */
  lemma ReloadsAfterConnect(ix: Index, block: Block, h: nat, loaded: map<nat, seq<BlockAction>>)
    requires JournalAgrees(ix.journal, ix.byHeight) && block != []
    requires JournalLoaded(Apply(ix, block, h).journal, loaded)
    ensures loaded == Apply(ix, block, h).byHeight <==> h !in ix.byHeight
  {
    hide Steps, Items, JournalLoaded, JournalAgrees;
    var c := Steps(Cursor(ix, 0), h, Items(block));
    FirstItem(block);
    var acts := StepsNumbered(ix, h, Items(block));
    if h in ix.byHeight {
      OccupiedDiffers(ix, h, acts, c, loaded);
    } else {
      FreeJournaled(ix, h, acts, c);
      NextJournalAgrees(ix, h, acts, c.ix.byHeight, c.ix.journal, c.seqNo);
      JournalReloads(c.ix.journal, c.ix.byHeight, loaded);
    }
  }

  lemma FreeJournaled(ix: Index, h: nat, acts: seq<BlockAction>, c: Cursor)
    requires JournalAgrees(ix.journal, ix.byHeight) && h !in ix.byHeight && Numbered(ix, h, acts, c)
    ensures Journaled(ix, h, acts, c.ix.byHeight, c.ix.journal, c.seqNo)
  {
    assert [] + acts == acts;
  }

  lemma OccupiedDiffers(ix: Index, h: nat, acts: seq<BlockAction>, c: Cursor, loaded: map<nat, seq<BlockAction>>)
    requires JournalAgrees(ix.journal, ix.byHeight) && h in ix.byHeight
    requires acts != [] && Numbered(ix, h, acts, c) && JournalLoaded(c.ix.journal, loaded)
    ensures loaded != c.ix.byHeight
  {
    var before := ix.byHeight[h];
    assert JournalKey(h, 0) in ix.journal && before[0].key == JournalKey(h, 0);
    assert acts[0] in acts && acts[0].key in Keys(acts);
    TwiceNumbered(before, acts, c.ix.journal, h, before + acts);
    var a :| multiset(before + acts)[a] != if IsRecord(c.ix.journal, h, a) then 1 else 0;
    assert Get(c.ix.byHeight, h) == before + acts;
    assert multiset(Get(loaded, h))[a] == if IsRecord(c.ix.journal, h, a) then 1 else 0;
  }

  // ---- Spending what is already spent -------------------------------------------------------

  /** Undoing a block makes every known output that it spends live, also one spent long before. */
  lemma DeadSpendRevived(naming: Naming, ix: Index, block: Block, h: nat, o: OutPoint)
    requires Connectable(naming, ix, block, h)
    requires o in ix.outputs && o in Prevouts(Items(block))
    ensures UtxoKey(ix.outputs[o].scriptHash, o) in Rollback(Apply(ix, block, h), h).utxos
  {
    hide Rollback, Apply, Connectable, Items;
    UndoFormula(naming, ix, block, h);
  }

  /** On the index of a valid chain, undoing a block that spends what the chain has spent is not exact. */
  lemma DeadSpendInexact(naming: Naming, base: nat, chain: seq<Block>, block: Block, o: OutPoint)
    requires Reorg.ValidChain(naming, chain)
    requires BlockNamed(naming, block) && Txids(block) !! Reorg.ChainTxids(chain)
    requires var ix := Reorg.IndexChain(base, chain);
      o in ix.outputs && o !in Reorg.LedgerOf(chain) && o in Prevouts(Items(block))
    ensures var ix, h := Reorg.IndexChain(base, chain), base + |chain|;
      && UtxoKey(ix.outputs[o].scriptHash, o) !in ix.utxos
      && UtxoKey(ix.outputs[o].scriptHash, o) in Rollback(Apply(ix, block, h), h).utxos
  {
    hide Rollback, Apply, Connectable, Items, Reorg.ValidChain, Reorg.IndexChain, Reorg.LedgerOf, Reorg.ChainTxids;
    Reorg.ChainIndexed(naming, base, chain);
    Reorg.NewConnectable(naming, base, chain, Reorg.IndexChain(base, chain), block);
    DeadSpendRevived(naming, Reorg.IndexChain(base, chain), block, base + |chain|, o);
  }

  function Creates(id: Txid, sh: ScriptHash): Tx {
    Tx(id, [NULL_OUTPOINT], [TxOut(sh, 1)], 1)
  }

  function SpendsFrom(id: Txid, from: Txid): Tx {
    Tx(id, [OutPoint(from, 0)], [], 1)
  }

  /** One block creates an output, the next spends it. */
  function SpentChain(a: Txid, b: Txid, sh: ScriptHash): seq<Block> {
    [[Creates(a, sh)], [SpendsFrom(b, a)]]
  }

  lemma OneItems(tx: Tx)
    ensures Items([tx]) == TxItems(tx)
  {
    assert [tx][..0] == [];
  }

  lemma SpentChainLedger(a: Txid, b: Txid, sh: ScriptHash)
    requires a != b && OutPoint(a, 0) != NULL_OUTPOINT
    ensures var chain := SpentChain(a, b, sh);
      && Reorg.LedgerOf(chain[..1]) == map[OutPoint(a, 0) := TxOut(sh, 1)] && Reorg.LedgerOf(chain) == map[]
  {
    var chain := SpentChain(a, b, sh);
    assert chain[..1][..0] == [] && chain[..1] == [[Creates(a, sh)]];
    OneItems(Creates(a, sh));
    OneItems(SpendsFrom(b, a));
    var made := TxItems(Creates(a, sh));
    assert made == [TxItem(a), InItem(a, 0, NULL_OUTPOINT), OutItem(a, 0, TxOut(sh, 1))];
    LedgerTriple(map[], made[0], made[1], made[2]);
    LedgerTriple(map[OutPoint(a, 0) := TxOut(sh, 1)], TxItem(b), InItem(b, 0, OutPoint(a, 0)), TxItem(b));
    assert TxItems(SpendsFrom(b, a)) == [TxItem(b), InItem(b, 0, OutPoint(a, 0))];
  }

  lemma LedgerTriple(ledger: Reorg.Ledger, x: Item, y: Item, z: Item)
    ensures Reorg.LedgerSteps(ledger, [x, y]) == Reorg.LedgerStep(Reorg.LedgerStep(ledger, x), y)
    ensures Reorg.LedgerSteps(ledger, [x, y, z])
         == Reorg.LedgerStep(Reorg.LedgerStep(Reorg.LedgerStep(ledger, x), y), z)
  {
    hide Reorg.LedgerStep;
    assert [x][..0] == [] && [x, y][..1] == [x] && [x, y, z][..2] == [x, y];
    assert Reorg.LedgerSteps(ledger, [x]) == Reorg.LedgerStep(ledger, x);
    assert Reorg.LedgerSteps(ledger, [x, y]) == Reorg.LedgerStep(Reorg.LedgerStep(ledger, x), y);
  }

  lemma {:induction false} OutputsKept(c: Cursor, h: nat, items: seq<Item>)
    ensures c.ix.outputs.Keys <= Steps(c, h, items).ix.outputs.Keys
  {
    if items != [] {
      OutputsKept(c, h, items[..|items| - 1]);
    }
  }

  function SpentNaming(a: Txid, sh: ScriptHash): Naming {
    id => if id == a then Body([NULL_OUTPOINT], [TxOut(sh, 1)]) else Body([OutPoint(a, 0)], [])
  }

  lemma SpentChainValid(a: Txid, b: Txid, sh: ScriptHash)
    requires a != b && OutPoint(a, 0) != NULL_OUTPOINT
    ensures var chain := SpentChain(a, b, sh);
      && Reorg.ValidChain(SpentNaming(a, sh), chain[..1]) && Reorg.ValidChain(SpentNaming(a, sh), chain)
      && Reorg.ChainTxids(chain) == {a, b}
  {
    hide Reorg.LedgerOf;
    var chain := SpentChain(a, b, sh);
    assert chain[..1][..0] == [] && chain[..1] == [[Creates(a, sh)]];
    OneItems(Creates(a, sh));
    OneItems(SpendsFrom(b, a));
    SpentChainLedger(a, b, sh);
  }

  /** Connecting a block that creates an output, one that spends it and one that spends it again. */
  function DeadSpendEvents(a: Txid, b: Txid, sh: ScriptHash): seq<Reorg.BlockEvent> {
    [Reorg.Connected([Creates(a, sh)], 1), Reorg.Connected([SpendsFrom(b, a)], 2)]
  }

  lemma DeadSpendIndex(a: Txid, b: Txid, sh: ScriptHash)
    requires a != b && OutPoint(a, 0) != NULL_OUTPOINT
    ensures var ix := Reorg.Run(DeadSpendEvents(a, b, sh));
      && ix == Reorg.IndexChain(1, SpentChain(a, b, sh))
      && OutPoint(a, 0) in ix.outputs && ix.outputs[OutPoint(a, 0)].scriptHash == sh
  {
    hide Apply, Steps, Reorg.LedgerOf, Reorg.ValidChain, Reorg.ChainTxids, Reorg.Below, Reorg.CreatedBy;
    var chain, events := SpentChain(a, b, sh), DeadSpendEvents(a, b, sh);
    var first := Reorg.IndexChain(1, chain[..1]);
    TwoRuns(events[0].block, events[1].block);
    assert events == [events[0], events[1]] && chain == [chain[0], chain[1]] && chain[..1] == [chain[0]];
    SpentChainValid(a, b, sh);
    SpentChainLedger(a, b, sh);
    Reorg.ChainIndexed(SpentNaming(a, sh), 1, chain[..1]);
    assert OutPoint(a, 0) in first.outputs;
    ApplyKeepsOutputs(first, chain[1], 2);
    Reorg.ChainIndexed(SpentNaming(a, sh), 1, chain);
  }

  lemma TwoRuns(x: Block, y: Block)
    ensures Reorg.IndexChain(1, [x]) == Apply(EMPTY, x, 1)
    ensures Reorg.IndexChain(1, [x, y]) == Apply(Apply(EMPTY, x, 1), y, 2)
    ensures Reorg.Run([Reorg.Connected(x, 1), Reorg.Connected(y, 2)]) == Apply(Apply(EMPTY, x, 1), y, 2)
  {
    hide Apply;
    var e, f := Reorg.Connected(x, 1), Reorg.Connected(y, 2);
    assert [x][..0] == [] && [x, y][..1] == [x] && [e][..0] == [] && [e, f][..1] == [e];
    assert Reorg.Run([e]) == Apply(EMPTY, x, 1);
  }

  lemma ApplyKeepsOutputs(ix: Index, block: Block, h: nat)
    ensures ix.outputs.Keys <= Apply(ix, block, h).outputs.Keys
  {
    OutputsKept(Cursor(ix, 0), h, Items(block));
  }

  /** A run on which undo is not exact: a third block spends the output again, and undoing it revives the output. */
  lemma DeadSpendExample(a: Txid, b: Txid, c: Txid, sh: ScriptHash)
    requires a != b && b != c && c != a && OutPoint(a, 0) != NULL_OUTPOINT
    ensures var events := DeadSpendEvents(a, b, sh);
      var again := events + [Reorg.Connected([SpendsFrom(c, a)], 3)] + [Reorg.Disconnected(3)];
      && UtxoKey(sh, OutPoint(a, 0)) !in Reorg.Run(events).utxos
      && UtxoKey(sh, OutPoint(a, 0)) in Reorg.Run(again).utxos
  {
    hide Apply, Rollback, Steps, Reorg.LedgerOf, Reorg.ValidChain, Reorg.IndexChain, Reorg.ChainTxids,
         DeadSpendEvents, SpentChain;
    var events, chain := DeadSpendEvents(a, b, sh), SpentChain(a, b, sh);
    var third, undone := Reorg.Connected([SpendsFrom(c, a)], 3), Reorg.Disconnected(3);
    DeadSpendIndex(a, b, sh);
    SpentChainValid(a, b, sh);
    SpentChainLedger(a, b, sh);
    OneItems(SpendsFrom(c, a));
    assert TxItems(SpendsFrom(c, a))[1] == InItem(c, 0, OutPoint(a, 0));
    SpentLength(a, b, sh);
    DeadSpendInexact(SpentNaming(a, sh), 1, chain, [SpendsFrom(c, a)], OutPoint(a, 0));
    assert (events + [third])[..|events|] == events;
    assert (events + [third] + [undone])[..|events + [third]|] == events + [third];
  }

  lemma SpentLength(a: Txid, b: Txid, sh: ScriptHash)
    ensures |SpentChain(a, b, sh)| == 2
  {
  }

  // ---- Restoring after a disconnect ---------------------------------------------------------

  lemma StepKeepsMined(c: Cursor, h: nat, item: Item)
    ensures MinedBy(Get(c.ix.byHeight, h)) <= MinedBy(Get(Step(c, h, item).ix.byHeight, h))
    ensures item.TxItem? ==> item.txid in MinedBy(Get(Step(c, h, item).ix.byHeight, h))
  {
    match item
    case TxItem(txid) =>
      var a := BlockAction(TxMined(txid), JournalKey(h, c.seqNo));
      assert a in Get(c.ix.byHeight, h) + [a];
    case InItem(_, _, _) =>
    case OutItem(_, _, _) =>
  }

  lemma {:induction false} StepsMine(c: Cursor, h: nat, items: seq<Item>)
    ensures forall item | item in items && item.TxItem? ::
      item.txid in MinedBy(Get(Steps(c, h, items).ix.byHeight, h))
  {
    hide MinedBy, Step;
    if items != [] {
      var rest, last := items[..|items| - 1], items[|items| - 1];
      StepsMine(c, h, rest);
      StepKeepsMined(Steps(c, h, rest), h, last);
      assert items == rest + [last];
    }
  }

  lemma {:induction false} MinedItem(block: Block, tx: Tx)
    requires tx in block
    ensures TxItem(tx.txid) in Items(block)
  {
    var rest, last := block[..|block| - 1], block[|block| - 1];
    if tx == last {
      assert TxItems(tx)[0] == TxItem(tx.txid);
    } else {
      assert block == rest + [last];
      MinedItem(rest, tx);
    }
  }

  /** A disconnect deletes the raw transactions of its block, so none of them can be restored afterwards. */
  lemma DisconnectedNotRestorable(st: State, block: Block, h: nat, tx: Tx)
    requires tx in block
    ensures var after := Disconnect(Connect(st, block, h), h);
      tx.txid !in after.txs && tx.txid !in after.pool && Model.Next(after, Restored(tx.txid)) == after
  {
    hide Rollback, Steps, Items, MinedBy, StoreAll, Unlist;
    MinedItem(block, tx);
    StepsMine(Cursor(st.ix, 0), h, Items(block));
  }

  lemma RunSnoc(events: seq<Event>, e: Event)
    ensures Model.Run(events + [e]) == Model.Next(Model.Run(events), e)
  {
    hide Model.Next;
    assert (events + [e])[..|events|] == events;
  }

  /** In any run, restoring a transaction of the last block before its disconnect loses it at the next reopening. */
  lemma RestoredRunLoses(events: seq<Event>, block: Block, h: nat, tx: Tx, st': State)
    requires tx in block
    requires Reopened(Model.Run(events + [Connected(block, h)] + [Restored(tx.txid)] + [Disconnected(h)]), st')
    ensures var st := Model.Run(events + [Connected(block, h)] + [Restored(tx.txid)] + [Disconnected(h)]);
      tx.txid in st.pool && tx.txid !in st'.pool && !Similar(st, st')
  {
    hide Model.Run, Reopened, Similar, Rollback, Steps, Items, MinedBy, StoreAll, Unlist, List, Track;
    var before := Model.Run(events);
    var connected := Model.Run(events + [Connected(block, h)]);
    RunSnoc(events, Connected(block, h));
    RunSnoc(events + [Connected(block, h)], Restored(tx.txid));
    RunSnoc(events + [Connected(block, h)] + [Restored(tx.txid)], Disconnected(h));
    MinedItem(block, tx);
    StepsMine(Cursor(before.ix, 0), h, Items(block));
    StoredAll(before.txs, block);
    AlwaysListed(events + [Connected(block, h)]);
    RestoredThenLost(connected, tx.txid, h, st');
  }

  // ---- Undo on the whole state --------------------------------------------------------------

  lemma {:induction false} StepsMineOnly(c: Cursor, h: nat, items: seq<Item>, txids: set<Txid>)
    requires forall item | item in items :: item.txid in txids
    ensures MinedBy(Get(Steps(c, h, items).ix.byHeight, h)) <= MinedBy(Get(c.ix.byHeight, h)) + txids
  {
    hide MinedBy, Step;
    if items != [] {
      var rest, last := items[..|items| - 1], items[|items| - 1];
      StepsMineOnly(c, h, rest, txids);
      StepMinesOnly(Steps(c, h, rest), h, last);
    }
  }

  lemma StepMinesOnly(c: Cursor, h: nat, item: Item)
    ensures MinedBy(Get(Step(c, h, item).ix.byHeight, h)) <= MinedBy(Get(c.ix.byHeight, h)) + {item.txid}
  {
    match item
    case TxItem(_) =>
    case InItem(_, _, _) =>
    case OutItem(_, _, _) =>
  }

  /** At a height without records, the journal knows exactly the block's transactions as mined. */
  lemma MinedAreBlock(ix: Index, block: Block, h: nat)
    requires h !in ix.byHeight
    ensures MinedBy(Get(Apply(ix, block, h).byHeight, h)) == Txids(block)
  {
    hide Steps, Items;
    var c := Cursor(ix, 0);
    Reorg.ItemTxids(block);
    StepsMineOnly(c, h, Items(block), Txids(block));
    StepsMine(c, h, Items(block));
    forall id | id in Txids(block) ensures id in MinedBy(Get(Apply(ix, block, h).byHeight, h)) {
      var tx :| tx in block && tx.txid == id;
      MinedItem(block, tx);
    }
  }

  /**
   * Connecting a block on top of its parent and disconnecting it again: the confirmed index is back,
   * and the block's transactions are gone from the pool, from its stored list and from the raw ones.
   */
  lemma UndoneState(naming: Naming, st: State, block: Block, h: nat)
    requires Connectable(naming, st.ix, block, h) && SpendsLive(st.ix, block)
    requires st.ix.tip == SaturatingPred(h)
    ensures Disconnect(Connect(st, block, h), h) == Remove(st, Txids(block)).(txs := st.txs - Txids(block))
  {
    hide Rollback, Apply, MinedBy, StoreAll, Unlist, Txids, Connectable, SpendsLive;
    ExactUndo(naming, st.ix, block, h);
    ConnectableFree(naming, st.ix, block, h);
    MinedAreBlock(st.ix, block, h);
    StoredAll(st.txs, block);
    assert StoreAll(st.txs, block) - Txids(block) == st.txs - Txids(block);
  }

  lemma ConnectableFree(naming: Naming, ix: Index, block: Block, h: nat)
    requires Connectable(naming, ix, block, h)
    ensures h !in ix.byHeight
  {
  }
}
