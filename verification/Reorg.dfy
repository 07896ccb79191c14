/**
 * Runs of connects and disconnects: what holds in any order of events, and the refinement of a
 * plain ledger when events arrive in stack order.
 */
module Reorg {
  import opened Chain
  import opened Confirmed

  datatype BlockEvent = Connected(block: Block, height: nat) | Disconnected(height: nat)

  function Next(ix: Index, event: BlockEvent): Index {
    match event
    case Connected(block, h) => Apply(ix, block, h)
    case Disconnected(h) => Rollback(ix, h)
  }

  function Run(events: seq<BlockEvent>): Index {
    if events == [] then EMPTY else Next(Run(events[..|events| - 1]), events[|events| - 1])
  }

  /** The same from any index, such as one that a reopened store gives back. */
  function RunOn(ix: Index, events: seq<BlockEvent>): Index {
    if events == [] then ix else Next(RunOn(ix, events[..|events| - 1]), events[|events| - 1])
  }

  // ---- Any order of events ------------------------------------------------------------------

  ghost predicate EventNamed(naming: Naming, event: BlockEvent) {
    event.Connected? ==> BlockNamed(naming, event.block)
  }

  lemma NextSound(naming: Naming, ix: Index, event: BlockEvent)
    requires Sound(naming, ix) && EventNamed(naming, event)
    ensures Sound(naming, Next(ix, event))
  {
    match event
    case Connected(block, h) =>
      ItemsNamed(naming, block);
      StepsSound(naming, Cursor(ix, 0), h, Items(block));
    case Disconnected(h) =>
      if h in ix.byHeight {
        UndoAllSound(naming, ix.(byHeight := ix.byHeight - {h}), ix.byHeight[h]);
      }
  }

  /** However connects and disconnects are ordered, every unspent entry has its output record. */
  lemma {:induction false} AlwaysSound(naming: Naming, events: seq<BlockEvent>)
    requires forall e | e in events :: EventNamed(naming, e)
    ensures Sound(naming, Run(events))
  {
    if events != [] {
      AlwaysSound(naming, events[..|events| - 1]);
      NextSound(naming, Run(events[..|events| - 1]), events[|events| - 1]);
    }
  }

  // ---- The ledger ---------------------------------------------------------------------------

  type Ledger = map<OutPoint, TxOut>

  function LedgerStep(ledger: Ledger, item: Item): Ledger {
    match item
    case TxItem(_) => ledger
    case InItem(_, _, prevout) => if prevout == NULL_OUTPOINT then ledger else ledger - {prevout}
    case OutItem(txid, index, output) => ledger[OutPoint(txid, index) := output]
  }

  function LedgerSteps(ledger: Ledger, items: seq<Item>): Ledger {
    if items == [] then ledger
    else LedgerStep(LedgerSteps(ledger, items[..|items| - 1]), items[|items| - 1])
  }

  /** Created minus spent, over a whole chain. */
  function LedgerOf(chain: seq<Block>): Ledger {
    if chain == [] then map[]
    else LedgerSteps(LedgerOf(chain[..|chain| - 1]), Items(chain[|chain| - 1]))
  }

  /** `utxos` is the ledger: the same outpoints, each under its own script hash and value. */
  ghost predicate Matches(outputs: map<OutPoint, Output>, utxos: map<UtxoKey, u64>, ledger: Ledger) {
    && (forall o | o in ledger ::
          && o in outputs
          && ledger[o] == TxOut(outputs[o].scriptHash, outputs[o].value)
          && UtxoKey(ledger[o].scriptHash, o) in utxos)
    && (forall k | k in utxos :: k.outpoint in ledger && ledger[k.outpoint] == TxOut(k.scriptHash, utxos[k]))
  }

  lemma StepMatches(naming: Naming, outputs: map<OutPoint, Output>, utxos: map<UtxoKey, u64>,
                    h: nat, item: Item, ledger: Ledger)
    requires OutputsNamed(naming, outputs) && ItemNamed(naming, item) && Matches(outputs, utxos, ledger)
    ensures Matches(StepOutputs(outputs, h, item), StepUtxos(outputs, utxos, item), LedgerStep(ledger, item))
  {
    match item
    case TxItem(_) =>
    case InItem(_, _, _) =>
    case OutItem(_, _, _) =>
  }

  lemma {:induction false} StepsMatch(naming: Naming, c: Cursor, h: nat, items: seq<Item>, ledger: Ledger)
    requires Sound(naming, c.ix) && AllNamed(naming, items) && Matches(c.ix.outputs, c.ix.utxos, ledger)
    ensures var ix := Steps(c, h, items).ix; Matches(ix.outputs, ix.utxos, LedgerSteps(ledger, items))
  {
    hide Matches, Coupled, OutputsNamed, StepJournal, StepOutputs, StepUtxos, LedgerStep, ItemNamed;
    if items != [] {
      var rest := items[..|items| - 1];
      StepsMatch(naming, c, h, rest, ledger);
      StepsSound(naming, c, h, rest);
      var ix := Steps(c, h, rest).ix;
      StepMatches(naming, ix.outputs, ix.utxos, h, items[|items| - 1], LedgerSteps(ledger, rest));
    }
  }

  // ---- Valid chains -------------------------------------------------------------------------

  function ChainTxids(chain: seq<Block>): set<Txid> {
    if chain == [] then {} else ChainTxids(chain[..|chain| - 1]) + Txids(chain[|chain| - 1])
  }

  /** A block of new, distinct transactions that spends outputs of the chain only while they are unspent. */
  ghost predicate ValidNext(naming: Naming, chain: seq<Block>, block: Block) {
    && BlockNamed(naming, block)
    && DistinctTxids(block)
    && Txids(block) !! ChainTxids(chain)
    && (forall o | o in Prevouts(Items(block)) && o.txid in ChainTxids(chain) :: o in LedgerOf(chain))
  }

  ghost predicate ValidChain(naming: Naming, chain: seq<Block>) {
    chain != [] ==>
      && ValidChain(naming, chain[..|chain| - 1])
      && ValidNext(naming, chain[..|chain| - 1], chain[|chain| - 1])
  }

  /** A fresh index of a chain whose first block has height `base`. */
  function IndexChain(base: nat, chain: seq<Block>): Index {
    if chain == [] then EMPTY
    else Apply(IndexChain(base, chain[..|chain| - 1]), chain[|chain| - 1], base + |chain| - 1)
  }

  /** Every record is below height `n`, and no script hash has an empty history. */
  ghost predicate Below(ix: Index, n: nat) {
    && (forall h | h in ix.byHeight :: h < n)
    && (forall k | k in ix.journal :: k.height < n)
    && (forall k | k in ix.stored :: k.height < n)
    && (forall sh | sh in ix.history :: ix.history[sh] != [] && forall e | e in ix.history[sh] :: e.height < n)
  }

  ghost predicate CreatedBy(ix: Index, txids: set<Txid>) {
    forall o | o in ix.outputs :: o.txid in txids
  }

  lemma {:induction false} StepsBelow(ix: Index, h: nat, items: seq<Item>, txids: set<Txid>)
    requires Below(ix, h) && CreatedBy(ix, txids)
    requires forall item | item in items :: item.txid in txids
    ensures Below(Steps(Cursor(ix, 0), h, items).ix, h + 1)
    ensures CreatedBy(Steps(Cursor(ix, 0), h, items).ix, txids)
  {
    hide Below, CreatedBy, Step;
    if items == [] {
      BelowNext(ix, h);
    } else {
      StepsBelow(ix, h, items[..|items| - 1], txids);
      StepBelow(Steps(Cursor(ix, 0), h, items[..|items| - 1]), h, items[|items| - 1], txids);
    }
  }

  lemma BelowNext(ix: Index, n: nat)
    requires Below(ix, n)
    ensures Below(ix, n + 1)
  {
  }

  lemma StepBelow(c: Cursor, h: nat, item: Item, txids: set<Txid>)
    requires Below(c.ix, h + 1) && CreatedBy(c.ix, txids) && item.txid in txids
    ensures Below(Step(c, h, item).ix, h + 1) && CreatedBy(Step(c, h, item).ix, txids)
  {
  }

  lemma {:induction false} ItemTxids(block: Block)
    ensures forall item | item in Items(block) :: item.txid in Txids(block)
  {
    if block != [] {
      var rest, last := block[..|block| - 1], block[|block| - 1];
      ItemTxids(rest);
      assert Txids(rest) <= Txids(block) && last in block;
    }
  }

  /** The confirmed index of a valid chain: ready for the next block and equal to the ledger. */
  ghost predicate Indexes(naming: Naming, base: nat, chain: seq<Block>, ix: Index) {
    && Sound(naming, ix)
    && Below(ix, base + |chain|)
    && CreatedBy(ix, ChainTxids(chain))
    && Matches(ix.outputs, ix.utxos, LedgerOf(chain))
  }

  lemma NextIndexed(naming: Naming, base: nat, chain: seq<Block>, ix: Index, block: Block)
    requires Indexes(naming, base, chain, ix) && BlockNamed(naming, block)
    ensures Indexes(naming, base, chain + [block], Apply(ix, block, base + |chain|))
  {
    hide Coupled, OutputsNamed, BlockNamed, Below, Matches, Steps, LedgerSteps, AllNamed, Items, Txids;
    var h, items, txids := base + |chain|, Items(block), ChainTxids(chain) + Txids(block);
    assert (chain + [block])[..|chain|] == chain;
    ItemsNamed(naming, block);
    StepsSound(naming, Cursor(ix, 0), h, items);
    StepsMatch(naming, Cursor(ix, 0), h, items, LedgerOf(chain));
    ItemTxids(block);
    StepsBelow(ix, h, items, txids);
    TipIrrelevant(Steps(Cursor(ix, 0), h, items).ix, h, h + 1);
  }

  lemma TipIrrelevant(ix: Index, t: nat, n: nat)
    requires Below(ix, n)
    ensures Below(ix.(tip := t), n)
  {
  }

  lemma ChainLast(naming: Naming, base: nat, chain: seq<Block>)
    requires ValidChain(naming, chain) && chain != []
    ensures var rest, block := chain[..|chain| - 1], chain[|chain| - 1];
      && ValidChain(naming, rest) && ValidNext(naming, rest, block) && BlockNamed(naming, block)
      && IndexChain(base, chain) == Apply(IndexChain(base, rest), block, base + |rest|)
  {
    hide Apply, DistinctTxids, ChainTxids, LedgerOf, Prevouts, Items;
  }

  lemma {:induction false} ChainIndexed(naming: Naming, base: nat, chain: seq<Block>)
    requires ValidChain(naming, chain)
    ensures Indexes(naming, base, chain, IndexChain(base, chain))
  {
    hide *;
    if chain == [] {
      NothingIndexed(naming, base);
    } else {
      var rest, block := chain[..|chain| - 1], chain[|chain| - 1];
      ChainLast(naming, base, chain);
      ChainIndexed(naming, base, rest);
      NextIndexed(naming, base, rest, IndexChain(base, rest), block);
      assert chain == rest + [block];
    }
  }

  lemma NothingIndexed(naming: Naming, base: nat)
    ensures Indexes(naming, base, [], IndexChain(base, []))
  {
  }

  lemma NewConnectable(naming: Naming, base: nat, chain: seq<Block>, ix: Index, block: Block)
    requires Indexes(naming, base, chain, ix)
    requires BlockNamed(naming, block) && Txids(block) !! ChainTxids(chain)
    ensures Connectable(naming, ix, block, base + |chain|)
  {
    ItemTxids(block);
  }

  lemma NextConnectable(naming: Naming, base: nat, chain: seq<Block>, ix: Index, block: Block)
    requires Indexes(naming, base, chain, ix) && ValidNext(naming, chain, block)
    ensures Connectable(naming, ix, block, base + |chain|) && SpendsLive(ix, block)
    ensures Coupled(ix.outputs, ix.utxos)
  {
    ItemTxids(block);
  }

  // ---- Stack-ordered runs -------------------------------------------------------------------

  /** The blocks still connected after a stack-ordered run. */
  function Survivors(events: seq<BlockEvent>): seq<Block> {
    if events == [] then []
    else
      var chain := Survivors(events[..|events| - 1]);
      match events[|events| - 1]
      case Connected(block, _) => chain + [block]
      case Disconnected(_) => if chain == [] then [] else chain[..|chain| - 1]
  }

  /** Connects extend the chain by a valid block at the next height; disconnects remove its last block. */
  ghost predicate StackOrdered(naming: Naming, base: nat, events: seq<BlockEvent>) {
    events != [] ==>
      var before := events[..|events| - 1];
      var chain := Survivors(before);
      && StackOrdered(naming, base, before)
      && match events[|events| - 1]
         case Connected(block, h) => h == base + |chain| && ValidNext(naming, chain, block)
         case Disconnected(h) => chain != [] && h == base + |chain| - 1
  }

  lemma StepIgnoresTip(c: Cursor, h: nat, item: Item, t: nat)
    ensures Step(c.(ix := c.ix.(tip := t)), h, item)
         == Step(c, h, item).(ix := Step(c, h, item).ix.(tip := t))
  {
    match item
    case TxItem(_) =>
    case InItem(_, _, _) =>
    case OutItem(_, _, _) =>
  }

  lemma {:induction false} StepsIgnoreTip(c: Cursor, h: nat, items: seq<Item>, t: nat)
    ensures Steps(c.(ix := c.ix.(tip := t)), h, items)
         == Steps(c, h, items).(ix := Steps(c, h, items).ix.(tip := t))
  {
    hide Step;
    if items != [] {
      StepsIgnoreTip(c, h, items[..|items| - 1], t);
      StepIgnoresTip(Steps(c, h, items[..|items| - 1]), h, items[|items| - 1], t);
    }
  }

  lemma ApplyIgnoresTip(ix: Index, block: Block, h: nat, t: nat)
    ensures Apply(ix.(tip := t), block, h) == Apply(ix, block, h)
  {
    StepsIgnoreTip(Cursor(ix, 0), h, Items(block), t);
  }

  /** Disconnecting the last block of a valid chain gives back the index of the chain before it. */
  lemma DisconnectLast(naming: Naming, base: nat, rest: seq<Block>, block: Block)
    requires ValidChain(naming, rest) && ValidNext(naming, rest, block)
    ensures var ix, h := IndexChain(base, rest), base + |rest|;
      Rollback(Apply(ix, block, h), h) == ix.(tip := SaturatingPred(h))
  {
    hide ValidChain, IndexChain, Indexes, Connectable, SpendsLive, ValidNext, Apply, Rollback, Revived, Coupled;
    var ix := IndexChain(base, rest);
    ChainIndexed(naming, base, rest);
    NextConnectable(naming, base, rest, ix, block);
    UndoFormula(naming, ix, block, base + |rest|);
    LiveUnchanged(ix, block);
  }

  /**
   * After any stack-ordered run the index equals the fresh index of the surviving chain. Only when
   * every block has been disconnected can the tip differ: it is then 0 or the parent of `base`.
   */
  lemma {:induction false} ReorgRefinement(naming: Naming, base: nat, events: seq<BlockEvent>)
    requires StackOrdered(naming, base, events)
    ensures var chain := Survivors(events);
      var ix := Run(events);
      && ValidChain(naming, chain)
      && ix == IndexChain(base, chain).(tip := ix.tip)
      && (if chain == [] then ix.tip in {0, SaturatingPred(base)} else ix.tip == base + |chain| - 1)
  {
    hide ValidNext, Apply, Rollback;
    if events != [] {
      var before := events[..|events| - 1];
      var chain, ix := Survivors(before), Run(before);
      ReorgRefinement(naming, base, before);
      match events[|events| - 1]
      case Connected(block, h) =>
        assert (chain + [block])[..|chain|] == chain;
        ApplyIgnoresTip(IndexChain(base, chain), block, h, ix.tip);
        AppliedTip(ix, block, h);
      case Disconnected(h) =>
        ChainTip(base, chain);
        DisconnectLast(naming, base, chain[..|chain| - 1], chain[|chain| - 1]);
    }
  }

  lemma AppliedTip(ix: Index, block: Block, h: nat)
    ensures Apply(ix, block, h).tip == h
  {
  }

  lemma ChainTip(base: nat, chain: seq<Block>)
    requires chain != []
    ensures IndexChain(base, chain).tip == base + |chain| - 1
  {
  }
}
