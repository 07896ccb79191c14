/** The accounting law on reachable states: what its premises mean after a stack-ordered run. */
module Accounts {
  import opened Chain
  import opened Confirmed
  import opened Limits
  import opened Model
  import opened Pending
  import opened Queries
  import opened Reorg

  lemma MinedGrows(ix: Index, block: Block, h: nat)
    requires h !in ix.byHeight
    ensures Mined(ix) + Txids(block) <= Mined(Apply(ix, block, h))
  {
    hide Steps, Items, Txids, MinedBy;
    var acts := StepsNumbered(ix, h, Items(block));
    MinedAreBlock(ix, block, h);
    MinedAt(Apply(ix, block, h), h);
    assert forall g | g in ix.byHeight :: Apply(ix, block, h).byHeight[g] == ix.byHeight[g];
  }

  /** The journal of a valid chain's index knows all transactions of the chain as mined. */
  lemma {:induction false} ChainMined(naming: Naming, base: nat, chain: seq<Block>)
    requires ValidChain(naming, chain)
    ensures ChainTxids(chain) <= Mined(IndexChain(base, chain))
  {
    hide Apply, Mined, Txids, ValidNext, Coupled, OutputsNamed, Matches, CreatedBy, LedgerOf;
    if chain != [] {
      var rest, block := chain[..|chain| - 1], chain[|chain| - 1];
      ChainMined(naming, base, rest);
      ChainIndexed(naming, base, rest);
      MinedGrows(IndexChain(base, rest), block, base + |rest|);
    }
  }

  lemma TipKeepsMined(ix: Index, tip: nat)
    ensures Mined(ix.(tip := tip)) == Mined(ix)
  {
  }

  lemma CreatedApart(ix: Index, pool: Pool, txids: set<Txid>)
    requires CreatedBy(ix, txids) && txids <= Mined(ix) && pool.Keys !! Mined(ix)
    ensures Disjoint(pool, ix.outputs)
  {
    hide Mined;
  }

  /** After a stack-ordered run, a pool apart from the journal has none of the stored outputs. */
  lemma RunDisjoint(naming: Naming, base: nat, events: seq<Event>)
    requires StackOrdered(naming, base, BlockEvents(events))
    requires Model.Run(events).pool.Keys !! Mined(Model.Run(events).ix)
    ensures Disjoint(Model.Run(events).pool, Model.Run(events).ix.outputs)
  {
    hide StackOrdered, Model.Run, Reorg.Run, Survivors, ValidChain, IndexChain, ChainTxids, Mined, Sound, Below,
         Matches, CreatedBy, LedgerOf, BlockEvents, Disjoint;
    var st, chain := Model.Run(events), Survivors(BlockEvents(events));
    RunIndex(events);
    ReorgRefinement(naming, base, BlockEvents(events));
    ChainIndexed(naming, base, chain);
    ChainMined(naming, base, chain);
    TipKeepsMined(IndexChain(base, chain), st.ix.tip);
    TipCreated(IndexChain(base, chain), st.ix.tip, ChainTxids(chain));
    CreatedApart(st.ix, st.pool, ChainTxids(chain));
  }

  lemma TipCreated(ix: Index, tip: nat, txids: set<Txid>)
    requires CreatedBy(ix, txids)
    ensures CreatedBy(ix.(tip := tip), txids)
  {
  }

  /** The stored outputs that the pool spends are unspent on the ledger. */
  ghost predicate SpendsLedger(pool: Pool, outputs: map<OutPoint, Output>, ledger: Ledger) {
    forall o | o in SpentBy(pool) && o in outputs :: o in ledger
  }

  lemma MatchedSpends(pool: Pool, outputs: map<OutPoint, Output>, utxos: map<UtxoKey, u64>, ledger: Ledger)
    requires Matches(outputs, utxos, ledger)
    ensures SpendsUnspent(pool, outputs, utxos) <==> SpendsLedger(pool, outputs, ledger)
  {
    hide SpentBy;
  }

  /** After any stack-ordered run the pool spends live outputs exactly when it spends outputs of the ledger. */
  lemma RunSpendsUnspent(naming: Naming, base: nat, events: seq<Event>)
    requires StackOrdered(naming, base, BlockEvents(events))
    ensures var st := Model.Run(events);
      && Coupled(st.ix.outputs, st.ix.utxos)
      && (SpendsUnspent(st.pool, st.ix.outputs, st.ix.utxos)
          <==> SpendsLedger(st.pool, st.ix.outputs, LedgerOf(Survivors(BlockEvents(events)))))
  {
    hide StackOrdered, Model.Run, Reorg.Run, Survivors, ValidChain, IndexChain, ChainTxids, OutputsNamed, Coupled,
         Below, Matches, CreatedBy, LedgerOf, BlockEvents, SpendsUnspent, SpendsLedger;
    var st, chain := Model.Run(events), Survivors(BlockEvents(events));
    RunIndex(events);
    ReorgRefinement(naming, base, BlockEvents(events));
    ChainIndexed(naming, base, chain);
    MatchedSpends(st.pool, st.ix.outputs, st.ix.utxos, LedgerOf(chain));
  }

  /** The accounting law after a stack-ordered run, for a pool apart from the journal that spends ledger outputs. */
  lemma RunAccounting(naming: Naming, base: nat, events: seq<Event>, sh: ScriptHash, out: seq<Unspent>)
    requires StackOrdered(naming, base, BlockEvents(events))
    requires var st := Model.Run(events);
      && st.pool.Keys !! Mined(st.ix)
      && SpendsLedger(st.pool, st.ix.outputs, LedgerOf(Survivors(BlockEvents(events))))
      && Funds(st.ix.utxos, st.pool, sh) < TWO_63
      && IsUnspent(st.ix.utxos, st.ix.outputs, st.pool, sh, out)
    ensures var st := Model.Run(events);
      TotalUnspent(out)
      == Balance(st.ix.utxos, sh) + Delta(st.pool, st.ix.outputs, sh) + ChainedValue(st.pool, sh)
  {
    hide *;
    var st := Model.Run(events);
    RunDisjoint(naming, base, events);
    RunSpendsUnspent(naming, base, events);
    BalanceAccounting(st.ix.outputs, st.ix.utxos, st.pool, sh, out);
  }

  /** Timely runs keep the pool apart from the journal, so for them the law needs no premise about that. */
  lemma TimelyAccounting(naming: Naming, base: nat, events: seq<Event>, sh: ScriptHash, out: seq<Unspent>)
    requires StackOrdered(naming, base, BlockEvents(events)) && TimelyRun(events)
    requires var st := Model.Run(events);
      && SpendsLedger(st.pool, st.ix.outputs, LedgerOf(Survivors(BlockEvents(events))))
      && Funds(st.ix.utxos, st.pool, sh) < TWO_63
      && IsUnspent(st.ix.utxos, st.ix.outputs, st.pool, sh, out)
    ensures var st := Model.Run(events);
      TotalUnspent(out)
      == Balance(st.ix.utxos, sh) + Delta(st.pool, st.ix.outputs, sh) + ChainedValue(st.pool, sh)
  {
    hide *;
    AlwaysSettled(events);
    SettledApart(Model.Run(events));
    RunAccounting(naming, base, events, sh, out);
  }

  lemma SettledApart(st: State)
    requires Settled(st)
    ensures st.pool.Keys !! Mined(st.ix)
  {
  }
}
