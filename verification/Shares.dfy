/** What the per-script queries answer on the index of a valid chain: that script's share of the ledger. */
module Shares {
  import opened Chain
  import opened Chronicle
  import opened Confirmed
  import opened Queries
  import opened Reorg
  import opened Sums

  /** The unspent outpoints of a script hash on a ledger. */
  function Share(ledger: Ledger, sh: ScriptHash): set<OutPoint> {
    set o | o in ledger && ledger[o].scriptHash == sh
  }

  function LedgerValue(ledger: Ledger, o: OutPoint): u64 {
    if o in ledger then ledger[o].value else 0
  }

  /** The height of the block of the chain that has the transaction. */
  function HeightIn(base: nat, chain: seq<Block>, txid: Txid): nat {
    if chain == [] then 0
    else if txid in Txids(chain[|chain| - 1]) then base + |chain| - 1
    else HeightIn(base, chain[..|chain| - 1], txid)
  }

  /** What should be listed for a script hash: its ledger entries at the heights of their blocks. */
  function ShareUnspent(base: nat, chain: seq<Block>, ledger: Ledger, sh: ScriptHash): set<Unspent> {
    set o | o in Share(ledger, sh) :: Unspent(o, ledger[o].value, HeightIn(base, chain, o.txid))
  }

  ghost function Owing(ledger: Ledger): OutPoint -> int {
    o => LedgerValue(ledger, o)
  }

  lemma ShareKeys(outputs: map<OutPoint, Output>, utxos: map<UtxoKey, u64>, ledger: Ledger, sh: ScriptHash)
    requires Matches(outputs, utxos, ledger)
    ensures Outpoints(ScriptKeys(utxos, sh)) == Share(ledger, sh)
  {
    forall o | o in Share(ledger, sh) ensures o in Outpoints(ScriptKeys(utxos, sh)) {
      assert UtxoKey(sh, o) in ScriptKeys(utxos, sh);
    }
  }

  lemma ShareTotal(outputs: map<OutPoint, Output>, utxos: map<UtxoKey, u64>, ledger: Ledger, sh: ScriptHash)
    requires Matches(outputs, utxos, ledger)
    ensures ConfirmedTotal(utxos, sh) == Sum(Share(ledger, sh), Owing(ledger))
  {
    var m := (k: UtxoKey) => k.outpoint;
    var keys := ScriptKeys(utxos, sh);
    ShareKeys(outputs, utxos, ledger, sh);
    forall k, l | k in keys && l in keys && m(k) == m(l) ensures k == l {
      assert k.scriptHash == sh && l.scriptHash == sh;
    }
    SumImage(keys, m, Share(ledger, sh), Owing(ledger), Holding(utxos));
  }

  lemma {:induction false} PlacedHeight(naming: Naming, base: nat, chain: seq<Block>, p: Placed)
    requires ValidChain(naming, chain) && p in ChainPlaced(base, chain)
    ensures HeightIn(base, chain, p.tx.txid) == p.height
    ensures exists j :: 0 <= j < |chain| && p.height == base + j && p.tx in chain[j]
  {
    hide LedgerOf, Items, BlockNamed, DistinctTxids;
    var rest, block := chain[..|chain| - 1], chain[|chain| - 1];
    PlacedTxids(base, rest);
    PlacedInChain(base, chain, p);
    if p in ChainPlaced(base, rest) {
      PlacedHeight(naming, base, rest, p);
    }
  }

  /** After any stack-ordered run each output record has the height of the surviving block that creates it. */
  lemma RecordHeights(naming: Naming, base: nat, events: seq<BlockEvent>, o: OutPoint)
    requires StackOrdered(naming, base, events) && o in Run(events).outputs
    ensures var chain, height := Survivors(events), Run(events).outputs[o].height;
      && HeightIn(base, chain, o.txid) == height
      && exists j :: 0 <= j < |chain| && height == base + j && o.txid in Txids(chain[j])
  {
    hide StackOrdered, Survivors, Run, ChainPlaced, SaysUtxos, SaysKeys, IndexChain, ValidChain;
    var chain, ix := Survivors(events), Run(events);
    var ps := ChainPlaced(base, chain);
    ReorgRefinement(naming, base, events);
    RunChronicled(naming, base, events);
    assert CreatedIn(ps, o, ix.outputs[o]);
    var n :| 0 <= n < |ps| && ps[n].height == ix.outputs[o].height && ps[n].tx.txid == o.txid;
    PlacedHeight(naming, base, chain, ps[n]);
    var j :| 0 <= j < |chain| && ps[n].height == base + j && ps[n].tx in chain[j];
    assert o.txid in Txids(chain[j]);
  }

  /** Balance and unspent outputs of a script hash after any stack-ordered run, against the surviving chain's ledger. */
  lemma ScriptShare(naming: Naming, base: nat, events: seq<BlockEvent>, sh: ScriptHash)
    requires StackOrdered(naming, base, events)
    ensures var ix, chain := Run(events), Survivors(events);
      var ledger := LedgerOf(chain);
      && Balance(ix.utxos, sh) == Min(U64_MAX, Sum(Share(ledger, sh), Owing(ledger)))
      && (set k | k in ScriptKeys(ix.utxos, sh) :: UnspentOf(ix.utxos, ix.outputs, k))
         == ShareUnspent(base, chain, ledger, sh)
      && Share(ledger, sh) <= ix.outputs.Keys
  {
    hide Run, StackOrdered, Survivors, LedgerOf, IndexChain, ValidChain, Sum, Coupled, OutputsNamed, Below, HeightIn,
         Txids;
    var ix, chain := Run(events), Survivors(events);
    var ledger := LedgerOf(chain);
    ReorgRefinement(naming, base, events);
    ChainIndexed(naming, base, chain);
    assert Matches(ix.outputs, ix.utxos, ledger);
    ShareTotal(ix.outputs, ix.utxos, ledger, sh);
    forall o | o in ix.outputs ensures ix.outputs[o].height == HeightIn(base, chain, o.txid) {
      RecordHeights(naming, base, events, o);
    }
    SharedUnspent(base, chain, ix.outputs, ix.utxos, ledger, sh);
  }

  lemma SharedUnspent(base: nat, chain: seq<Block>, outputs: map<OutPoint, Output>, utxos: map<UtxoKey, u64>,
                      ledger: Ledger, sh: ScriptHash)
    requires Matches(outputs, utxos, ledger)
    requires forall o | o in outputs :: outputs[o].height == HeightIn(base, chain, o.txid)
    ensures (set k | k in ScriptKeys(utxos, sh) :: UnspentOf(utxos, outputs, k))
         == ShareUnspent(base, chain, ledger, sh)
    ensures Share(ledger, sh) <= outputs.Keys
  {
    hide HeightIn;
    forall o | o in Share(ledger, sh)
      ensures UtxoKey(sh, o) in ScriptKeys(utxos, sh)
      ensures UnspentOf(utxos, outputs, UtxoKey(sh, o))
           == Unspent(o, ledger[o].value, HeightIn(base, chain, o.txid))
    {
    }
  }
}
