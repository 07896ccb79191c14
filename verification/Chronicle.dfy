/**
 * What the confirmed index means: its outputs, unspent entries and history, read off the transactions
 * of the chain in their order and nothing else.
 */
module Chronicle {
  import opened Chain
  import opened Confirmed
  import opened Pending
  import opened Reorg
  import Restart

  /** A confirmed transaction at its height. */
  datatype Placed = Placed(height: nat, tx: Tx)

  function BlockPlaced(h: nat, block: Block): seq<Placed> {
    seq(|block|, i requires 0 <= i < |block| => Placed(h, block[i]))
  }

  /** All transactions of the chain in order. */
  function ChainPlaced(base: nat, chain: seq<Block>): seq<Placed> {
    if chain == [] then []
    else ChainPlaced(base, chain[..|chain| - 1]) + BlockPlaced(base + |chain| - 1, chain[|chain| - 1])
  }

  // ---- What a chain of transactions says --------------------------------------------------

  predicate Pays(tx: Tx, o: OutPoint, out: TxOut) {
    tx.txid == o.txid && o.vout < |tx.outputs| && tx.outputs[o.vout] == out
  }

  predicate PaysScript(tx: Tx, o: OutPoint, sh: ScriptHash) {
    tx.txid == o.txid && o.vout < |tx.outputs| && tx.outputs[o.vout].scriptHash == sh
  }

  /** Some transaction creates the outpoint, with that script hash and value, at that height. */
  ghost predicate CreatedIn(ps: seq<Placed>, o: OutPoint, r: Output) {
    exists n :: 0 <= n < |ps| && ps[n].height == r.height && Pays(ps[n].tx, o, TxOut(r.scriptHash, r.value))
  }

  /** Some transaction creates the outpoint and no later one spends it. */
  ghost predicate UnspentIn(ps: seq<Placed>, o: OutPoint, out: TxOut) {
    exists n :: 0 <= n < |ps| && Pays(ps[n].tx, o, out) && forall m | n < m < |ps| :: o !in Spends(ps[m].tx)
  }

  /** Some transaction creates the outpoint for that script hash. */
  ghost predicate PaidTo(ps: seq<Placed>, o: OutPoint, sh: ScriptHash) {
    exists n :: 0 <= n < |ps| && PaysScript(ps[n].tx, o, sh)
  }

  predicate IsFunding(p: Placed, k: HistoryKey) {
    && k.kind == Fund && p.height == k.height && p.tx.txid == k.txid
    && k.sequence < |p.tx.outputs| && p.tx.outputs[k.sequence].scriptHash == k.scriptHash
  }

  /** The history key names an input that spends what an earlier transaction paid to the script hash. */
  ghost predicate IsSpending(before: seq<Placed>, p: Placed, k: HistoryKey) {
    && k.kind == Spend && p.height == k.height && p.tx.txid == k.txid
    && k.sequence < |p.tx.inputs| && p.tx.inputs[k.sequence] != NULL_OUTPOINT
    && PaidTo(before, p.tx.inputs[k.sequence], k.scriptHash)
  }

  /** The history keys of a chain: an output at its index, a known spend at the index of its input. */
  ghost predicate InHistory(ps: seq<Placed>, k: HistoryKey) {
    exists n :: 0 <= n < |ps| && (IsFunding(ps[n], k) || IsSpending(ps[..n], ps[n], k))
  }

  ghost predicate SaysOutputs(ps: seq<Placed>, outputs: map<OutPoint, Output>) {
    forall o, r :: o in outputs && outputs[o] == r <==> CreatedIn(ps, o, r)
  }

  ghost predicate SaysUtxos(ps: seq<Placed>, utxos: map<UtxoKey, u64>) {
    forall k: UtxoKey, v: u64 ::
      k in utxos && utxos[k] == v <==> UnspentIn(ps, k.outpoint, TxOut(k.scriptHash, v))
  }

  ghost predicate SaysKeys(ps: seq<Placed>, stored: set<HistoryKey>) {
    forall k :: k in stored <==> InHistory(ps, k)
  }

  /** The three trees say what the transactions say. */
  ghost predicate Chronicled(ps: seq<Placed>, ix: Index) {
    SaysOutputs(ps, ix.outputs) && SaysUtxos(ps, ix.utxos) && SaysKeys(ps, ix.stored)
  }

  // ---- One transaction --------------------------------------------------------------------

  function SpendsUpTo(tx: Tx, n: nat): set<OutPoint>
    requires n <= |tx.inputs|
  {
    set i | 0 <= i < n && tx.inputs[i] != NULL_OUTPOINT :: tx.inputs[i]
  }

  /** Input `i` of `tx` files the key `k`. */
  predicate SpendKey(outputs: map<OutPoint, Output>, h: nat, tx: Tx, k: HistoryKey) {
    && k.kind == Spend && k.height == h && k.txid == tx.txid && k.sequence < |tx.inputs|
    && Known(outputs, tx.inputs[k.sequence]) && outputs[tx.inputs[k.sequence]].scriptHash == k.scriptHash
  }

  /** The first `n` inputs of `tx` lead from one state of the trees to the other. */
  ghost predicate TookUtxos(outputs: map<OutPoint, Output>, from: map<UtxoKey, u64>, to: map<UtxoKey, u64>,
                            gone: set<OutPoint>)
  {
    && (forall k :: k in to <==> (k in from && !(k.outpoint in gone && k.outpoint in outputs
                                               && outputs[k.outpoint].scriptHash == k.scriptHash)))
    && (forall k | k in to :: to[k] == from[k])
  }

  ghost predicate TookKeys(outputs: map<OutPoint, Output>, from: set<HistoryKey>, to: set<HistoryKey>, h: nat,
                           tx: Tx, n: nat)
  {
    forall k :: k in to <==> (k in from || (k.sequence < n && SpendKey(outputs, h, tx, k)))
  }

  lemma StepStored(c: Cursor, h: nat, item: Item)
    ensures Step(c, h, item).ix.stored == c.ix.stored + match item
      case TxItem(_) => {}
      case InItem(txid, i, o) =>
        if Known(c.ix.outputs, o) then {HistoryKey(c.ix.outputs[o].scriptHash, h, Spend, txid, i)} else {}
      case OutItem(txid, i, out) => {HistoryKey(out.scriptHash, h, Fund, txid, i)}
  {
  }

  lemma {:induction false} InputsTaken(c: Cursor, h: nat, tx: Tx, n: nat)
    requires n <= |tx.inputs|
    ensures var d := Steps(c, h, InputItems(tx, n));
      && d.ix.outputs == c.ix.outputs
      && TookUtxos(c.ix.outputs, c.ix.utxos, d.ix.utxos, SpendsUpTo(tx, n))
      && TookKeys(c.ix.outputs, c.ix.stored, d.ix.stored, h, tx, n)
  {
    if n > 0 {
      hide StepJournal, StepUtxos, TookUtxos, TookKeys, SpendsUpTo;
      var rest, item := InputItems(tx, n - 1), InItem(tx.txid, n - 1, tx.inputs[n - 1]);
      InputsTaken(c, h, tx, n - 1);
      assert InputItems(tx, n) == rest + [item];
      StepsSnoc(c, h, rest, item);
      var d := Steps(c, h, rest);
      StepStored(d, h, item);
      UtxoTaken(c.ix.outputs, c.ix.utxos, d.ix.utxos, tx, n - 1);
      KeyTaken(c.ix.outputs, c.ix.stored, d.ix.stored, h, tx, n - 1);
    } else {
      assert InputItems(tx, 0) == [];
    }
  }

  lemma UtxoTaken(outputs: map<OutPoint, Output>, from: map<UtxoKey, u64>, to: map<UtxoKey, u64>, tx: Tx, n: nat)
    requires n < |tx.inputs| && TookUtxos(outputs, from, to, SpendsUpTo(tx, n))
    ensures TookUtxos(outputs, from, StepUtxos(outputs, to, InItem(tx.txid, n, tx.inputs[n])), SpendsUpTo(tx, n + 1))
  {
    assert SpendsUpTo(tx, n + 1)
        == SpendsUpTo(tx, n) + if tx.inputs[n] == NULL_OUTPOINT then {} else {tx.inputs[n]};
  }

  lemma KeyTaken(outputs: map<OutPoint, Output>, from: set<HistoryKey>, to: set<HistoryKey>, h: nat, tx: Tx, n: nat)
    requires n < |tx.inputs| && TookKeys(outputs, from, to, h, tx, n)
    ensures var o := tx.inputs[n];
      var key := if Known(outputs, o) then {HistoryKey(outputs[o].scriptHash, h, Spend, tx.txid, n)} else {};
      TookKeys(outputs, from, to + key, h, tx, n + 1)
  {
  }

  /** The first `n` outputs of `tx` lead from one state of the trees to the other. */
  ghost predicate GaveOutputs(from: map<OutPoint, Output>, to: map<OutPoint, Output>, h: nat, tx: Tx, n: nat)
    requires n <= |tx.outputs|
  {
    && (forall o :: o in to <==> (o in from || (o.txid == tx.txid && o.vout < n)))
    && (forall o | o in to :: to[o] == if o.txid == tx.txid && o.vout < n then
          Output(tx.outputs[o.vout].scriptHash, tx.outputs[o.vout].value, h) else from[o])
  }

  ghost predicate GaveUtxos(from: map<UtxoKey, u64>, to: map<UtxoKey, u64>, tx: Tx, n: nat)
    requires n <= |tx.outputs|
  {
    && (forall k :: k in to <==> (k in from || (k.outpoint.vout < n && PaysScript(tx, k.outpoint, k.scriptHash))))
    && (forall k | k in to :: to[k] == if k.outpoint.vout < n && PaysScript(tx, k.outpoint, k.scriptHash)
          then tx.outputs[k.outpoint.vout].value else from[k])
  }

  ghost predicate GaveKeys(from: set<HistoryKey>, to: set<HistoryKey>, h: nat, tx: Tx, n: nat) {
    forall k :: k in to <==> (k in from || (k.sequence < n && IsFunding(Placed(h, tx), k)))
  }

  lemma {:induction false} OutputsGiven(c: Cursor, h: nat, tx: Tx, n: nat)
    requires n <= |tx.outputs|
    ensures var d := Steps(c, h, OutputItems(tx, n));
      && GaveOutputs(c.ix.outputs, d.ix.outputs, h, tx, n)
      && GaveUtxos(c.ix.utxos, d.ix.utxos, tx, n)
      && GaveKeys(c.ix.stored, d.ix.stored, h, tx, n)
  {
    hide StepJournal, StepOutputs, StepUtxos, GaveOutputs, GaveUtxos, GaveKeys;
    if n == 0 {
      NothingGiven(c.ix, h, tx);
    } else {
      var rest, item := OutputItems(tx, n - 1), OutItem(tx.txid, n - 1, tx.outputs[n - 1]);
      OutputsGiven(c, h, tx, n - 1);
      assert OutputItems(tx, n) == rest + [item];
      StepsSnoc(c, h, rest, item);
      var d := Steps(c, h, rest);
      StepStored(d, h, item);
      OutputGiven(c.ix.outputs, d.ix.outputs, h, tx, n - 1);
      UtxoGiven(c.ix.utxos, d.ix.utxos, d.ix.outputs, tx, n - 1);
      KeyGiven(c.ix.stored, d.ix.stored, h, tx, n - 1);
    }
  }

  lemma NothingGiven(ix: Index, h: nat, tx: Tx)
    ensures GaveOutputs(ix.outputs, ix.outputs, h, tx, 0) && GaveUtxos(ix.utxos, ix.utxos, tx, 0)
    ensures GaveKeys(ix.stored, ix.stored, h, tx, 0)
  {
  }

  lemma OutputGiven(from: map<OutPoint, Output>, to: map<OutPoint, Output>, h: nat, tx: Tx, n: nat)
    requires n < |tx.outputs| && GaveOutputs(from, to, h, tx, n)
    ensures GaveOutputs(from, StepOutputs(to, h, OutItem(tx.txid, n, tx.outputs[n])), h, tx, n + 1)
  {
  }

  lemma UtxoGiven(from: map<UtxoKey, u64>, to: map<UtxoKey, u64>, outputs: map<OutPoint, Output>, tx: Tx, n: nat)
    requires n < |tx.outputs| && GaveUtxos(from, to, tx, n)
    ensures GaveUtxos(from, StepUtxos(outputs, to, OutItem(tx.txid, n, tx.outputs[n])), tx, n + 1)
  {
  }

  lemma KeyGiven(from: set<HistoryKey>, to: set<HistoryKey>, h: nat, tx: Tx, n: nat)
    requires n < |tx.outputs| && GaveKeys(from, to, h, tx, n)
    ensures GaveKeys(from, to + {HistoryKey(tx.outputs[n].scriptHash, h, Fund, tx.txid, n)}, h, tx, n + 1)
  {
  }

  // ---- One more transaction ---------------------------------------------------------------

  lemma CreatedSnoc(ps: seq<Placed>, p: Placed, o: OutPoint, r: Output)
    ensures CreatedIn(ps + [p], o, r)
       <==> CreatedIn(ps, o, r) || (p.height == r.height && Pays(p.tx, o, TxOut(r.scriptHash, r.value)))
  {
    var more := ps + [p];
    if CreatedIn(ps, o, r) {
      var n :| 0 <= n < |ps| && ps[n].height == r.height && Pays(ps[n].tx, o, TxOut(r.scriptHash, r.value));
      assert more[n] == ps[n];
    }
    assert more[|ps|] == p;
  }

  lemma UnspentSnoc(ps: seq<Placed>, p: Placed, o: OutPoint, out: TxOut)
    ensures UnspentIn(ps + [p], o, out)
       <==> (UnspentIn(ps, o, out) && o !in Spends(p.tx)) || Pays(p.tx, o, out)
  {
    hide Spends;
    var more := ps + [p];
    assert more[|ps|] == p;
    if UnspentIn(ps, o, out) && o !in Spends(p.tx) {
      var n :| 0 <= n < |ps| && Pays(ps[n].tx, o, out) && forall m | n < m < |ps| :: o !in Spends(ps[m].tx);
      assert more[n] == ps[n];
    }
    if UnspentIn(more, o, out) && !Pays(p.tx, o, out) {
      var n :| 0 <= n < |more| && Pays(more[n].tx, o, out) && forall m | n < m < |more| :: o !in Spends(more[m].tx);
      assert n < |ps| && more[n] == ps[n];
      forall m | n < m < |ps| ensures o !in Spends(ps[m].tx) {
        assert more[m] == ps[m];
      }
    }
  }

  lemma HistorySnoc(ps: seq<Placed>, p: Placed, k: HistoryKey)
    ensures InHistory(ps + [p], k) <==> InHistory(ps, k) || IsFunding(p, k) || IsSpending(ps, p, k)
  {
    hide IsFunding, IsSpending;
    var more := ps + [p];
    assert more[|ps|] == p && more[..|ps|] == ps;
    if InHistory(ps, k) {
      var n :| 0 <= n < |ps| && (IsFunding(ps[n], k) || IsSpending(ps[..n], ps[n], k));
      assert more[n] == ps[n] && more[..n] == ps[..n];
    }
    if InHistory(more, k) {
      var n :| 0 <= n < |more| && (IsFunding(more[n], k) || IsSpending(more[..n], more[n], k));
      if n < |ps| {
        assert more[n] == ps[n] && more[..n] == ps[..n];
      }
    }
  }

  lemma PaidRecord(ps: seq<Placed>, outputs: map<OutPoint, Output>, o: OutPoint, sh: ScriptHash)
    requires SaysOutputs(ps, outputs)
    ensures PaidTo(ps, o, sh) <==> o in outputs && outputs[o].scriptHash == sh
  {
    if PaidTo(ps, o, sh) {
      var n :| 0 <= n < |ps| && PaysScript(ps[n].tx, o, sh);
      assert CreatedIn(ps, o, Output(sh, ps[n].tx.outputs[o.vout].value, ps[n].height));
    }
    if o in outputs {
      assert CreatedIn(ps, o, outputs[o]);
    }
  }

  ghost predicate NewIn(ps: seq<Placed>, tx: Tx) {
    forall p | p in ps :: p.tx.txid != tx.txid
  }

  lemma NotCreated(ps: seq<Placed>, tx: Tx, o: OutPoint, r: Output)
    requires NewIn(ps, tx) && CreatedIn(ps, o, r)
    ensures o.txid != tx.txid
  {
  }

  lemma NotUnspent(ps: seq<Placed>, tx: Tx, o: OutPoint, out: TxOut)
    requires NewIn(ps, tx) && UnspentIn(ps, o, out)
    ensures o.txid != tx.txid
  {
  }

  lemma UnspentCreated(ps: seq<Placed>, outputs: map<OutPoint, Output>, o: OutPoint, out: TxOut)
    requires SaysOutputs(ps, outputs) && UnspentIn(ps, o, out)
    ensures o in outputs && outputs[o].scriptHash == out.scriptHash
  {
    var n :| 0 <= n < |ps| && Pays(ps[n].tx, o, out) && forall m | n < m < |ps| :: o !in Spends(ps[m].tx);
    assert CreatedIn(ps, o, Output(out.scriptHash, out.value, ps[n].height));
  }

  lemma OutputsSaid(ps: seq<Placed>, h: nat, tx: Tx, from: map<OutPoint, Output>, to: map<OutPoint, Output>)
    requires SaysOutputs(ps, from) && NewIn(ps, tx) && GaveOutputs(from, to, h, tx, |tx.outputs|)
    ensures SaysOutputs(ps + [Placed(h, tx)], to)
  {
    forall o, r ensures o in to && to[o] == r <==> CreatedIn(ps + [Placed(h, tx)], o, r) {
      CreatedSnoc(ps, Placed(h, tx), o, r);
      if CreatedIn(ps, o, r) {
        NotCreated(ps, tx, o, r);
      }
    }
  }

  lemma UtxosSaid(ps: seq<Placed>, h: nat, tx: Tx, outputs: map<OutPoint, Output>,
                  from: map<UtxoKey, u64>, mid: map<UtxoKey, u64>, to: map<UtxoKey, u64>)
    requires SaysOutputs(ps, outputs) && SaysUtxos(ps, from) && NewIn(ps, tx)
    requires TookUtxos(outputs, from, mid, Spends(tx)) && GaveUtxos(mid, to, tx, |tx.outputs|)
    ensures SaysUtxos(ps + [Placed(h, tx)], to)
  {
    hide Spends, UnspentIn, CreatedIn;
    forall k: UtxoKey, v: u64
      ensures k in to && to[k] == v
         <==> UnspentIn(ps + [Placed(h, tx)], k.outpoint, TxOut(k.scriptHash, v))
    {
      var out := TxOut(k.scriptHash, v);
      UnspentSnoc(ps, Placed(h, tx), k.outpoint, out);
      if UnspentIn(ps, k.outpoint, out) {
        NotUnspent(ps, tx, k.outpoint, out);
        UnspentCreated(ps, outputs, k.outpoint, out);
      }
      if k in from {
        assert UnspentIn(ps, k.outpoint, TxOut(k.scriptHash, from[k]));
        NotUnspent(ps, tx, k.outpoint, TxOut(k.scriptHash, from[k]));
      }
    }
  }

  lemma KeysSaid(ps: seq<Placed>, h: nat, tx: Tx, outputs: map<OutPoint, Output>, from: set<HistoryKey>,
                 mid: set<HistoryKey>, to: set<HistoryKey>)
    requires SaysOutputs(ps, outputs) && SaysKeys(ps, from)
    requires TookKeys(outputs, from, mid, h, tx, |tx.inputs|) && GaveKeys(mid, to, h, tx, |tx.outputs|)
    ensures SaysKeys(ps + [Placed(h, tx)], to)
  {
    hide PaidTo, InHistory, CreatedIn;
    forall k ensures k in to <==> InHistory(ps + [Placed(h, tx)], k) {
      HistorySnoc(ps, Placed(h, tx), k);
      if k.kind == Spend && k.sequence < |tx.inputs| {
        PaidRecord(ps, outputs, tx.inputs[k.sequence], k.scriptHash);
      }
    }
  }

  lemma TxChronicled(ps: seq<Placed>, c: Cursor, h: nat, tx: Tx)
    requires Chronicled(ps, c.ix) && NewIn(ps, tx)
    ensures Chronicled(ps + [Placed(h, tx)], Steps(c, h, TxItems(tx)).ix)
  {
    hide SaysOutputs, SaysUtxos, SaysKeys, TookUtxos, TookKeys, GaveOutputs, GaveUtxos, GaveKeys, NewIn, Steps;
    var a, b := InputItems(tx, |tx.inputs|), OutputItems(tx, |tx.outputs|);
    StepsConcat(c, h, [TxItem(tx.txid)] + a, b);
    StepsConcat(c, h, [TxItem(tx.txid)], a);
    var c1 := Steps(c, h, [TxItem(tx.txid)]);
    OneStep(c, h, TxItem(tx.txid));
    var c2 := Steps(c1, h, a);
    InputsTaken(c1, h, tx, |tx.inputs|);
    OutputsGiven(c2, h, tx, |tx.outputs|);
    assert SpendsUpTo(tx, |tx.inputs|) == Spends(tx);
    OutputsSaid(ps, h, tx, c.ix.outputs, Steps(c2, h, b).ix.outputs);
    UtxosSaid(ps, h, tx, c.ix.outputs, c.ix.utxos, c2.ix.utxos, Steps(c2, h, b).ix.utxos);
    KeysSaid(ps, h, tx, c.ix.outputs, c.ix.stored, c2.ix.stored, Steps(c2, h, b).ix.stored);
  }

  lemma OneStep(c: Cursor, h: nat, item: Item)
    ensures Steps(c, h, [item]) == Step(c, h, item)
  {
    StepsSnoc(c, h, [], item);
    assert [] + [item] == [item];
  }

  // ---- Chains and runs --------------------------------------------------------------------

  /** The transactions placed by a chain are exactly its blocks' at their heights. */
  lemma {:induction false} PlacedInChain(base: nat, chain: seq<Block>, p: Placed)
    ensures p in ChainPlaced(base, chain)
       <==> base <= p.height < base + |chain| && p.tx in chain[p.height - base]
  {
    if chain != [] {
      var rest, last := chain[..|chain| - 1], chain[|chain| - 1];
      PlacedInChain(base, rest, p);
      var placed := BlockPlaced(base + |chain| - 1, last);
      if p.height == base + |chain| - 1 && p.tx in last {
        var i :| 0 <= i < |last| && last[i] == p.tx;
        assert placed[i] == p;
      }
    }
  }

  lemma {:induction false} PlacedTxids(base: nat, chain: seq<Block>)
    ensures forall p | p in ChainPlaced(base, chain) :: p.tx.txid in ChainTxids(chain)
  {
    if chain != [] {
      var rest, last := chain[..|chain| - 1], chain[|chain| - 1];
      PlacedTxids(base, rest);
      assert forall p | p in BlockPlaced(base + |chain| - 1, last) :: p.tx in last;
    }
  }

  lemma BlockPrefix(block: Block, n: nat)
    requires n < |block|
    ensures Items(block[..n + 1]) == Items(block[..n]) + TxItems(block[n])
    ensures forall h: nat :: BlockPlaced(h, block[..n + 1]) == BlockPlaced(h, block[..n]) + [Placed(h, block[n])]
  {
    assert block[..n + 1][..n] == block[..n];
  }

  lemma NothingConnected(c: Cursor, h: nat, block: Block)
    ensures Steps(c, h, Items(block[..0])) == c
  {
  }

  lemma BlockNew(ps: seq<Placed>, h: nat, block: Block, n: nat)
    requires n < |block| && DistinctTxids(block) && forall p | p in ps :: p.tx.txid !in Txids(block)
    ensures NewIn(ps + BlockPlaced(h, block[..n]), block[n])
  {
    assert block[n] in block;
  }

  lemma {:induction false} BlockChronicled(ps: seq<Placed>, c: Cursor, h: nat, block: Block, n: nat)
    requires n <= |block| && DistinctTxids(block) && Chronicled(ps, c.ix)
    requires forall p | p in ps :: p.tx.txid !in Txids(block)
    ensures Chronicled(ps + BlockPlaced(h, block[..n]), Steps(c, h, Items(block[..n])).ix)
  {
    hide Chronicled, TxItems, Steps;
    if n == 0 {
      NothingConnected(c, h, block);
      assert ps + BlockPlaced(h, block[..0]) == ps;
    } else {
      var before := BlockPlaced(h, block[..n - 1]);
      BlockChronicled(ps, c, h, block, n - 1);
      BlockPrefix(block, n - 1);
      StepsConcat(c, h, Items(block[..n - 1]), TxItems(block[n - 1]));
      BlockNew(ps, h, block, n - 1);
      TxChronicled(ps + before, Steps(c, h, Items(block[..n - 1])), h, block[n - 1]);
      assert ps + (before + [Placed(h, block[n - 1])]) == ps + before + [Placed(h, block[n - 1])];
    }
  }

  /** The index of a chain of distinct transactions says what they say, whatever else they do. */
  lemma {:induction false} ChainChronicled(naming: Naming, base: nat, chain: seq<Block>)
    requires ValidChain(naming, chain)
    ensures Chronicled(ChainPlaced(base, chain), IndexChain(base, chain))
  {
    hide Chronicled, Steps, Items, LedgerOf, Prevouts, BlockNamed;
    if chain == [] {
      NothingChronicled();
    } else {
      var rest, block := chain[..|chain| - 1], chain[|chain| - 1];
      ChainChronicled(naming, base, rest);
      PlacedTxids(base, rest);
      var h := base + |rest|;
      BlockChronicled(ChainPlaced(base, rest), Cursor(IndexChain(base, rest), 0), h, block, |block|);
      assert block[..|block|] == block;
      TipChronicled(ChainPlaced(base, chain), Steps(Cursor(IndexChain(base, rest), 0), h, Items(block)).ix, h);
    }
  }

  lemma NothingChronicled()
    ensures Chronicled([], EMPTY)
  {
  }

  lemma TipChronicled(ps: seq<Placed>, ix: Index, tip: nat)
    requires Chronicled(ps, ix)
    ensures Chronicled(ps, ix.(tip := tip))
  {
  }

  /** How many history keys of the chain give this entry; an entry does not say whether it funds or spends. */
  ghost function EntryCount(ps: seq<Placed>, sh: ScriptHash, e: TxEntry): nat {
    (if InHistory(ps, HistoryKey(sh, e.height, Fund, e.txid, e.sequence)) then 1 else 0)
    + (if InHistory(ps, HistoryKey(sh, e.height, Spend, e.txid, e.sequence)) then 1 else 0)
  }

  /** After any stack-ordered run, trees and cached history say what the surviving transactions say. */
  lemma RunChronicled(naming: Naming, base: nat, events: seq<BlockEvent>)
    requires StackOrdered(naming, base, events)
    ensures var ps, ix := ChainPlaced(base, Survivors(events)), Run(events);
      && Chronicled(ps, ix)
      && forall sh, e :: multiset(Get(ix.history, sh))[e] == EntryCount(ps, sh, e)
  {
    hide StackOrdered, Survivors, Run, IndexChain, ChainPlaced, ValidChain, SaysOutputs, SaysUtxos, InHistory;
    var chain, ix := Survivors(events), Run(events);
    ReorgRefinement(naming, base, events);
    ChainChronicled(naming, base, chain);
    Restart.ChainAgrees(naming, base, chain);
    var ps := ChainPlaced(base, chain);
    forall sh, e ensures multiset(Get(ix.history, sh))[e] == EntryCount(ps, sh, e) {
      assert multiset(Get(ix.history, sh))[e] == Restart.KeyCount(ix.stored, sh, e);
    }
  }

  /** The ledger of a valid chain is what its transactions create and no later one spends. */
  lemma LedgerMeaning(naming: Naming, base: nat, chain: seq<Block>, o: OutPoint, out: TxOut)
    requires ValidChain(naming, chain)
    ensures o in LedgerOf(chain) && LedgerOf(chain)[o] == out <==> UnspentIn(ChainPlaced(base, chain), o, out)
  {
    hide ValidChain, IndexChain, LedgerOf, ChainPlaced, Below, Sound, UnspentIn, SaysOutputs, SaysKeys;
    ChainIndexed(naming, base, chain);
    ChainChronicled(naming, base, chain);
    var ix := IndexChain(base, chain);
    assert UtxoKey(out.scriptHash, o) in ix.utxos && ix.utxos[UtxoKey(out.scriptHash, o)] == out.value
      <==> UnspentIn(ChainPlaced(base, chain), UtxoKey(out.scriptHash, o).outpoint, TxOut(out.scriptHash, out.value));
    if o in LedgerOf(chain) {
      assert UtxoKey(LedgerOf(chain)[o].scriptHash, o) in ix.utxos;
    }
  }

  // ---- Spends against the ledger just before them -----------------------------------------

  ghost predicate DistinctPlaced(ps: seq<Placed>) {
    forall m, n | 0 <= m < n < |ps| :: ps[m].tx.txid != ps[n].tx.txid
  }

  /** The spent output is unspent just before the input. */
  ghost predicate IsLiveSpending(before: seq<Placed>, p: Placed, k: HistoryKey) {
    && IsSpending(before, p, k)
    && (exists v: u64 :: UnspentIn(before, p.tx.inputs[k.sequence], TxOut(k.scriptHash, v)))
    && (forall i | 0 <= i < k.sequence :: p.tx.inputs[i] != p.tx.inputs[k.sequence])
  }

  /** Input `i` of transaction `n` and the later input `j` of transaction `l` spend one known output. */
  ghost predicate SpendBoth(ps: seq<Placed>, n: nat, i: nat, l: nat, j: nat) {
    && n <= l < |ps| && i < |ps[n].tx.inputs| && j < |ps[l].tx.inputs| && (n < l || i < j)
    && ps[n].tx.inputs[i] == ps[l].tx.inputs[j] != NULL_OUTPOINT
    && exists sh :: PaidTo(ps[..n], ps[n].tx.inputs[i], sh)
  }

  ghost predicate AllLive(ps: seq<Placed>) {
    forall n, k | 0 <= n < |ps| && IsSpending(ps[..n], ps[n], k) :: IsLiveSpending(ps[..n], ps[n], k)
  }

  ghost predicate NoneTwice(ps: seq<Placed>) {
    forall n: nat, i: nat, l: nat, j: nat :: !SpendBoth(ps, n, i, l, j)
  }

  lemma PaidLater(ps: seq<Placed>, n: nat, l: nat, o: OutPoint, sh: ScriptHash)
    requires n <= l <= |ps| && PaidTo(ps[..n], o, sh)
    ensures PaidTo(ps[..l], o, sh)
  {
    var m :| 0 <= m < n && PaysScript(ps[..n][m].tx, o, sh);
    assert ps[..l][m] == ps[..n][m];
  }

  /** What an earlier transaction spends is not unspent any more. */
  lemma SpentDead(ps: seq<Placed>, n: nat, o: OutPoint, sh: ScriptHash, out: TxOut)
    requires DistinctPlaced(ps) && n < |ps| && o in Spends(ps[n].tx) && PaidTo(ps[..n], o, sh)
    ensures !UnspentIn(ps, o, out)
  {
    var m :| 0 <= m < n && PaysScript(ps[..n][m].tx, o, sh);
    assert ps[..n][m] == ps[m];
    forall x | 0 <= x < |ps| && Pays(ps[x].tx, o, out) ensures x < n {
      assert x == m;
    }
  }

  lemma TwiceDead(ps: seq<Placed>, n: nat, i: nat, l: nat, j: nat)
    requires DistinctPlaced(ps) && SpendBoth(ps, n, i, l, j)
    ensures !AllLive(ps)
  {
    var o := ps[n].tx.inputs[i];
    var sh :| PaidTo(ps[..n], o, sh);
    PaidLater(ps, n, l, o, sh);
    var k := HistoryKey(sh, ps[l].height, Spend, ps[l].tx.txid, j);
    assert IsSpending(ps[..l], ps[l], k);
    if n < l {
      assert ps[..l][..n] == ps[..n] && ps[..l][n] == ps[n];
      forall v: u64 ensures !UnspentIn(ps[..l], o, TxOut(sh, v)) {
        SpentDead(ps[..l], n, o, sh, TxOut(sh, v));
      }
    }
  }

  lemma DeadTwice(ps: seq<Placed>, n: nat, k: HistoryKey)
    requires n < |ps| && IsSpending(ps[..n], ps[n], k) && !IsLiveSpending(ps[..n], ps[n], k)
    ensures !NoneTwice(ps)
  {
    var o := ps[n].tx.inputs[k.sequence];
    if i :| 0 <= i < k.sequence && ps[n].tx.inputs[i] == o {
      assert SpendBoth(ps, n, i, n, k.sequence);
    } else {
      var m :| 0 <= m < n && PaysScript(ps[..n][m].tx, o, k.scriptHash);
      var out := ps[m].tx.outputs[o.vout];
      assert ps[..n][m] == ps[m] && out == TxOut(k.scriptHash, out.value) && Pays(ps[..n][m].tx, o, out);
      assert !UnspentIn(ps[..n], o, out);
      var l :| m < l < n && o in Spends(ps[..n][l].tx);
      assert ps[..n][l] == ps[l] && ps[..l][m] == ps[m];
      var i :| 0 <= i < |ps[l].tx.inputs| && ps[l].tx.inputs[i] == o;
      assert PaidTo(ps[..l], o, k.scriptHash);
      assert SpendBoth(ps, l, i, n, k.sequence);
    }
  }

  /** Every filed spend is of an output on the ledger just before it, unless an output is spent twice. */
  lemma LiveExactly(ps: seq<Placed>)
    requires DistinctPlaced(ps)
    ensures AllLive(ps) <==> NoneTwice(ps)
  {
    hide SpendBoth, IsSpending, IsLiveSpending;
    if !NoneTwice(ps) {
      var n: nat, i: nat, l: nat, j: nat :| SpendBoth(ps, n, i, l, j);
      TwiceDead(ps, n, i, l, j);
    }
    if !AllLive(ps) {
      var n, k :| 0 <= n < |ps| && IsSpending(ps[..n], ps[n], k) && !IsLiveSpending(ps[..n], ps[n], k);
      DeadTwice(ps, n, k);
    }
  }

  /** No two inputs of the block spend the same output. */
  ghost predicate SpendsOnce(block: Block) {
    forall n, i, l, j | 0 <= n <= l < |block| && 0 <= i < |block[n].inputs| && 0 <= j < |block[l].inputs|
      && (n < l || i < j) && block[n].inputs[i] != NULL_OUTPOINT :: block[n].inputs[i] != block[l].inputs[j]
  }

  lemma {:induction false} ChainDistinct(naming: Naming, base: nat, chain: seq<Block>)
    requires ValidChain(naming, chain)
    ensures DistinctPlaced(ChainPlaced(base, chain))
  {
    hide LedgerOf, Items, BlockNamed, ChainTxids;
    if chain != [] {
      var rest, block := chain[..|chain| - 1], chain[|chain| - 1];
      ChainDistinct(naming, base, rest);
      PlacedTxids(base, rest);
      var a, b := ChainPlaced(base, rest), BlockPlaced(base + |rest|, block);
      var ps := a + b;
      forall m, n | 0 <= m < n < |ps| ensures ps[m].tx.txid != ps[n].tx.txid {
        if m < |a| <= n {
          assert a[m] in a && b[n - |a|].tx in block;
        }
      }
    }
  }

  lemma {:induction false} InputListed(block: Block, n: nat, i: nat)
    requires n < |block| && i < |block[n].inputs|
    ensures InItem(block[n].txid, i, block[n].inputs[i]) in Items(block)
  {
    if n < |block| - 1 {
      InputListed(block[..|block| - 1], n, i);
    } else {
      assert InputItems(block[n], |block[n].inputs|)[i] == InItem(block[n].txid, i, block[n].inputs[i]);
    }
  }

  lemma LastTwice(naming: Naming, base: nat, rest: seq<Block>, block: Block, n: nat, i: nat, l: nat, j: nat)
    requires ValidChain(naming, rest) && ValidNext(naming, rest, block) && SpendsOnce(block)
    requires |ChainPlaced(base, rest)| <= l < |ChainPlaced(base, rest)| + |block|
    ensures !SpendBoth(ChainPlaced(base, rest) + BlockPlaced(base + |rest|, block), n, i, l, j)
  {
    hide LedgerOf, Items, BlockNamed, ChainTxids, ValidChain, DistinctTxids;
    var a, b := ChainPlaced(base, rest), BlockPlaced(base + |rest|, block);
    var ps := a + b;
    assert ps[l].tx == block[l - |a|];
    if |a| <= n <= l {
      assert ps[n].tx == block[n - |a|];
    } else if SpendBoth(ps, n, i, l, j) {
      var o := ps[n].tx.inputs[i];
      var sh :| PaidTo(ps[..n], o, sh);
      assert ps[..n] == a[..n] && ps[n] == a[n];
      PaidInChain(base, rest, n, o, sh);
      InputListed(block, l - |a|, j);
      assert o in Prevouts(Items(block));
      LedgerMeaning(naming, base, rest, o, LedgerOf(rest)[o]);
      ChainDistinct(naming, base, rest);
      SpentDead(a, n, o, sh, LedgerOf(rest)[o]);
      assert false;
    }
  }

  lemma PaidInChain(base: nat, chain: seq<Block>, n: nat, o: OutPoint, sh: ScriptHash)
    requires n <= |ChainPlaced(base, chain)| && PaidTo(ChainPlaced(base, chain)[..n], o, sh)
    ensures o.txid in ChainTxids(chain)
  {
    PlacedTxids(base, chain);
  }

  lemma TwiceBefore(a: seq<Placed>, b: seq<Placed>, n: nat, i: nat, l: nat, j: nat)
    requires n <= l < |a|
    ensures SpendBoth(a + b, n, i, l, j) <==> SpendBoth(a, n, i, l, j)
  {
    assert (a + b)[..n] == a[..n];
  }

  /** A valid chain spends no output twice if no block does. */
  lemma {:induction false} ChainOnce(naming: Naming, base: nat, chain: seq<Block>)
    requires ValidChain(naming, chain) && forall block | block in chain :: SpendsOnce(block)
    ensures NoneTwice(ChainPlaced(base, chain))
  {
    hide ValidNext, SpendsOnce;
    if chain != [] {
      var rest, block := chain[..|chain| - 1], chain[|chain| - 1];
      ChainOnce(naming, base, rest);
      var a, b := ChainPlaced(base, rest), BlockPlaced(base + |rest|, block);
      forall n: nat, i: nat, l: nat, j: nat ensures !SpendBoth(a + b, n, i, l, j) {
        if |a| <= l < |a + b| {
          LastTwice(naming, base, rest, block, n, i, l, j);
        } else if n <= l < |a| {
          TwiceBefore(a, b, n, i, l, j);
        }
      }
    }
  }

  /**
   * After a stack-ordered run of blocks that spend nothing twice, a spend is filed exactly when its prevout is
   * on the ledger just before it.
   */
  lemma RunLive(naming: Naming, base: nat, events: seq<BlockEvent>, k: HistoryKey)
    requires StackOrdered(naming, base, events) && k.kind == Spend
    requires forall block | block in Survivors(events) :: SpendsOnce(block)
    ensures var ps := ChainPlaced(base, Survivors(events));
      k in Run(events).stored <==> exists n :: 0 <= n < |ps| && IsLiveSpending(ps[..n], ps[n], k)
  {
    hide StackOrdered, Survivors, Run, ChainPlaced, SpendsOnce, SaysOutputs, SaysUtxos, ValidChain, IndexChain;
    var chain := Survivors(events);
    ReorgRefinement(naming, base, events);
    RunChronicled(naming, base, events);
    ChainOnce(naming, base, chain);
    ChainDistinct(naming, base, chain);
    LiveExactly(ChainPlaced(base, chain));
    LiveFiled(ChainPlaced(base, chain), k);
  }

  lemma LiveFiled(ps: seq<Placed>, k: HistoryKey)
    requires AllLive(ps) && k.kind == Spend
    ensures InHistory(ps, k) <==> exists n :: 0 <= n < |ps| && IsLiveSpending(ps[..n], ps[n], k)
  {
    hide PaidTo, UnspentIn;
  }
}
