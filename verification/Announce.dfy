/** What a pending change announces, and that it leaves every other script hash as it was. */
module Announce {
  import opened Chain
  import opened Confirmed
  import opened Model
  import opened Notify
  import opened Pending
  import Reorg

  ghost predicate TxsNamed(naming: Naming, txs: map<Txid, Tx>) {
    forall id | id in txs :: txs[id].txid == id && Named(naming, txs[id])
  }

  /** Everything stored under a txid comes from the transaction with that txid. */
  ghost predicate Consistent(naming: Naming, st: State) {
    Sound(naming, st.ix) && TxsNamed(naming, st.txs) && TxsNamed(naming, st.pool)
  }

  ghost predicate EventNamed(naming: Naming, e: Event) {
    match e
    case Connected(block, _) => BlockNamed(naming, block)
    case Tracked(tx) => Named(naming, tx)
    case RawStored(tx) => Named(naming, tx)
    case _ => true
  }

  lemma {:induction false} StoredAllNamed(naming: Naming, txs: map<Txid, Tx>, block: Block)
    requires TxsNamed(naming, txs) && BlockNamed(naming, block)
    ensures TxsNamed(naming, StoreAll(txs, block))
  {
    hide Named;
    if block != [] {
      StoredAllNamed(naming, txs, block[..|block| - 1]);
      assert block[|block| - 1] in block;
    }
  }

  lemma TrackConsistent(naming: Naming, st: State, tx: Tx)
    requires Consistent(naming, st) && Named(naming, tx)
    ensures Consistent(naming, Model.Track(st, tx))
  {
    hide Sound, Named, Chains, Conflicts, Unlist, List;
  }

  lemma NextConsistent(naming: Naming, st: State, e: Event)
    requires Consistent(naming, st) && EventNamed(naming, e)
    ensures Consistent(naming, Model.Next(st, e))
  {
    hide Sound, Named, Apply, Rollback, Model.Track, Descendants, StoreAll, Unlist, MinedBy, Txids, BlockNamed;
    match e
    case Connected(block, h) =>
      Reorg.NextSound(naming, st.ix, Reorg.Connected(block, h));
      StoredAllNamed(naming, st.txs, block);
    case Disconnected(h) => Reorg.NextSound(naming, st.ix, Reorg.Disconnected(h));
    case Tracked(tx) => TrackConsistent(naming, st, tx);
    case Restored(id) => if id in st.txs { TrackConsistent(naming, st, st.txs[id]); }
    case _ =>
  }

  lemma {:induction false} RunConsistent(naming: Naming, events: seq<Event>)
    requires forall e | e in events :: EventNamed(naming, e)
    ensures Consistent(naming, Model.Run(events))
  {
    hide Consistent, EventNamed, Model.Next;
    if events == [] {
      StartConsistent(naming);
    } else {
      RunConsistent(naming, events[..|events| - 1]);
      NextConsistent(naming, Model.Run(events[..|events| - 1]), events[|events| - 1]);
    }
  }

  lemma StartConsistent(naming: Naming)
    ensures Consistent(naming, START)
  {
  }

  predicate IsPendingEvent(e: Event) {
    !e.Connected? && !e.Disconnected?
  }

  /** The script hashes that the index returns for broadcasting; `order` is how conflicts were met. */
  ghost function Announced(st: State, e: Event, order: seq<Txid>): Option<set<ScriptHash>> {
    var outputs := st.ix.outputs;
    match e
    case Tracked(tx) => Some(TrackAffected(st.pool, outputs, order, tx))
    case Restored(id) =>
      if id in st.txs then Some(TrackAffected(st.pool, outputs, order, st.txs[id])) else None
    case Forgotten(id) =>
      if id in st.pool then Some(Affected(View(st.pool), st.pool - {id}, outputs, st.pool[id])) else None
    case ChainForgotten(id) =>
      if id in st.pool then Some(ChainAffected(st.pool, outputs, id)) else None
    case _ => None
  }

  ghost predicate InOrder(st: State, e: Event, order: seq<Txid>) {
    match e
    case Tracked(tx) => Elements(order) == Conflicts(st.pool, tx)
    case Restored(id) => id in st.txs ==> Elements(order) == Conflicts(st.pool, st.txs[id])
    case _ => true
  }

  lemma TrackQuiet(naming: Naming, st: State, tx: Tx, order: seq<Txid>, sh: ScriptHash)
    requires Consistent(naming, st) && Named(naming, tx)
    requires Elements(order) == Conflicts(st.pool, tx)
    requires sh !in TrackAffected(st.pool, st.ix.outputs, order, tx)
    ensures Entries(st.pool, st.ix.outputs, sh)
         == Entries(Model.Track(st, tx).pool, st.ix.outputs, sh)
  {
    hide Entries, TrackAffected, Conflicts, Chains, Coupled, Unlist, List, Elements;
    assert OutputsOf(st.ix.outputs, tx);
    assert tx.txid in st.pool ==> SameBody(st.pool[tx.txid], tx);
    TrackComplete(st.pool, st.ix.outputs, order, tx, sh);
    assert Model.Track(st, tx).pool == Pending.Track(st.pool, tx);
  }

  /** A pending change leaves every script hash that it does not announce with the same answers. */
  lemma PendingQuiet(naming: Naming, st: State, e: Event, order: seq<Txid>, sh: ScriptHash)
    requires Consistent(naming, st) && EventNamed(naming, e) && IsPendingEvent(e) && InOrder(st, e, order)
    requires Announced(st, e, order).Some? ==> sh !in Announced(st, e, order).value
    ensures var st' := Model.Next(st, e);
      && st'.ix == st.ix
      && Entries(st.pool, st.ix.outputs, sh) == Entries(st'.pool, st'.ix.outputs, sh)
  {
    hide Entries, TrackAffected, ChainAffected, Affected, Model.Track, Elements, Conflicts, Descendants,
         Sound, Unlist, View;
    NextIndex(st, e);
    match e
    case Tracked(tx) => TrackQuiet(naming, st, tx, order, sh);
    case Restored(id) => if id in st.txs { TrackQuiet(naming, st, st.txs[id], order, sh); }
    case Forgotten(id) => if id in st.pool { ForgetComplete(st.pool, st.ix.outputs, id, sh); }
    case ChainForgotten(id) => if id in st.pool { ChainComplete(st.pool, st.ix.outputs, id, sh); }
    case RawStored(_) =>
  }
}
