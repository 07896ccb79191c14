/** The index state: fields, loaders and mutators, each proved against the value-level model. */
module Indexer {
  import opened Chain
  import opened Confirmed
  import opened Model
  import opened Pending
  import opened Notify
  import opened Queries
  import opened Sorting
  import opened Sums
  import opened Restart
  import opened Progress
  import opened Store
  import opened Fees

  class IndexState {
    const store: PersistentIndex
    var history: map<ScriptHash, seq<TxEntry>>
    var byHeight: map<nat, seq<BlockAction>>
    var pendingTxs: Pool
    var pendingOutputs: map<OutPoint, Output>
    var tipHeight: nat

    ghost function Ix(): Index
      reads this, store
    {
      Index(store.outputs, store.utxos, store.history, history, store.journal, byHeight, tipHeight)
    }

    ghost function State(): Model.State
      reads this, store
    {
      Model.State(Ix(), store.txs, pendingTxs, store.pendingTxids)
    }

    /** The cache is the derived view, and everything is filed under its own txid. */
    ghost predicate Valid()
      reads this, store
    {
      && pendingOutputs == View(pendingTxs)
      && Keyed(pendingTxs) && TxsKeyed(store.txs)
      && store.tip == tipHeight
    }

    // ---- Opening ----------------------------------------------------------------------------

    /** Opens a store and rebuilds every cache from its trees. */
    constructor Open(s: PersistentIndex)
      requires TxsKeyed(s.txs)
      ensures store == s && Valid()
      ensures Reopened(Stored(s), State())
    {
      store := s;
      history, byHeight, pendingTxs, pendingOutputs := map[], map[], map[], map[];
      tipHeight := s.tip;
      new;
      LoadHistory();
      var confirmed := LoadJournal();
      LoadPending(confirmed);
      RebuildPendingView();
    }

    method LoadHistory()
      requires history == map[]
      modifies this`history
      ensures HistoryAgrees(store.history, history)
    {
      var rest := store.history;
      while rest != {}
        invariant rest <= store.history
        invariant HistoryAgrees(store.history - rest, history)
        decreases rest
      {
        var key :| key in rest;
        AppendAgrees(store.history - rest, history, key);
        history := Append(history, key.scriptHash, EntryOf(key));
        assert store.history - (rest - {key}) == store.history - rest + {key};
        rest := rest - {key};
      }
      assert store.history - {} == store.history;
    }

    /** Fills `byHeight`, sorts each height by sequence, and returns the confirmed txids. */
    method LoadJournal() returns (confirmed: set<Txid>)
      requires byHeight == map[]
      modifies this`byHeight
      ensures JournalLoaded(store.journal, byHeight)
      ensures confirmed == ConfirmedIds(store.journal)
    {
      confirmed := {};
      var rest := store.journal.Keys;
      while rest != {}
        invariant rest <= store.journal.Keys
        invariant confirmed == ConfirmedIds(store.journal - rest)
        invariant Collected(store.journal - rest, byHeight)
        decreases rest
      {
        var key :| key in rest;
        var payload := store.journal[key];
        if payload.TxMined? {
          confirmed := confirmed + {payload.txid};
        }
        assert store.journal - (rest - {key}) == (store.journal - rest)[key := payload];
        CollectedNext(store.journal - rest, byHeight, key, payload);
        ConfirmedNext(store.journal - rest, key, payload);
        byHeight := Append(byHeight, key.height, BlockAction(payload, key));
        rest := rest - {key};
      }
      assert store.journal - {} == store.journal;
      SortHeights();
    }

    method SortHeights()
      requires Collected(store.journal, byHeight)
      modifies this`byHeight
      ensures JournalLoaded(store.journal, byHeight)
    {
      var rest := byHeight.Keys;
      while rest != {}
        invariant rest <= byHeight.Keys
        invariant Collected(store.journal, byHeight)
        invariant forall h | h in byHeight && h !in rest :: Sorted(byHeight[h], ActionKey)
        decreases rest
      {
        var h :| h in rest;
        var sorted := SortBy(byHeight[h], ActionKey);
        SortBySorted(byHeight[h], ActionKey);
        SortKept(store.journal, byHeight, h, sorted);
        byHeight := byHeight[h := sorted];
        rest := rest - {h};
      }
    }

    /** Skips confirmed txids and those whose raw transaction is gone. */
    method LoadPending(confirmed: set<Txid>)
      requires TxsKeyed(store.txs) && pendingTxs == map[] && confirmed == ConfirmedIds(store.journal)
      modifies this`pendingTxs
      ensures pendingTxs == PoolLoaded(State()) && Keyed(pendingTxs)
    {
      var listed := store.pendingTxids;
      for i := 0 to |listed|
        invariant listed == store.pendingTxids
        invariant Keyed(pendingTxs)
        invariant forall id :: id in pendingTxs <==> id in listed[..i] && id !in confirmed && id in store.txs
        invariant forall id | id in pendingTxs :: pendingTxs[id] == store.txs[id]
      {
        var id := listed[i];
        if id !in confirmed && id in store.txs {
          pendingTxs := pendingTxs[id := store.txs[id]];
        }
        assert forall x :: x in listed[..i + 1] <==> x in listed[..i] || x == id;
      }
      assert listed[..|listed|] == listed;
    }

    // ---- The derived view -------------------------------------------------------------------

    method PendingSpentOutpoints() returns (spent: set<OutPoint>)
      ensures spent == SpentBy(pendingTxs)
    {
      spent := {};
      var rest := pendingTxs.Keys;
      while rest != {}
        invariant rest <= pendingTxs.Keys
        invariant spent == SpentBy(pendingTxs - rest)
        decreases rest
      {
        var id :| id in rest;
        var tx := pendingTxs[id];
        ghost var before := spent;
        for i := 0 to |tx.inputs|
          invariant spent == before + set j | 0 <= j < i && tx.inputs[j] != NULL_OUTPOINT :: tx.inputs[j]
        {
          if tx.inputs[i] != NULL_OUTPOINT {
            spent := spent + {tx.inputs[i]};
          }
        }
        assert spent == before + Spends(tx);
        assert pendingTxs - (rest - {id}) == (pendingTxs - rest)[id := tx];
        SpentByNext(pendingTxs - rest, id, tx);
        rest := rest - {id};
      }
      assert pendingTxs - {} == pendingTxs;
    }

    /** Recomputes the view from scratch. */
    method RebuildPendingView()
      requires Keyed(pendingTxs)
      modifies this`pendingOutputs
      ensures pendingOutputs == View(pendingTxs)
    {
      pendingOutputs := map[];
      var spent := PendingSpentOutpoints();
      var rest := pendingTxs.Keys;
      while rest != {}
        invariant rest <= pendingTxs.Keys
        invariant forall o :: o in pendingOutputs <==>
          o in PoolOutpoints(pendingTxs) && o !in spent && o.txid !in rest
        invariant forall o | o in pendingOutputs :: PoolOutput(pendingTxs, o) == Some(pendingOutputs[o])
        decreases rest
      {
        var id :| id in rest;
        var tx := pendingTxs[id];
        ghost var before := pendingOutputs;
        for v := 0 to |tx.outputs|
          invariant forall o :: o in pendingOutputs <==>
            o in before || (o.txid == id && o.vout < v && o !in spent)
          invariant forall o | o in pendingOutputs :: PoolOutput(pendingTxs, o) == Some(pendingOutputs[o])
        {
          var o := OutPoint(tx.txid, v);
          if o !in spent {
            pendingOutputs := pendingOutputs[o := Output(tx.outputs[v].scriptHash, tx.outputs[v].value, 0)];
          }
        }
        rest := rest - {id};
      }
    }

    // ---- Walking the pending graph ------------------------------------------------------------

    method TouchedScripts(tx: Tx) returns (touched: set<ScriptHash>)
      ensures touched == Touched(pendingOutputs, pendingTxs, store.outputs, tx)
    {
      touched := {};
      for i := 0 to |tx.inputs|
        invariant touched == set j | 0 <= j < i && tx.inputs[j] != NULL_OUTPOINT
            && Resolve(pendingOutputs, pendingTxs, store.outputs, tx.inputs[j]).Some?
          :: Resolve(pendingOutputs, pendingTxs, store.outputs, tx.inputs[j]).value
      {
        if tx.inputs[i] != NULL_OUTPOINT {
          var resolved := Resolve(pendingOutputs, pendingTxs, store.outputs, tx.inputs[i]);
          if resolved.Some? {
            touched := touched + {resolved.value};
          }
        }
      }
      ghost var inputs := touched;
      for i := 0 to |tx.outputs|
        invariant touched == inputs + set j | 0 <= j < i :: tx.outputs[j].scriptHash
      {
        touched := touched + {tx.outputs[i].scriptHash};
      }
    }

    /** Queues the pending spenders of `id` that have not been visited. */
    method QueueSpenders(id: Txid, seen: set<Txid>, queue: seq<Txid>) returns (more: seq<Txid>)
      ensures Elements(more) ==
        Elements(queue) + set x | x in pendingTxs && x !in seen && id in Parents(pendingTxs[x])
    {
      more := queue;
      var rest := pendingTxs.Keys;
      while rest != {}
        invariant rest <= pendingTxs.Keys
        invariant Elements(more) == Elements(queue)
          + set x | x in pendingTxs && x !in rest && x !in seen && id in Parents(pendingTxs[x])
        decreases rest
      {
        var x :| x in rest;
        if x !in seen && id in Parents(pendingTxs[x]) {
          ElementsSnoc(more, x);
          more := more + [x];
        }
        rest := rest - {x};
      }
    }

    /** Walks `tx` and its pending descendants and collects what each touches. */
    method AffectedScripts(tx: Tx) returns (touched: set<ScriptHash>)
      ensures touched == Affected(pendingOutputs, pendingTxs, store.outputs, tx)
    {
      hide Descendants, Walk, Collect, Affected, Touched, Elements, Parents;
      touched := {};
      var seen, queue := {}, [tx.txid];
      ghost var within := Descendants(pendingTxs, tx.txid);
      WalkStart(pendingTxs, tx.txid);
      CollectNone(pendingOutputs, pendingTxs, store.outputs, tx);
      while queue != []
        invariant Walk(pendingTxs, tx.txid, seen, queue)
        invariant touched == Collect(pendingOutputs, pendingTxs, store.outputs, tx, seen)
        decreases within - seen, |queue|
      {
        var id := queue[0];
        WalkMore(pendingTxs, tx.txid, seen, queue);
        queue := queue[1..];
        if id !in seen {
          var found := TouchedScripts(if id == tx.txid then tx else pendingTxs[id]);
          CollectNext(pendingOutputs, pendingTxs, store.outputs, tx, seen, id);
          touched := touched + found;
          var more := QueueSpenders(id, seen + {id}, queue);
          WalkVisit(pendingTxs, tx.txid, seen, queue, id, more);
          seen, queue := seen + {id}, more;
        }
      }
      WalkDone(pendingTxs, tx.txid, seen);
      CollectAll(pendingOutputs, pendingTxs, store.outputs, tx);
    }

    // ---- Removing from the pool -------------------------------------------------------------

    /** Drops one transaction without its descendants, as a confirmation does. */
    method ForgetInternal(txid: Txid)
      requires Valid()
      modifies this`pendingTxs, this`pendingOutputs, store`pendingTxids
      ensures Valid() && State() == Remove(old(State()), {txid})
    {
      pendingTxs := pendingTxs - {txid};
      store.DeletePendingTxid(txid);
      RebuildPendingView();
    }

    /** Drops a transaction and all its pending descendants; reports what they and theirs touch. */
    method ForgetChainInternal(txid: Txid) returns (affected: set<ScriptHash>)
      requires Valid()
      modifies this`pendingTxs, this`pendingOutputs, store`pendingTxids
      ensures Valid() && State() == Remove(old(State()), Descendants(old(pendingTxs), txid))
      ensures affected == ChainAffected(old(pendingTxs), store.outputs, txid)
    {
      hide Descendants, Walk, CollectChain, ChainAffected, Affected, View, Elements, Parents, Keyed, TxsKeyed, Unlist;
      affected := {};
      var removed, queue := {}, [txid];
      ghost var within := Descendants(pendingTxs, txid);
      WalkStart(pendingTxs, txid);
      CollectChainNone(pendingTxs, store.outputs);
      while queue != []
        invariant Valid() && State() == old(State())
        invariant Walk(pendingTxs, txid, removed, queue)
        invariant affected == CollectChain(pendingTxs, store.outputs, removed)
        decreases within - removed, |queue|
      {
        var id := queue[0];
        WalkMore(pendingTxs, txid, removed, queue);
        queue := queue[1..];
        if id !in removed {
          CollectChainNext(pendingTxs, store.outputs, removed, id);
          if id in pendingTxs {
            var found := AffectedScripts(pendingTxs[id]);
            affected := affected + found;
          }
          var more := QueueSpenders(id, removed + {id}, queue);
          WalkVisit(pendingTxs, txid, removed, queue, id, more);
          removed, queue := removed + {id}, more;
        }
      }
      WalkDone(pendingTxs, txid, removed);
      CollectChainAll(pendingTxs, store.outputs, txid);
      RemoveAll(removed);
      RebuildPendingView();
    }

    method RemoveAll(removed: set<Txid>)
      requires Keyed(pendingTxs)
      modifies this`pendingTxs, store`pendingTxids
      ensures pendingTxs == old(pendingTxs) - removed && Keyed(pendingTxs)
      ensures store.pendingTxids == Unlist(old(store.pendingTxids), removed)
    {
      var rest := removed;
      UnlistNone(store.pendingTxids);
      assert removed - rest == {};
      while rest != {}
        invariant rest <= removed
        invariant pendingTxs == old(pendingTxs) - (removed - rest)
        invariant store.pendingTxids == Unlist(old(store.pendingTxids), removed - rest)
        decreases rest
      {
        var id :| id in rest;
        pendingTxs := pendingTxs - {id};
        store.DeletePendingTxid(id);
        UnlistTwice(old(store.pendingTxids), removed - rest, {id});
        assert removed - (rest - {id}) == removed - rest + {id};
        rest := rest - {id};
      }
      assert removed - {} == removed;
    }

    /** `None` when the txid is not pending. The walk runs before the cache is rebuilt. */
    method Forget(txid: Txid) returns (r: Option<set<ScriptHash>>)
      requires Valid()
      modifies this`pendingTxs, this`pendingOutputs, store`pendingTxids
      ensures Valid()
      ensures r.None? <==> txid !in old(pendingTxs)
      ensures State() == if r.None? then old(State()) else Remove(old(State()), {txid})
      ensures r.Some? ==>
        r.value == Affected(View(old(pendingTxs)), pendingTxs, store.outputs, old(pendingTxs)[txid])
    {
      if txid !in pendingTxs {
        return None;
      }
      var tx := pendingTxs[txid];
      pendingTxs := pendingTxs - {txid};
      var affected := AffectedScripts(tx);
      store.DeletePendingTxid(txid);
      RebuildPendingView();
      return Some(affected);
    }

    method ForgetChain(txid: Txid) returns (r: Option<set<ScriptHash>>)
      requires Valid()
      modifies this`pendingTxs, this`pendingOutputs, store`pendingTxids
      ensures Valid()
      ensures r.None? <==> txid !in old(pendingTxs)
      ensures State() == if r.None? then old(State()) else Remove(old(State()), Descendants(old(pendingTxs), txid))
      ensures r.Some? ==> r.value == ChainAffected(old(pendingTxs), store.outputs, txid)
    {
      if txid !in pendingTxs {
        return None;
      }
      var affected := ForgetChainInternal(txid);
      return Some(affected);
    }

    // ---- Adding to the pool -----------------------------------------------------------------

    /** Evicts the conflicts with their chains, in the order they are met. */
    method EvictConflicts(conflicts: set<Txid>) returns (affected: set<ScriptHash>, ghost order: seq<Txid>)
      requires Valid()
      modifies this`pendingTxs, this`pendingOutputs, store`pendingTxids
      ensures Valid() && State() == Remove(old(State()), Chains(old(pendingTxs), conflicts))
      ensures Elements(order) == conflicts && pendingTxs == EvictAll(old(pendingTxs), order)
      ensures affected == EvictAffected(old(pendingTxs), store.outputs, order)
    {
      hide Descendants, ChainAffected, View, Keyed, TxsKeyed, Unlist, Remove, Chains, Elements;
      affected, order := {}, [];
      ghost var start := State();
      var rest := conflicts;
      NoElements();
      assert conflicts - rest == {};
      while rest != {}
        invariant rest <= conflicts && Elements(order) == conflicts - rest
        invariant Valid() && State() == Evicted(start, order)
        invariant affected == EvictAffected(start.pool, store.outputs, order)
        decreases rest
      {
        var id :| id in rest;
        EvictedSnoc(start, store.outputs, order, id);
        var found := ForgetChainInternal(id);
        affected := affected + found;
        ElementsSnoc(order, id);
        order := order + [id];
        assert conflicts - (rest - {id}) == conflicts - rest + {id};
        rest := rest - {id};
      }
      assert conflicts - {} == conflicts;
      EvictedAll(start, order);
    }

    /** Evicts every conflict with its chain, then adds `tx`; the conflicts are met in some order. */
    method TrackInternal(tx: Tx) returns (affected: set<ScriptHash>, ghost order: seq<Txid>)
      requires Valid()
      modifies this`pendingTxs, this`pendingOutputs, store`pendingTxids, store`txs
      ensures Valid() && State() == Model.Track(old(State()), tx)
      ensures Elements(order) == Conflicts(old(pendingTxs), tx)
      ensures affected == TrackAffected(old(pendingTxs), store.outputs, order, tx)
    {
      hide Descendants, Affected, EvictAffected, EvictAll, View, Unlist, List, Chains, Elements;
      affected, order := EvictConflicts(Conflicts(pendingTxs, tx));
      store.StoreTx(tx);
      store.StorePendingTxid(tx.txid);
      pendingTxs := pendingTxs[tx.txid := tx];
      RebuildPendingView();
      var found := AffectedScripts(tx);
      affected := affected + found;
    }

    /** `None` when the raw transaction is not stored. */
    method Restore(txid: Txid) returns (r: Option<set<ScriptHash>>, ghost order: seq<Txid>)
      requires Valid()
      modifies this`pendingTxs, this`pendingOutputs, store`pendingTxids, store`txs
      ensures Valid()
      ensures r.None? <==> txid !in old(store.txs)
      ensures State() == Model.Next(old(State()), Restored(txid))
      ensures r.Some? ==>
        && Elements(order) == Conflicts(old(pendingTxs), old(store.txs)[txid])
        && r.value == TrackAffected(old(pendingTxs), store.outputs, order, old(store.txs)[txid])
    {
      if txid !in store.txs {
        return None, [];
      }
      var affected;
      affected, order := TrackInternal(store.txs[txid]);
      r := Some(affected);
    }

    // ---- Connecting a block -------------------------------------------------------------------

    ghost function Cur(seqNo: nat): Cursor
      reads this, store
    {
      Cursor(Ix(), seqNo)
    }

    /** Records an action in the journal tree and in memory. */
    method Record(height: nat, seqNo: nat, payload: Payload)
      modifies this`byHeight, store`journal
      ensures Cur(seqNo + 1) == Journal(old(Cur(seqNo)), height, payload)
    {
      var key := store.StoreJournalAction(height, seqNo, payload);
      byHeight := Append(byHeight, height, BlockAction(payload, key));
    }

    method RecordHistory(sh: ScriptHash, height: nat, txid: Txid, index: nat, kind: HistoryKind, seqNo: nat)
      modifies this`history, this`byHeight, store`history, store`journal
      ensures Cur(seqNo + 1) == AddHistory(old(Cur(seqNo)), HistoryKey(sh, height, kind, txid, index))
    {
      history := Append(history, sh, TxEntry(txid, height, index));
      var key := store.StoreHistoryEntry(sh, height, txid, index, kind);
      Record(height, seqNo, HistoryAdded(key));
    }

    method ConnectInput(height: nat, txid: Txid, index: nat, prevout: OutPoint, seqNo: nat) returns (next: nat)
      modifies this`history, this`byHeight, store`history, store`journal, store`utxos
      ensures Cur(next) == Step(old(Cur(seqNo)), height, InItem(txid, index, prevout))
    {
      if prevout == NULL_OUTPOINT || prevout !in store.outputs {
        return seqNo;
      }
      var sh := store.outputs[prevout].scriptHash;
      RecordHistory(sh, height, txid, index, Spend, seqNo);
      Record(height, seqNo + 1, OutputSpent(prevout));
      store.DeleteUtxo(sh, prevout);
      return seqNo + 2;
    }

    method ConnectOutput(height: nat, txid: Txid, index: nat, output: TxOut, seqNo: nat) returns (next: nat)
      modifies this`history, this`byHeight, store`history, store`journal, store`utxos, store`outputs
      ensures Cur(next) == Step(old(Cur(seqNo)), height, OutItem(txid, index, output))
    {
      RecordHistory(output.scriptHash, height, txid, index, Fund, seqNo);
      var o := OutPoint(txid, index);
      store.StoreOutput(o, Output(output.scriptHash, output.value, height));
      Record(height, seqNo + 1, OutputAdded(o));
      return seqNo + 2;
    }

    method ConnectInputs(height: nat, tx: Tx, seqNo: nat) returns (next: nat)
      modifies this`history, this`byHeight, store`history, store`journal, store`utxos
      ensures Cur(next) == Steps(old(Cur(seqNo)), height, InputItems(tx, |tx.inputs|))
    {
      hide Step;
      ghost var start := Cur(seqNo);
      next := seqNo;
      for i := 0 to |tx.inputs|
        invariant Cur(next) == Steps(start, height, InputItems(tx, i))
      {
        next := ConnectInput(height, tx.txid, i, tx.inputs[i], next);
        StepsSnoc(start, height, InputItems(tx, i), InItem(tx.txid, i, tx.inputs[i]));
        assert InputItems(tx, i + 1) == InputItems(tx, i) + [InItem(tx.txid, i, tx.inputs[i])];
      }
    }

    method ConnectOutputs(height: nat, tx: Tx, seqNo: nat) returns (next: nat)
      modifies this`history, this`byHeight, store`history, store`journal, store`utxos, store`outputs
      ensures Cur(next) == Steps(old(Cur(seqNo)), height, OutputItems(tx, |tx.outputs|))
    {
      hide Step;
      ghost var start := Cur(seqNo);
      next := seqNo;
      for i := 0 to |tx.outputs|
        invariant Cur(next) == Steps(start, height, OutputItems(tx, i))
      {
        next := ConnectOutput(height, tx.txid, i, tx.outputs[i], next);
        StepsSnoc(start, height, OutputItems(tx, i), OutItem(tx.txid, i, tx.outputs[i]));
        assert OutputItems(tx, i + 1) == OutputItems(tx, i) + [OutItem(tx.txid, i, tx.outputs[i])];
      }
    }

    method ConnectTx(height: nat, tx: Tx, seqNo: nat) returns (next: nat)
      modifies this`history, this`byHeight, store`history, store`journal, store`utxos, store`outputs
      ensures Cur(next) == Steps(old(Cur(seqNo)), height, TxItems(tx))
    {
      ghost var start := Cur(seqNo);
      hide Steps;
      Record(height, seqNo, TxMined(tx.txid));
      TxItemsSteps(start, height, tx);
      next := ConnectInputs(height, tx, seqNo + 1);
      next := ConnectOutputs(height, tx, next);
    }

    /** Connects a block: its transactions stop being pending and every tree and cache advances. */
    method ApplyBlock(block: Block, height: nat)
      requires Valid()
      modifies this, store
      ensures Valid() && State() == Connect(old(State()), block, height)
    {
      ghost var start := State();
      hide Steps, TxItems, Items, StoreAll, Unlist, Txids, View, Keyed, TxsKeyed, Step, Apply;
      var seqNo := 0;
      NoneConnected(start, block, height);
      for t := 0 to |block|
        invariant Valid()
        invariant Cur(seqNo) == Steps(Cursor(start.ix, 0), height, Items(block[..t]))
        invariant store.txs == StoreAll(start.txs, block[..t])
        invariant pendingTxs == start.pool - Txids(block[..t])
        invariant store.pendingTxids == Unlist(start.listed, Txids(block[..t]))
      {
        var tx := block[t];
        ForgetInternal(tx.txid);
        StoredKeyed(store.txs, tx);
        store.StoreTx(tx);
        seqNo := ConnectTx(height, tx, seqNo);
        BlockPrefix(block, t);
        StepsConcat(Cursor(start.ix, 0), height, Items(block[..t]), TxItems(tx));
        UnlistTwice(start.listed, Txids(block[..t]), {tx.txid});
      }
      assert block[..|block|] == block;
      tipHeight := height;
      store.SetTipHeight(height);
      AppliedSteps(start.ix, block, height);
    }

    // ---- Disconnecting a block ----------------------------------------------------------------

    method UndoAction(action: BlockAction)
      modifies store`journal, store`history, store`outputs, store`utxos, store`txs
      ensures Ix() == Undo(old(Ix()), action)
      ensures store.txs == old(store.txs) - MinedBy([action])
    {
      store.DeleteJournalKey(action.key);
      match action.payload
      case TxMined(txid) =>
        store.DeleteTx(txid);
      case HistoryAdded(key) =>
        store.DeleteHistoryKey(key);
      case OutputAdded(o) =>
        if o in store.outputs {
          store.DeleteUtxo(store.outputs[o].scriptHash, o);
        }
        store.DeleteOutput(o);
      case OutputSpent(o) =>
        if o in store.outputs {
          store.StoreOutput(o, store.outputs[o]);
        }
    }

    method UndoEntries(entries: seq<BlockAction>)
      modifies store`journal, store`history, store`outputs, store`utxos, store`txs
      ensures Ix() == UndoAll(old(Ix()), entries)
      ensures store.txs == old(store.txs) - MinedBy(entries)
    {
      ghost var start, txs := Ix(), store.txs;
      hide Undo, UndoAll, MinedBy;
      var i := |entries|;
      NoneUndone(entries);
      while i > 0
        invariant 0 <= i <= |entries|
        invariant UndoAll(Ix(), entries[..i]) == UndoAll(start, entries)
        invariant store.txs == txs - MinedBy(entries[i..])
      {
        i := i - 1;
        UndoNext(Ix(), entries, i);
        UndoAction(entries[i]);
      }
      UndoNone(Ix());
      assert entries[0..] == entries;
    }

    method DropEntries(height: nat)
      modifies this`history
      ensures history == DropHeight(old(history), height)
    {
      hide Retain;
      history := map sh | sh in history :: Retain(history[sh], height);
      history := map sh | sh in history && history[sh] != [] :: history[sh];
    }

    /** Replays the actions recorded at a height in reverse and steps the tip back. */
    method RollbackHeight(height: nat)
      requires Valid()
      modifies this, store
      ensures Valid() && State() == Disconnect(old(State()), height)
    {
      hide UndoAll, View, MinedBy, DropHeight, Keyed, TxsKeyed;
      ghost var txs := store.txs;
      FewerKeyed(txs, MinedBy(Get(byHeight, height)));
      NoneMined();
      if height in byHeight {
        var entries := byHeight[height];
        byHeight := byHeight - {height};
        UndoEntries(entries);
        DropEntries(height);
        RebuildPendingView();
      }
      if tipHeight == height {
        tipHeight := SaturatingPred(height);
        store.SetTipHeight(tipHeight);
      }
    }

    // ---- Queries --------------------------------------------------------------------------------

    method TouchesScript(tx: Tx, sh: ScriptHash) returns (touches: bool)
      ensures touches == (sh in Touched(pendingOutputs, pendingTxs, store.outputs, tx))
    {
      for i := 0 to |tx.inputs|
        invariant forall j | 0 <= j < i && tx.inputs[j] != NULL_OUTPOINT ::
          Resolve(pendingOutputs, pendingTxs, store.outputs, tx.inputs[j]) != Some(sh)
      {
        if tx.inputs[i] != NULL_OUTPOINT
           && Resolve(pendingOutputs, pendingTxs, store.outputs, tx.inputs[i]) == Some(sh) {
          assert tx.inputs[i] in Spends(tx);
          return true;
        }
      }
      for i := 0 to |tx.outputs|
        invariant forall j | 0 <= j < i :: tx.outputs[j].scriptHash != sh
      {
        if tx.outputs[i].scriptHash == sh {
          return true;
        }
      }
      return false;
    }

    method PendingHistory(sh: ScriptHash) returns (out: seq<TxEntry>)
      requires Valid()
      ensures multiset(out) == multiset(PoolHistory(pendingTxs, store.outputs, sh))
    {
      hide View, Touched;
      out := [];
      var rest := pendingTxs.Keys;
      while rest != {}
        invariant rest <= pendingTxs.Keys
        invariant multiset(out) == multiset(set id | id in Touching(pendingTxs, store.outputs, sh) && id !in rest
                                              :: TxEntry(id, 0, 0))
        decreases rest
      {
        var id :| id in rest;
        var touches := TouchesScript(pendingTxs[id], sh);
        ghost var before := set x | x in Touching(pendingTxs, store.outputs, sh) && x !in rest :: TxEntry(x, 0, 0);
        ghost var after := set x | x in Touching(pendingTxs, store.outputs, sh) && x !in rest - {id}
          :: TxEntry(x, 0, 0);
        if touches {
          out := out + [TxEntry(id, 0, 0)];
          assert after == before + {TxEntry(id, 0, 0)};
          assert multiset(after) == multiset(before) + multiset{TxEntry(id, 0, 0)};
        } else {
          assert after == before;
        }
        rest := rest - {id};
      }
      assert PoolHistory(pendingTxs, store.outputs, sh)
          == set id | id in Touching(pendingTxs, store.outputs, sh) && id !in rest :: TxEntry(id, 0, 0);
    }

    method GetHistory(sh: ScriptHash) returns (out: seq<TxEntry>)
      requires Valid()
      ensures IsHistory(Get(history, sh), pendingTxs, store.outputs, sh, out)
    {
      hide PoolHistory;
      var pending := PendingHistory(sh);
      var all := Get(history, sh) + pending;
      SortBySorted(all, EntryKey);
      out := SortBy(all, EntryKey);
    }

    /** Input value, whether every input is stored, and whether every input value is known. */
    method InputsOf(tx: Tx) returns (paid: u64, stored: bool, known: bool)
      requires Valid()
      ensures paid == InputValue(pendingTxs, store.outputs, tx)
      ensures stored == (Spends(tx) <= store.outputs.Keys)
      ensures known == FeeKnown(pendingTxs, store.outputs, tx)
    {
      hide View, Sum, Paying;
      NonePaid(pendingTxs, store.outputs);
      paid, stored, known := 0, true, true;
      var seen: set<OutPoint> := {};
      for i := 0 to |tx.inputs|
        invariant seen == set j | 0 <= j < i && tx.inputs[j] != NULL_OUTPOINT :: tx.inputs[j]
        invariant paid == Min(U64_MAX, Sum(seen, Paying(pendingTxs, store.outputs)))
        invariant stored == (seen <= store.outputs.Keys)
        invariant known == forall o | o in seen :: FindOutput(pendingTxs, store.outputs, o).Some?
      {
        var o := tx.inputs[i];
        if o != NULL_OUTPOINT && o !in seen {
          CacheAgrees(pendingTxs, o);
          var cached := CachedOutput(pendingOutputs, pendingTxs, o);
          PaidNext(pendingTxs, store.outputs, seen, o);
          if o in store.outputs {
            paid := SaturatingAdd(paid, store.outputs[o].value);
          } else if cached.Some? {
            paid := SaturatingAdd(paid, cached.value.value);
            stored := false;
          } else {
            stored, known := false, false;
          }
          seen := seen + {o};
        }
      }
      assert seen == Spends(tx);
    }

    method OutputsTotal(tx: Tx) returns (total: u64)
      ensures total == OutputValue(tx)
    {
      total := 0;
      for i := 0 to |tx.outputs|
        invariant total == Min(U64_MAX, Total(tx.outputs[..i]))
      {
        assert tx.outputs[..i + 1][..i] == tx.outputs[..i];
        total := SaturatingAdd(total, tx.outputs[i].value);
      }
      assert tx.outputs[..|tx.outputs|] == tx.outputs;
    }

    method Mempool(sh: ScriptHash) returns (out: seq<MempoolEntry>)
      requires Valid()
      ensures IsMempool(pendingTxs, store.outputs, sh, out)
    {
      hide View, Touched, FeeKnown;
      var entries := [];
      var rest := pendingTxs.Keys;
      ghost var ids := Touching(pendingTxs, store.outputs, sh);
      while rest != {}
        invariant rest <= pendingTxs.Keys
        invariant multiset(entries) == multiset(EntriesOf(pendingTxs, store.outputs, ids - rest))
        decreases rest
      {
        var id :| id in rest;
        var tx := pendingTxs[id];
        var touches := TouchesScript(tx, sh);
        EntriesNext(pendingTxs, store.outputs, ids - rest, id);
        if touches {
          var paid, stored, known := InputsOf(tx);
          var total := OutputsTotal(tx);
          entries := entries + [MempoolEntry(id, if stored then 0 else -1, SaturatingSub(paid, total))];
          assert ids - (rest - {id}) == ids - rest + {id};
        } else {
          assert ids - (rest - {id}) == ids - rest;
        }
        rest := rest - {id};
      }
      assert ids - rest == ids;
      EntriesAll(pendingTxs, store.outputs, sh);
      SortBySorted(entries, MempoolKey);
      out := SortBy(entries, MempoolKey);
    }

    /** Spends are looked up once each, whichever transaction mentions them first. */
    method SpentDelta(sh: ScriptHash) returns (delta: int)
      requires Valid()
      ensures delta == Wrap(-Sum(SpentFrom(pendingTxs, store.outputs, sh), Signed(Paying(pendingTxs, store.outputs))))
    {
      hide View, Sum, Signed, Paying, SpentFrom, Resolve;
      NoneSpent(pendingTxs, store.outputs, sh);
      delta := 0;
      var seen: set<OutPoint> := {};
      var rest := pendingTxs.Keys;
      assert pendingTxs - rest == map[];
      while rest != {}
        invariant rest <= pendingTxs.Keys
        invariant seen == SpentBy(pendingTxs - rest)
        invariant delta == SpentSoFar(pendingTxs, store.outputs, sh, seen)
        decreases rest
      {
        var id :| id in rest;
        var tx := pendingTxs[id];
        ghost var before := seen;
        for i := 0 to |tx.inputs|
          invariant seen == before + set j | 0 <= j < i && tx.inputs[j] != NULL_OUTPOINT :: tx.inputs[j]
          invariant delta == SpentSoFar(pendingTxs, store.outputs, sh, seen)
        {
          var o := tx.inputs[i];
          if o != NULL_OUTPOINT && o !in seen {
            CacheAgrees(pendingTxs, o);
            SpentNext(pendingTxs, store.outputs, sh, seen, o);
            if Resolve(pendingOutputs, pendingTxs, store.outputs, o) == Some(sh) {
              var found := if o in store.outputs then Some(store.outputs[o])
                           else CachedOutput(pendingOutputs, pendingTxs, o);
              var value := match found case Some(out) => out.value case None => 0;
              delta := Wrap(delta - AsI64(value));
            }
            seen := seen + {o};
          }
        }
        assert seen == before + Spends(tx);
        assert pendingTxs - (rest - {id}) == (pendingTxs - rest)[id := tx];
        SpentByNext(pendingTxs - rest, id, tx);
        rest := rest - {id};
      }
      assert pendingTxs - {} == pendingTxs;
      SpentAll(pendingTxs, store.outputs, sh);
    }

    method UnconfirmedDelta(sh: ScriptHash) returns (delta: int)
      requires Valid()
      ensures delta == Delta(pendingTxs, store.outputs, sh)
    {
      hide View, Sum, Signed, Paying, SpentFrom, Wrap, InView;
      delta := SpentDelta(sh);
      ghost var spent := Sum(SpentFrom(pendingTxs, store.outputs, sh), Signed(Paying(pendingTxs, store.outputs)));
      ghost var ours := Unclaimed(pendingTxs, sh);
      var rest := pendingOutputs.Keys;
      NoneUnclaimed(pendingTxs);
      assert ours - rest == {};
      while rest != {}
        invariant rest <= pendingOutputs.Keys
        invariant delta == Wrap(Sum(ours - rest, Signed(InView(pendingTxs))) - spent)
        decreases rest
      {
        var o :| o in rest;
        if pendingOutputs[o].scriptHash == sh {
          UnclaimedNext(pendingTxs, ours - rest, o, spent);
          delta := Wrap(delta + AsI64(pendingOutputs[o].value));
          assert ours - (rest - {o}) == ours - rest + {o};
        } else {
          assert ours - (rest - {o}) == ours - rest;
        }
        rest := rest - {o};
      }
      assert ours - rest == ours;
    }

    method PendingUnspentOf(sh: ScriptHash) returns (out: seq<Unspent>)
      requires Valid()
      ensures multiset(out) == multiset(PendingUnspent(pendingTxs, sh))
    {
      hide View;
      out := [];
      ghost var ours := Unclaimed(pendingTxs, sh);
      var rest := pendingOutputs.Keys;
      assert ours - rest == {};
      while rest != {}
        invariant rest <= pendingOutputs.Keys
        invariant multiset(out) == multiset(set o | o in ours - rest :: PendingOf(pendingTxs, o))
        decreases rest
      {
        var o :| o in rest;
        ghost var before := set x | x in ours - rest :: PendingOf(pendingTxs, x);
        ghost var after := set x | x in ours - (rest - {o}) :: PendingOf(pendingTxs, x);
        if pendingOutputs[o].scriptHash == sh {
          var u := Unspent(o, pendingOutputs[o].value, 0);
          assert ours - (rest - {o}) == ours - rest + {o};
          assert after == before + {u};
          assert u !in before;
          assert multiset(before + {u}) == multiset(before) + multiset{u};
          out := out + [u];
        } else {
          assert ours - (rest - {o}) == ours - rest;
        }
        rest := rest - {o};
      }
      assert ours - rest == ours;
    }

    /** Confirmed outputs that no pending transaction spends, then unspent pending outputs. */
    method ListUnspent(sh: ScriptHash) returns (r: Result<seq<Unspent>>)
      requires Valid()
      ensures r.Err? <==> exists k :: k in ScriptKeys(store.utxos, sh) && k.outpoint !in store.outputs
      ensures r.Ok? ==> IsUnspent(store.utxos, store.outputs, pendingTxs, sh, r.value)
    {
      hide View, PendingUnspent, ConfirmedUnspent, SpentBy;
      var spent := PendingSpentOutpoints();
      r := store.ListUnspentForScript(sh);
      if r.Err? {
        return r;
      }
      var kept := WithoutSpent(r.value, spent);
      KeptUnspent(store.utxos, store.outputs, pendingTxs, sh, r.value);
      var pending := PendingUnspentOf(sh);
      var all := kept + pending;
      SortBySorted(all, UnspentKey);
      r := Ok(Dedup(SortBy(all, UnspentKey)));
    }

    /** The whole fee rate of a transaction, and whether it has a row in the histogram. */
    method FeeRate(id: Txid) returns (counts: bool, rate: nat)
      requires Valid() && id in pendingTxs
      ensures counts <==> id in Eligible(pendingTxs, store.outputs)
      ensures rate == Rate(pendingTxs, store.outputs, pendingTxs[id])
    {
      hide View, FeeKnown, Fee, Rate, InputValue, OutputValue;
      var tx := pendingTxs[id];
      var paid, stored, known := InputsOf(tx);
      var total := OutputsTotal(tx);
      FeeOf(pendingTxs, store.outputs, tx);
      RateOfFee(pendingTxs, store.outputs, tx);
      var fee := SaturatingSub(paid, total);
      rate := RateOf(fee, Vsize(tx));
      counts := known && fee != 0 && rate != 0;
    }

    /** Groups the fee-paying transactions by whole fee rate, highest rate first. */
    method FeeHistogram() returns (rows: seq<Row>)
      requires Valid()
      ensures IsHistogram(Eligible(pendingTxs, store.outputs), Rates(pendingTxs, store.outputs),
                          Sizes(pendingTxs), rows)
    {
      hide View, Rate, Bucketed, IsHistogram, Vsize, Eligible;
      ghost var rates, sizes := Rates(pendingTxs, store.outputs), Sizes(pendingTxs);
      ghost var eligible := Eligible(pendingTxs, store.outputs);
      EligiblePending(pendingTxs, store.outputs);
      var buckets: map<nat, nat> := map[];
      var rest := pendingTxs.Keys;
      assert eligible - rest == {};
      NoBuckets(rates, sizes);
      while rest != {}
        invariant rest <= pendingTxs.Keys
        invariant Bucketed(eligible - rest, rates, sizes, buckets)
        decreases rest
      {
        var id :| id in rest;
        var counts, rate := FeeRate(id);
        if counts {
          BucketNext(eligible - rest, rates, sizes, buckets, id);
          buckets := buckets[rate := (if rate in buckets then buckets[rate] else 0) + Vsize(pendingTxs[id])];
          assert eligible - (rest - {id}) == eligible - rest + {id};
        } else {
          assert eligible - (rest - {id}) == eligible - rest;
        }
        rest := rest - {id};
      }
      assert eligible - rest == eligible;
      rows := RowsOf(buckets);
      RowsHistogram(eligible, rates, sizes, buckets, rows);
    }

    method RowsOf(buckets: map<nat, nat>) returns (rows: seq<Row>)
      ensures Decreasing(rows)
      ensures forall row :: row in rows <==> row.rate in buckets && buckets[row.rate] == row.vsize
    {
      var out: seq<Row> := [];
      var rest := buckets.Keys;
      while rest != {}
        invariant rest <= buckets.Keys
        invariant forall row: Row ::
          row in out <==> row.rate in buckets && row.rate !in rest && buckets[row.rate] == row.vsize
        invariant forall i, j | 0 <= i < j < |out| :: out[i].rate != out[j].rate
        decreases rest
      {
        var rate :| rate in rest;
        assert forall i | 0 <= i < |out| :: out[i] in out;
        out := out + [Row(rate, buckets[rate])];
        rest := rest - {rate};
      }
      SortBySorted(out, RowKey);
      rows := SortBy(out, RowKey);
      SortedDecreasing(out, rows);
    }
  }

  /** The state that a store describes, with empty caches. */
  ghost function Stored(s: PersistentIndex): Model.State
    reads s
  {
    Model.State(Index(s.outputs, s.utxos, s.history, map[], s.journal, map[], s.tip), s.txs, map[], s.pendingTxids)
  }

  /** What a store can be reopened to does not depend on the caches of the state that wrote it. */
  lemma ReopenedFromStore(index: IndexState, st: Model.State)
    requires index.Valid()
    ensures Reopened(Stored(index.store), st) <==> Reopened(index.State(), st)
  {
    hide HistoryAgrees, JournalLoaded, Keyed, TxsKeyed, View;
    assert PoolLoaded(Stored(index.store)) == PoolLoaded(index.State());
  }
}
