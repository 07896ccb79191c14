/** The whole indexer as a value: confirmed index, raw transactions, pending pool and its stored list. */
module Model {
  import opened Chain
  import opened Confirmed
  import opened Pending
  import Reorg

  /** `listed` is the persisted list of pending txids. */
  datatype State = State(ix: Index, txs: map<Txid, Tx>, pool: Pool, listed: seq<Txid>)

  const START := State(EMPTY, map[], map[], [])

  datatype Event =
    | Connected(block: Block, height: nat)
    | Disconnected(height: nat)
    | Tracked(tx: Tx)
    | Restored(txid: Txid)
    | Forgotten(txid: Txid)
    | ChainForgotten(txid: Txid)
    | RawStored(tx: Tx)

  function Unlist(listed: seq<Txid>, ids: set<Txid>): seq<Txid> {
    if listed == [] then []
    else
      var rest, last := Unlist(listed[..|listed| - 1], ids), listed[|listed| - 1];
      if last in ids then rest else rest + [last]
  }

  function List(listed: seq<Txid>, id: Txid): seq<Txid> {
    if id in listed then listed else listed + [id]
  }

  function Remove(st: State, ids: set<Txid>): State {
    st.(pool := st.pool - ids, listed := Unlist(st.listed, ids))
  }

  ghost function Track(st: State, tx: Tx): State {
    var kept := Remove(st, Chains(st.pool, Conflicts(st.pool, tx)));
    kept.(txs := kept.txs[tx.txid := tx], pool := kept.pool[tx.txid := tx], listed := List(kept.listed, tx.txid))
  }

  function StoreAll(txs: map<Txid, Tx>, block: Block): map<Txid, Tx> {
    if block == [] then txs
    else StoreAll(txs, block[..|block| - 1])[block[|block| - 1].txid := block[|block| - 1]]
  }

  function Connect(st: State, block: Block, h: nat): State {
    Remove(st, Txids(block)).(ix := Apply(st.ix, block, h), txs := StoreAll(st.txs, block))
  }

  function MinedBy(actions: seq<BlockAction>): set<Txid> {
    set a | a in actions && a.payload.TxMined? :: a.payload.txid
  }

  /** A disconnect deletes the raw transactions it finds in the journal and restores no pending ones. */
  function Disconnect(st: State, h: nat): State {
    st.(ix := Rollback(st.ix, h), txs := st.txs - MinedBy(Get(st.ix.byHeight, h)))
  }

  ghost function Next(st: State, e: Event): State {
    match e
    case Connected(block, h) => Connect(st, block, h)
    case Disconnected(h) => Disconnect(st, h)
    case Tracked(tx) => Track(st, tx)
    case Restored(id) => if id in st.txs then Track(st, st.txs[id]) else st
    case Forgotten(id) => if id in st.pool then Remove(st, {id}) else st
    case ChainForgotten(id) => if id in st.pool then Remove(st, Descendants(st.pool, id)) else st
    case RawStored(tx) => st.(txs := st.txs[tx.txid := tx])
  }

  ghost function RunFrom(st: State, events: seq<Event>): State {
    if events == [] then st else Next(RunFrom(st, events[..|events| - 1]), events[|events| - 1])
  }

  ghost function Run(events: seq<Event>): State {
    RunFrom(START, events)
  }

  // ---- Only blocks move the confirmed index -------------------------------------------------

  function BlockEvents(events: seq<Event>): seq<Reorg.BlockEvent> {
    if events == [] then []
    else
      var rest := BlockEvents(events[..|events| - 1]);
      match events[|events| - 1]
      case Connected(block, h) => rest + [Reorg.Connected(block, h)]
      case Disconnected(h) => rest + [Reorg.Disconnected(h)]
      case _ => rest
  }

  lemma NextIndex(st: State, e: Event)
    ensures Next(st, e).ix == match e
      case Connected(block, h) => Apply(st.ix, block, h)
      case Disconnected(h) => Rollback(st.ix, h)
      case _ => st.ix
  {
    hide Apply, Rollback, Chains, Descendants, Conflicts, StoreAll, Unlist, List, Txids, MinedBy;
    match e
    case Restored(_) =>
    case Tracked(_) =>
    case _ =>
  }

  /** Pending events, however interleaved, leave the confirmed index to the block events. */
  lemma {:induction false} RunIndex(events: seq<Event>)
    ensures Run(events).ix == Reorg.Run(BlockEvents(events))
  {
    hide Apply, Rollback, Next;
    if events != [] {
      var rest := BlockEvents(events[..|events| - 1]);
      RunIndex(events[..|events| - 1]);
      NextIndex(Run(events[..|events| - 1]), events[|events| - 1]);
      match events[|events| - 1]
      case Connected(block, h) => assert (rest + [Reorg.Connected(block, h)])[..|rest|] == rest;
      case Disconnected(h) => assert (rest + [Reorg.Disconnected(h)])[..|rest|] == rest;
      case _ =>
    }
  }

  // ---- No pending double spends -------------------------------------------------------------

  /** No tracked transaction shares a prevout with its own surviving direct parent. */
  ghost predicate Honest(st: State, e: Event) {
    match e
    case Tracked(tx) => !SharesWithParent(st.pool, tx)
    case Restored(id) => id in st.txs ==> !SharesWithParent(st.pool, st.txs[id])
    case _ => true
  }

  ghost predicate HonestRun(events: seq<Event>) {
    events != [] ==>
      HonestRun(events[..|events| - 1]) && Honest(Run(events[..|events| - 1]), events[|events| - 1])
  }

  lemma {:induction false} NeverDoubleSpent(events: seq<Event>)
    requires HonestRun(events)
    ensures NoDoubleSpend(Run(events).pool)
  {
    hide Apply, Rollback, Chains, Descendants, Conflicts, StoreAll, Unlist, List, NoDoubleSpend, SharesWithParent;
    if events == [] {
      NoneDoubleSpent();
    } else {
      var st, e := Run(events[..|events| - 1]), events[|events| - 1];
      NeverDoubleSpent(events[..|events| - 1]);
      match e
      case Connected(block, _) => RemovalNoDoubleSpend(st.pool, Txids(block));
      case Disconnected(_) =>
      case Tracked(tx) => TrackNoDoubleSpend(st.pool, tx);
      case Restored(id) => if id in st.txs { TrackNoDoubleSpend(st.pool, st.txs[id]); }
      case Forgotten(id) => RemovalNoDoubleSpend(st.pool, {id});
      case ChainForgotten(id) => RemovalNoDoubleSpend(st.pool, Descendants(st.pool, id));
      case RawStored(_) =>
    }
  }

  lemma NoneDoubleSpent()
    ensures NoDoubleSpend(map[])
  {
  }

  // ---- The persisted list of pending txids --------------------------------------------------

  lemma {:induction false} UnlistElements(listed: seq<Txid>, ids: set<Txid>)
    ensures Elements(Unlist(listed, ids)) == Elements(listed) - ids
  {
    if listed != [] {
      var rest, last := listed[..|listed| - 1], listed[|listed| - 1];
      UnlistElements(rest, ids);
      ElementsSnoc(rest, last);
      assert listed == rest + [last];
      ElementsSnoc(Unlist(rest, ids), last);
    }
  }

  lemma ElementsSnoc(listed: seq<Txid>, id: Txid)
    ensures Elements(listed + [id]) == Elements(listed) + {id}
  {
  }

  /** The list names the pending transactions, and each has its raw transaction in the store. */
  ghost predicate Backed(st: State) {
    && Elements(st.listed) == st.pool.Keys
    && forall id | id in st.pool :: id in st.txs && st.txs[id] == st.pool[id] && st.pool[id].txid == id
  }

  ghost predicate TxsKeyed(txs: map<Txid, Tx>) {
    forall id | id in txs :: txs[id].txid == id
  }

  /** The txids the journal knows as mined. */
  function Mined(ix: Index): set<Txid> {
    set h, a | h in ix.byHeight && a in ix.byHeight[h] && a.payload.TxMined? :: a.payload.txid
  }

  /** No confirmed transaction is tracked, and no pending one is stored again with another witness. */
  ghost predicate Timely(st: State, e: Event) {
    match e
    case Tracked(tx) => tx.txid !in Mined(st.ix)
    case Restored(id) => id in st.txs ==> id !in Mined(st.ix)
    case RawStored(tx) => tx.txid in st.pool ==> st.pool[tx.txid] == tx
    case _ => true
  }

  ghost predicate TimelyRun(events: seq<Event>) {
    events != [] ==>
      TimelyRun(events[..|events| - 1]) && Timely(Run(events[..|events| - 1]), events[|events| - 1])
  }

  /** No txid is both pending and confirmed, and the list and the raw transactions back the pool. */
  ghost predicate Settled(st: State) {
    Backed(st) && TxsKeyed(st.txs) && st.pool.Keys !! Mined(st.ix)
  }

  lemma RemoveSettled(st: State, ids: set<Txid>)
    requires Settled(st)
    ensures Settled(Remove(st, ids))
  {
    hide Mined, Unlist;
    UnlistElements(st.listed, ids);
  }

  lemma TrackSettled(st: State, tx: Tx)
    requires Settled(st) && tx.txid !in Mined(st.ix)
    ensures Settled(Track(st, tx))
  {
    hide Mined, Unlist, Chains, Conflicts;
    var kept := Remove(st, Chains(st.pool, Conflicts(st.pool, tx)));
    RemoveSettled(st, Chains(st.pool, Conflicts(st.pool, tx)));
    ElementsSnoc(kept.listed, tx.txid);
  }

  lemma StepMined(c: Cursor, h: nat, item: Item)
    ensures Mined(Step(c, h, item).ix) <= Mined(c.ix) + {item.txid}
  {
    match item
    case TxItem(_) =>
    case InItem(_, _, _) =>
    case OutItem(_, _, _) =>
  }

  lemma {:induction false} StepsMined(c: Cursor, h: nat, items: seq<Item>, txids: set<Txid>)
    requires forall item | item in items :: item.txid in txids
    ensures Mined(Steps(c, h, items).ix) <= Mined(c.ix) + txids
  {
    hide Mined, Step;
    if items != [] {
      StepsMined(c, h, items[..|items| - 1], txids);
      StepMined(Steps(c, h, items[..|items| - 1]), h, items[|items| - 1]);
    }
  }

  lemma ApplyMined(ix: Index, block: Block, h: nat)
    ensures Mined(Apply(ix, block, h)) <= Mined(ix) + Txids(block)
  {
    hide Steps;
    Reorg.ItemTxids(block);
    StepsMined(Cursor(ix, 0), h, Items(block), Txids(block));
  }

  lemma RollbackMined(ix: Index, h: nat)
    ensures Mined(Rollback(ix, h)) <= Mined(ix)
  {
    if h in ix.byHeight {
      UndoAllTrees(ix.(byHeight := ix.byHeight - {h}), ix.byHeight[h]);
    }
  }

  lemma {:induction false} StoredAll(txs: map<Txid, Tx>, block: Block)
    ensures StoreAll(txs, block).Keys == txs.Keys + Txids(block)
    ensures forall id | id in txs && id !in Txids(block) :: StoreAll(txs, block)[id] == txs[id]
    ensures TxsKeyed(txs) ==> TxsKeyed(StoreAll(txs, block))
  {
    if block != [] {
      var rest, last := block[..|block| - 1], block[|block| - 1];
      StoredAll(txs, rest);
      assert block == rest + [last];
      assert Txids(block) == Txids(rest) + {last.txid};
    }
  }

  lemma ConnectSettled(st: State, block: Block, h: nat)
    requires Settled(st)
    ensures Settled(Connect(st, block, h))
  {
    hide Mined, Unlist, StoreAll, Apply, Txids;
    RemoveSettled(st, Txids(block));
    StoredAll(st.txs, block);
    ApplyMined(st.ix, block, h);
  }

  lemma MinedAt(ix: Index, h: nat)
    ensures MinedBy(Get(ix.byHeight, h)) <= Mined(ix)
  {
  }

  lemma DisconnectSettled(st: State, h: nat)
    requires Settled(st)
    ensures Settled(Disconnect(st, h))
  {
    hide Mined, MinedBy, Rollback;
    RollbackMined(st.ix, h);
    MinedAt(st.ix, h);
  }

  /** Over every timely run the pool stays apart from the confirmed txids and backed by the store. */
  lemma {:induction false} AlwaysSettled(events: seq<Event>)
    requires TimelyRun(events)
    ensures Settled(Run(events))
  {
    hide Settled, Connect, Disconnect, Remove, Track, Descendants, Mined;
    if events == [] {
      StartSettled();
    } else {
      var st, e := Run(events[..|events| - 1]), events[|events| - 1];
      AlwaysSettled(events[..|events| - 1]);
      match e
      case Connected(block, h) => ConnectSettled(st, block, h);
      case Disconnected(h) => DisconnectSettled(st, h);
      case Tracked(tx) => TrackSettled(st, tx);
      case Restored(id) => if id in st.txs { RestoreSettled(st, id); }
      case Forgotten(id) => if id in st.pool { RemoveSettled(st, {id}); }
      case ChainForgotten(id) => if id in st.pool { RemoveSettled(st, Descendants(st.pool, id)); }
      case RawStored(tx) => RawSettled(st, tx);
    }
  }

  /** One event keeps that exactly when it is timely. */
  lemma TimelyExact(st: State, e: Event)
    requires Settled(st)
    ensures Settled(Next(st, e)) <==> Timely(st, e)
  {
    hide Connect, Disconnect, Remove, Descendants, Mined, TxsKeyed;
    NextIndex(st, e);
    match e
    case Connected(block, h) => ConnectSettled(st, block, h);
    case Disconnected(h) => DisconnectSettled(st, h);
    case Tracked(tx) => TrackedExact(st, tx);
    case Restored(id) =>
      if id in st.txs {
        StoredUnder(st, id);
        TrackedExact(st, st.txs[id]);
      }
    case Forgotten(id) => if id in st.pool { RemoveSettled(st, {id}); }
    case ChainForgotten(id) => if id in st.pool { RemoveSettled(st, Descendants(st.pool, id)); }
    case RawStored(tx) => RawExact(st, tx);
  }

  lemma StoredUnder(st: State, id: Txid)
    requires Settled(st) && id in st.txs
    ensures st.txs[id].txid == id
  {
  }

  lemma TrackedExact(st: State, tx: Tx)
    requires Settled(st)
    ensures Settled(Track(st, tx)) <==> tx.txid !in Mined(st.ix)
  {
    hide Mined, Chains, Conflicts, Unlist, List, TxsKeyed, Backed;
    if tx.txid !in Mined(st.ix) {
      TrackSettled(st, tx);
    }
  }

  lemma RawExact(st: State, tx: Tx)
    requires Settled(st)
    ensures Settled(st.(txs := st.txs[tx.txid := tx])) <==> (tx.txid in st.pool ==> st.pool[tx.txid] == tx)
  {
    hide Mined;
  }

  /** So a run keeps the pool settled throughout if and only if it is timely. */
  lemma {:induction false} SettledThroughout(events: seq<Event>)
    ensures TimelyRun(events) <==> forall k | 0 <= k <= |events| :: Settled(Run(events[..k]))
  {
    hide Settled, Timely, Next;
    if events == [] {
      StartSettled();
    } else {
      var n := |events| - 1;
      SettledThroughout(events[..n]);
      assert forall k | 0 <= k <= n :: events[..n][..k] == events[..k];
      assert events[..|events|] == events;
      assert (forall k | 0 <= k <= n :: Settled(Run(events[..k])))
        <==> (forall k | 0 <= k <= n :: Settled(Run(events[..n][..k])));
      if Settled(Run(events[..n])) {
        TimelyExact(Run(events[..n]), events[n]);
      }
    }
  }

  lemma StartSettled()
    ensures Settled(START)
  {
  }

  lemma RestoreSettled(st: State, id: Txid)
    requires Settled(st) && id in st.txs && id !in Mined(st.ix)
    ensures Settled(Track(st, st.txs[id]))
  {
    hide Track, Mined;
    TrackSettled(st, st.txs[id]);
  }

  lemma RawSettled(st: State, tx: Tx)
    requires Settled(st) && (tx.txid in st.pool ==> st.pool[tx.txid] == tx)
    ensures Settled(st.(txs := st.txs[tx.txid := tx]))
  {
    hide Mined;
  }

  // ---- What every run keeps -----------------------------------------------------------------

  /** The list names the pending transactions, and everything is filed under its own txid. */
  ghost predicate Listed(st: State) {
    Elements(st.listed) == st.pool.Keys && TxsKeyed(st.txs) && Keyed(st.pool)
  }

  lemma RemoveListed(st: State, ids: set<Txid>)
    requires Listed(st)
    ensures Listed(Remove(st, ids))
  {
    hide Unlist;
    UnlistElements(st.listed, ids);
  }

  lemma TrackListed(st: State, tx: Tx)
    requires Listed(st)
    ensures Listed(Track(st, tx))
  {
    hide Unlist, Chains, Conflicts;
    var kept := Remove(st, Chains(st.pool, Conflicts(st.pool, tx)));
    RemoveListed(st, Chains(st.pool, Conflicts(st.pool, tx)));
    ElementsSnoc(kept.listed, tx.txid);
  }

  lemma NextListed(st: State, e: Event)
    requires Listed(st)
    ensures Listed(Next(st, e))
  {
    hide Unlist, Chains, Conflicts, Apply, Rollback, StoreAll, Txids, MinedBy, Descendants, Track, Elements;
    match e
    case Connected(block, h) =>
      RemoveListed(st, Txids(block));
      StoredAll(st.txs, block);
    case Disconnected(h) =>
    case Tracked(tx) => TrackListed(st, tx);
    case Restored(id) => if id in st.txs { TrackListed(st, st.txs[id]); }
    case Forgotten(id) => if id in st.pool { RemoveListed(st, {id}); }
    case ChainForgotten(id) => if id in st.pool { RemoveListed(st, Descendants(st.pool, id)); }
    case RawStored(tx) =>
  }

  /** Over every run, however ordered, the stored list names exactly the pending transactions. */
  lemma {:induction false} AlwaysListed(events: seq<Event>)
    ensures Listed(Run(events))
  {
    hide Next;
    if events != [] {
      AlwaysListed(events[..|events| - 1]);
      NextListed(Run(events[..|events| - 1]), events[|events| - 1]);
    }
  }
}
