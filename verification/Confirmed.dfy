/**
 * The confirmed index as a value: what connecting and disconnecting a block do to it.
 *
 * A block is flattened into the items the indexer meets in order, so a connect is one fold and
 * every fact about a connect is one induction.
 */
module Confirmed {
  import opened Chain

  /** The trees and caches a connected block touches, apart from the raw transactions. */
  datatype Index = Index(
    outputs: map<OutPoint, Output>,
    utxos: map<UtxoKey, u64>,
    stored: set<HistoryKey>,
    history: map<ScriptHash, seq<TxEntry>>,
    journal: map<JournalKey, Payload>,
    byHeight: map<nat, seq<BlockAction>>,
    tip: nat)

  const EMPTY := Index(map[], map[], {}, map[], map[], map[], 0)

  /** The index while a block is being connected, with the next journal sequence number. */
  datatype Cursor = Cursor(ix: Index, seqNo: nat)

  datatype Item =
    | TxItem(txid: Txid)
    | InItem(txid: Txid, index: nat, prevout: OutPoint)
    | OutItem(txid: Txid, index: nat, output: TxOut)

  // ---- Flattening a block -------------------------------------------------------------------

  function InputItems(tx: Tx, n: nat): (items: seq<Item>)
    requires n <= |tx.inputs|
  {
    seq(n, i requires 0 <= i < n => InItem(tx.txid, i, tx.inputs[i]))
  }

  function OutputItems(tx: Tx, n: nat): (items: seq<Item>)
    requires n <= |tx.outputs|
  {
    seq(n, i requires 0 <= i < n => OutItem(tx.txid, i, tx.outputs[i]))
  }

  function TxItems(tx: Tx): seq<Item> {
    [TxItem(tx.txid)] + InputItems(tx, |tx.inputs|) + OutputItems(tx, |tx.outputs|)
  }

  function Items(block: Block): seq<Item> {
    if block == [] then [] else Items(block[..|block| - 1]) + TxItems(block[|block| - 1])
  }

  // ---- Connecting a block -------------------------------------------------------------------

  function Journal(c: Cursor, h: nat, payload: Payload): Cursor {
    var key := JournalKey(h, c.seqNo);
    Cursor(
      c.ix.(journal := c.ix.journal[key := payload],
            byHeight := Append(c.ix.byHeight, h, BlockAction(payload, key))),
      c.seqNo + 1)
  }

  function AddHistory(c: Cursor, key: HistoryKey): Cursor {
    var ix := c.ix.(stored := c.ix.stored + {key},
                    history := Append(c.ix.history, key.scriptHash, EntryOf(key)));
    Journal(c.(ix := ix), key.height, HistoryAdded(key))
  }

  function EntryOf(key: HistoryKey): TxEntry {
    TxEntry(key.txid, key.height, key.sequence)
  }

  /** Whether the indexer knows the output that an input spends. */
  predicate Known(outputs: map<OutPoint, Output>, prevout: OutPoint) {
    prevout != NULL_OUTPOINT && prevout in outputs
  }

  function StepOutputs(outputs: map<OutPoint, Output>, h: nat, item: Item): map<OutPoint, Output> {
    match item
    case OutItem(txid, index, output) =>
      outputs[OutPoint(txid, index) := Output(output.scriptHash, output.value, h)]
    case _ => outputs
  }

  /** Spends are recognised from `outputs`, which keeps spent outputs, and not from `utxos`. */
  function StepUtxos(outputs: map<OutPoint, Output>, utxos: map<UtxoKey, u64>, item: Item): map<UtxoKey, u64> {
    match item
    case TxItem(_) => utxos
    case InItem(_, _, o) => if Known(outputs, o) then utxos - {UtxoKey(outputs[o].scriptHash, o)} else utxos
    case OutItem(txid, index, output) =>
      utxos[UtxoKey(output.scriptHash, OutPoint(txid, index)) := output.value]
  }

  function StepJournal(c: Cursor, h: nat, item: Item): Cursor {
    match item
    case TxItem(txid) => Journal(c, h, TxMined(txid))
    case InItem(txid, index, o) =>
      if Known(c.ix.outputs, o) then
        Journal(AddHistory(c, HistoryKey(c.ix.outputs[o].scriptHash, h, Spend, txid, index)), h, OutputSpent(o))
      else c
    case OutItem(txid, index, output) =>
      Journal(AddHistory(c, HistoryKey(output.scriptHash, h, Fund, txid, index)), h,
              OutputAdded(OutPoint(txid, index)))
  }

  function Step(c: Cursor, h: nat, item: Item): Cursor {
    var c' := StepJournal(c, h, item);
    c'.(ix := c'.ix.(outputs := StepOutputs(c.ix.outputs, h, item),
                     utxos := StepUtxos(c.ix.outputs, c.ix.utxos, item)))
  }

  function Steps(c: Cursor, h: nat, items: seq<Item>): Cursor {
    if items == [] then c
    else Step(Steps(c, h, items[..|items| - 1]), h, items[|items| - 1])
  }

  lemma StepsSnoc(c: Cursor, h: nat, items: seq<Item>, item: Item)
    ensures Steps(c, h, items + [item]) == Step(Steps(c, h, items), h, item)
  {
    assert (items + [item])[..|items|] == items;
  }

  lemma {:induction false} StepsConcat(c: Cursor, h: nat, a: seq<Item>, b: seq<Item>)
    ensures Steps(c, h, a + b) == Steps(Steps(c, h, a), h, b)
  {
    hide Step;
    if b == [] {
      assert a + b == a;
    } else {
      StepsConcat(c, h, a, b[..|b| - 1]);
      assert (a + b)[..|a + b| - 1] == a + b[..|b| - 1];
    }
  }

  /** The journal sequence restarts at 0 on every call. */
  function Apply(ix: Index, block: Block, h: nat): Index {
    Steps(Cursor(ix, 0), h, Items(block)).ix.(tip := h)
  }

  // ---- Disconnecting a block ----------------------------------------------------------------

  function UndoOutputs(outputs: map<OutPoint, Output>, payload: Payload): map<OutPoint, Output> {
    if payload.OutputAdded? then outputs - {payload.outpoint} else outputs
  }

  function UndoUtxos(outputs: map<OutPoint, Output>, utxos: map<UtxoKey, u64>, payload: Payload): map<UtxoKey, u64> {
    match payload
    case OutputAdded(o) => if o in outputs then utxos - {UtxoKey(outputs[o].scriptHash, o)} else utxos
    case OutputSpent(o) =>
      if o in outputs then utxos[UtxoKey(outputs[o].scriptHash, o) := outputs[o].value] else utxos
    case _ => utxos
  }

  function Undo(ix: Index, action: BlockAction): Index {
    ix.(outputs := UndoOutputs(ix.outputs, action.payload),
        utxos := UndoUtxos(ix.outputs, ix.utxos, action.payload),
        stored := if action.payload.HistoryAdded? then ix.stored - {action.payload.key} else ix.stored,
        journal := ix.journal - {action.key})
  }

  /** Replays the actions in reverse. */
  function UndoAll(ix: Index, actions: seq<BlockAction>): Index
    decreases |actions|
  {
    if actions == [] then ix
    else UndoAll(Undo(ix, actions[|actions| - 1]), actions[..|actions| - 1])
  }

  function Retain(entries: seq<TxEntry>, h: nat): seq<TxEntry> {
    if entries == [] then []
    else
      var last := entries[|entries| - 1];
      Retain(entries[..|entries| - 1], h) + if last.height != h then [last] else []
  }

  function DropHeight(history: map<ScriptHash, seq<TxEntry>>, h: nat): map<ScriptHash, seq<TxEntry>> {
    map sh | sh in history && Retain(history[sh], h) != [] :: Retain(history[sh], h)
  }

  function Rollback(ix: Index, h: nat): Index {
    var undone :=
      if h in ix.byHeight then
        var u := UndoAll(ix.(byHeight := ix.byHeight - {h}), ix.byHeight[h]);
        u.(history := DropHeight(u.history, h))
      else ix;
    undone.(tip := if undone.tip == h then SaturatingPred(h) else undone.tip)
  }

  // ---- The coupling of `utxos` to `outputs` ---------------------------------------------------

  /** Every unspent entry has an output record with the same script hash and value. */
  ghost predicate Coupled(outputs: map<OutPoint, Output>, utxos: map<UtxoKey, u64>) {
    forall k | k in utxos ::
      k.outpoint in outputs && outputs[k.outpoint].(height := 0) == Output(k.scriptHash, utxos[k], 0)
  }

  /** Every output record is the one its txid stands for. */
  ghost predicate OutputsNamed(naming: Naming, outputs: map<OutPoint, Output>) {
    forall o | o in outputs ::
      var outs := naming(o.txid).outputs;
      o.vout < |outs| && outs[o.vout] == TxOut(outputs[o].scriptHash, outputs[o].value)
  }

  /** What every order of events keeps. */
  ghost predicate Sound(naming: Naming, ix: Index) {
    Coupled(ix.outputs, ix.utxos) && OutputsNamed(naming, ix.outputs)
  }

  predicate ItemNamed(naming: Naming, item: Item) {
    item.OutItem? ==>
      var outs := naming(item.txid).outputs;
      item.index < |outs| && outs[item.index] == item.output
  }

  predicate AllNamed(naming: Naming, items: seq<Item>) {
    forall item | item in items :: ItemNamed(naming, item)
  }

  lemma {:induction false} ItemsNamed(naming: Naming, block: Block)
    requires BlockNamed(naming, block)
    ensures AllNamed(naming, Items(block))
  {
    if block != [] {
      ItemsNamed(naming, block[..|block| - 1]);
      assert block[|block| - 1] in block;
    }
  }

  lemma StepSound(naming: Naming, c: Cursor, h: nat, item: Item)
    requires Sound(naming, c.ix) && ItemNamed(naming, item)
    ensures Sound(naming, Step(c, h, item).ix)
  {
  }

  lemma {:induction false} StepsSound(naming: Naming, c: Cursor, h: nat, items: seq<Item>)
    requires Sound(naming, c.ix) && AllNamed(naming, items)
    ensures Sound(naming, Steps(c, h, items).ix)
  {
    if items != [] {
      StepsSound(naming, c, h, items[..|items| - 1]);
      StepSound(naming, Steps(c, h, items[..|items| - 1]), h, items[|items| - 1]);
    }
  }

  lemma UndoSound(naming: Naming, ix: Index, action: BlockAction)
    requires Sound(naming, ix)
    ensures Sound(naming, Undo(ix, action))
  {
    match action.payload
    case TxMined(_) =>
    case HistoryAdded(_) =>
    case OutputAdded(_) =>
    case OutputSpent(_) =>
  }

  lemma {:induction false} UndoAllSound(naming: Naming, ix: Index, actions: seq<BlockAction>)
    requires Sound(naming, ix)
    ensures Sound(naming, UndoAll(ix, actions))
    decreases |actions|
  {
    if actions != [] {
      UndoSound(naming, ix, actions[|actions| - 1]);
      UndoAllSound(naming, Undo(ix, actions[|actions| - 1]), actions[..|actions| - 1]);
    }
  }

  // ---- Exact undo ---------------------------------------------------------------------------

  function Keys(actions: seq<BlockAction>): set<JournalKey> {
    set a | a in actions :: a.key
  }

  function HistoryKeys(actions: seq<BlockAction>): set<HistoryKey> {
    set a | a in actions && a.payload.HistoryAdded? :: a.payload.key
  }

  function Created(actions: seq<BlockAction>): set<OutPoint> {
    set a | a in actions && a.payload.OutputAdded? :: a.payload.outpoint
  }

  function Spent(actions: seq<BlockAction>): set<OutPoint> {
    set a | a in actions && a.payload.OutputSpent? :: a.payload.outpoint
  }

  lemma SnocSets(actions: seq<BlockAction>, a: BlockAction)
    ensures Keys(actions + [a]) == Keys(actions) + {a.key}
    ensures HistoryKeys(actions + [a]) ==
      if a.payload.HistoryAdded? then HistoryKeys(actions) + {a.payload.key} else HistoryKeys(actions)
    ensures Created(actions + [a]) ==
      if a.payload.OutputAdded? then Created(actions) + {a.payload.outpoint} else Created(actions)
    ensures Spent(actions + [a]) ==
      if a.payload.OutputSpent? then Spent(actions) + {a.payload.outpoint} else Spent(actions)
  {
    assert forall b :: b in actions + [a] <==> b in actions || b == a;
  }

  /** Undoing one spend or one creation can only matter to that outpoint. */
  ghost predicate RevivedBy(ix: Index, actions: seq<BlockAction>, k: UtxoKey) {
    && k.outpoint in Spent(actions) && k.outpoint in ix.outputs
    && ix.outputs[k.outpoint].scriptHash == k.scriptHash
  }

  /** What replaying a journal in reverse does to the trees other than `utxos`. */
  lemma {:induction false} UndoAllTrees(ix: Index, actions: seq<BlockAction>)
    ensures var u := UndoAll(ix, actions);
      && u.journal == ix.journal - Keys(actions)
      && u.stored == ix.stored - HistoryKeys(actions)
      && u.outputs == ix.outputs - Created(actions)
      && u.history == ix.history && u.byHeight == ix.byHeight && u.tip == ix.tip
    decreases |actions|
  {
    if actions != [] {
      var last, rest := actions[|actions| - 1], actions[..|actions| - 1];
      UndoAllTrees(Undo(ix, last), rest);
      assert actions == rest + [last];
      SnocSets(rest, last);
    }
  }

  /** What it does to `utxos`, for outpoints the journal did not create. */
  lemma {:induction false} UndoAllUtxos(ix: Index, actions: seq<BlockAction>, k: UtxoKey)
    requires k.outpoint !in Created(actions)
    ensures k in UndoAll(ix, actions).utxos <==> k in ix.utxos || RevivedBy(ix, actions, k)
    decreases |actions|
  {
    if actions != [] {
      var last, rest := actions[|actions| - 1], actions[..|actions| - 1];
      assert actions == rest + [last];
      SnocSets(rest, last);
      UndoAllUtxos(Undo(ix, last), rest, k);
    }
  }

  /** The non-null prevouts of a block. */
  function Prevouts(items: seq<Item>): set<OutPoint> {
    set item | item in items && item.InItem? && item.prevout != NULL_OUTPOINT :: item.prevout
  }

  /** Nothing is recorded at height `h`, and no script hash has an empty history. */
  ghost predicate Clean(ix: Index, h: nat) {
    && h !in ix.byHeight
    && (forall k | k in ix.journal :: k.height != h)
    && (forall k | k in ix.stored :: k.height != h)
    && (forall sh | sh in ix.history ::
          ix.history[sh] != [] && forall e | e in ix.history[sh] :: e.height != h)
  }

  /** None of the outputs the items create is already known. */
  ghost predicate Fresh(ix: Index, items: seq<Item>) {
    forall item | item in items && item.OutItem? :: OutPoint(item.txid, item.index) !in ix.outputs
  }

  /** The undo records, stored keys and cached entries written so far at the clean height `h`. */
  ghost predicate Booked(ix: Index, h: nat, c: Cursor) {
    var acts := Get(c.ix.byHeight, h);
    && Journaled(ix, h, acts, c.ix.byHeight, c.ix.journal, c.seqNo)
    && Recorded(ix, h, HistoryKeys(acts), c.ix.stored, c.ix.history)
    && c.ix.tip == ix.tip
  }

  ghost predicate Journaled(ix: Index, h: nat, acts: seq<BlockAction>,
                            byHeight: map<nat, seq<BlockAction>>, journal: map<JournalKey, Payload>, n: nat)
  {
    && byHeight == (if acts == [] then ix.byHeight else ix.byHeight[h := acts])
    && n == |acts|
    && (forall i | 0 <= i < |acts| :: acts[i].key == JournalKey(h, i))
    && journal.Keys == ix.journal.Keys + Keys(acts)
    && (forall k | k in ix.journal :: journal[k] == ix.journal[k])
    && (forall i | 0 <= i < |acts| :: journal[JournalKey(h, i)] == acts[i].payload)
  }

  ghost predicate Recorded(ix: Index, h: nat, added: set<HistoryKey>,
                           stored: set<HistoryKey>, history: map<ScriptHash, seq<TxEntry>>)
  {
    && stored == ix.stored + added
    && (forall k | k in added :: k.height == h)
    && (forall sh :: Retain(Get(history, sh), h) == Get(ix.history, sh))
  }

  /** The outputs created and the known outputs spent so far. */
  ghost predicate Moved(ix: Index, prevouts: set<OutPoint>, created: set<OutPoint>, spent: set<OutPoint>,
                        outputs: map<OutPoint, Output>, utxos: map<UtxoKey, u64>)
  {
    && outputs.Keys == ix.outputs.Keys + created
    && (forall o | o in ix.outputs :: outputs[o] == ix.outputs[o] && o !in created)
    && (forall o | o in ix.outputs :: o in spent <==> o in prevouts)
    && (forall k: UtxoKey | k.outpoint in ix.outputs :: k in utxos <==> k in ix.utxos && k.outpoint !in spent)
  }

  /** What connecting `items` at a clean height has done to `ix`. */
  ghost predicate Applied(ix: Index, h: nat, items: seq<Item>, c: Cursor) {
    var acts := Get(c.ix.byHeight, h);
    && Booked(ix, h, c)
    && Moved(ix, Prevouts(items), Created(acts), Spent(acts), c.ix.outputs, c.ix.utxos)
    && (acts == [] ==> c.ix == ix)
  }

  lemma JournalKept(ix: Index, h: nat, c: Cursor, payload: Payload)
    requires Clean(ix, h)
    requires Journaled(ix, h, Get(c.ix.byHeight, h), c.ix.byHeight, c.ix.journal, c.seqNo)
    ensures var acts := Get(c.ix.byHeight, h) + [BlockAction(payload, JournalKey(h, c.seqNo))];
      var c' := Journal(c, h, payload);
      && Get(c'.ix.byHeight, h) == acts
      && Journaled(ix, h, acts, c'.ix.byHeight, c'.ix.journal, c'.seqNo)
  {
    hide Created, Spent, HistoryKeys, Keys;
    var key := JournalKey(h, c.seqNo);
    SnocSets(Get(c.ix.byHeight, h), BlockAction(payload, key));
    assert key !in ix.journal;
  }

  lemma RetainSnoc(entries: seq<TxEntry>, e: TxEntry, h: nat)
    ensures Retain(entries + [e], h) == if e.height != h then Retain(entries, h) + [e] else Retain(entries, h)
  {
    assert (entries + [e])[..|entries|] == entries;
  }

  lemma {:induction false} RetainAll(entries: seq<TxEntry>, h: nat)
    requires forall e | e in entries :: e.height != h
    ensures Retain(entries, h) == entries
  {
    if entries != [] {
      RetainAll(entries[..|entries| - 1], h);
      assert entries[|entries| - 1] in entries;
    }
  }

  lemma HistoryKept(ix: Index, h: nat, added: set<HistoryKey>, stored: set<HistoryKey>,
                    history: map<ScriptHash, seq<TxEntry>>, key: HistoryKey)
    requires Recorded(ix, h, added, stored, history) && key.height == h
    ensures Recorded(ix, h, added + {key}, stored + {key}, Append(history, key.scriptHash, EntryOf(key)))
  {
    forall sh ensures Retain(Get(Append(history, key.scriptHash, EntryOf(key)), sh), h) == Get(ix.history, sh) {
      if sh == key.scriptHash {
        RetainSnoc(Get(history, sh), EntryOf(key), h);
      }
    }
  }

  lemma PayloadBooked(ix: Index, h: nat, c: Cursor, payload: Payload)
    requires Clean(ix, h) && Booked(ix, h, c) && !payload.HistoryAdded?
    ensures var c' := Journal(c, h, payload);
      && Booked(ix, h, c')
      && Get(c'.ix.byHeight, h) == Get(c.ix.byHeight, h) + [BlockAction(payload, JournalKey(h, c.seqNo))]
  {
    hide Journaled, Clean;
    JournalKept(ix, h, c, payload);
    SnocSets(Get(c.ix.byHeight, h), BlockAction(payload, JournalKey(h, c.seqNo)));
  }

  lemma HistoryBooked(ix: Index, h: nat, c: Cursor, key: HistoryKey)
    requires Clean(ix, h) && Booked(ix, h, c) && key.height == h
    ensures var c' := AddHistory(c, key);
      && Booked(ix, h, c')
      && Get(c'.ix.byHeight, h) == Get(c.ix.byHeight, h) + [BlockAction(HistoryAdded(key), JournalKey(h, c.seqNo))]
  {
    hide Journaled, Recorded, Clean;
    var acts := Get(c.ix.byHeight, h);
    HistoryKept(ix, h, HistoryKeys(acts), c.ix.stored, c.ix.history, key);
    JournalKept(ix, h, c, HistoryAdded(key));
    SnocSets(acts, BlockAction(HistoryAdded(key), JournalKey(h, c.seqNo)));
  }

  /** The outpoint an item creates, and the one it is known to spend. */
  function Makes(item: Item): set<OutPoint> {
    if item.OutItem? then {OutPoint(item.txid, item.index)} else {}
  }

  function Takes(outputs: map<OutPoint, Output>, item: Item): set<OutPoint> {
    if item.InItem? && Known(outputs, item.prevout) then {item.prevout} else {}
  }

  lemma StepBooked(ix: Index, h: nat, c: Cursor, item: Item)
    requires Clean(ix, h) && Booked(ix, h, c)
    ensures var c', acts := StepJournal(c, h, item), Get(c.ix.byHeight, h);
      var acts' := Get(c'.ix.byHeight, h);
      && Booked(ix, h, c')
      && Created(acts') == Created(acts) + Makes(item)
      && Spent(acts') == Spent(acts) + Takes(c.ix.outputs, item)
      && (acts' == [] ==> c' == c && acts == [] && Makes(item) == Takes(c.ix.outputs, item) == {})
  {
    hide Booked, Clean;
    var acts := Get(c.ix.byHeight, h);
    match item
    case TxItem(txid) =>
      PayloadBooked(ix, h, c, TxMined(txid));
      SnocSets(acts, BlockAction(TxMined(txid), JournalKey(h, c.seqNo)));
    case InItem(txid, index, o) =>
      if Known(c.ix.outputs, o) {
        TwoBooked(ix, h, c, HistoryKey(c.ix.outputs[o].scriptHash, h, Spend, txid, index), OutputSpent(o));
      }
    case OutItem(txid, index, output) =>
      TwoBooked(ix, h, c, HistoryKey(output.scriptHash, h, Fund, txid, index), OutputAdded(OutPoint(txid, index)));
  }

  lemma TwoBooked(ix: Index, h: nat, c: Cursor, key: HistoryKey, payload: Payload)
    requires Clean(ix, h) && Booked(ix, h, c) && key.height == h && !payload.HistoryAdded?
    ensures var c', acts := Journal(AddHistory(c, key), h, payload), Get(c.ix.byHeight, h);
      var acts' := Get(c'.ix.byHeight, h);
      && Booked(ix, h, c')
      && acts' != []
      && Created(acts') == Created(acts) + (if payload.OutputAdded? then {payload.outpoint} else {})
      && Spent(acts') == Spent(acts) + (if payload.OutputSpent? then {payload.outpoint} else {})
  {
    hide Booked, Clean;
    HistoryBooked(ix, h, c, key);
    SnocSets(Get(c.ix.byHeight, h), BlockAction(HistoryAdded(key), JournalKey(h, c.seqNo)));
    var c1 := AddHistory(c, key);
    PayloadBooked(ix, h, c1, payload);
    SnocSets(Get(c1.ix.byHeight, h), BlockAction(payload, JournalKey(h, c1.seqNo)));
  }

  lemma PrevoutsSnoc(items: seq<Item>, item: Item)
    ensures Prevouts(items + [item]) == Prevouts(items) +
      if item.InItem? && item.prevout != NULL_OUTPOINT then {item.prevout} else {}
  {
    assert forall i :: i in items + [item] <==> i in items || i == item;
  }

  lemma StepMoved(ix: Index, h: nat, items: seq<Item>, item: Item, created: set<OutPoint>, spent: set<OutPoint>,
                  outputs: map<OutPoint, Output>, utxos: map<UtxoKey, u64>)
    requires Coupled(ix.outputs, ix.utxos) && Moved(ix, Prevouts(items), created, spent, outputs, utxos)
    requires item.OutItem? ==> OutPoint(item.txid, item.index) !in ix.outputs
    ensures Moved(ix, Prevouts(items + [item]), created + Makes(item), spent + Takes(outputs, item),
                  StepOutputs(outputs, h, item), StepUtxos(outputs, utxos, item))
  {
    PrevoutsSnoc(items, item);
  }

  lemma NothingApplied(ix: Index, h: nat)
    requires Clean(ix, h)
    ensures Applied(ix, h, [], Cursor(ix, 0))
  {
    forall sh ensures Retain(Get(ix.history, sh), h) == Get(ix.history, sh) {
      RetainAll(Get(ix.history, sh), h);
    }
  }

  lemma StepApplied(ix: Index, h: nat, items: seq<Item>, c: Cursor, item: Item)
    requires Clean(ix, h) && Coupled(ix.outputs, ix.utxos) && Applied(ix, h, items, c)
    requires item.OutItem? ==> OutPoint(item.txid, item.index) !in ix.outputs
    ensures Applied(ix, h, items + [item], Step(c, h, item))
  {
    hide Booked, Moved, Clean, Coupled, Prevouts, Created, Spent, StepJournal;
    var acts := Get(c.ix.byHeight, h);
    StepBooked(ix, h, c, item);
    StepMoved(ix, h, items, item, Created(acts), Spent(acts), c.ix.outputs, c.ix.utxos);
    StepBookedIndex(ix, h, StepJournal(c, h, item), Step(c, h, item));
  }

  /** `Booked` does not look at `outputs` and `utxos`. */
  lemma StepBookedIndex(ix: Index, h: nat, c: Cursor, c': Cursor)
    requires Booked(ix, h, c) && c' == c.(ix := c.ix.(outputs := c'.ix.outputs, utxos := c'.ix.utxos))
    ensures Booked(ix, h, c')
  {
    hide Journaled, Recorded, HistoryKeys;
  }

  lemma {:induction false} StepsApplied(ix: Index, h: nat, items: seq<Item>)
    requires Clean(ix, h) && Coupled(ix.outputs, ix.utxos) && Fresh(ix, items)
    ensures Applied(ix, h, items, Steps(Cursor(ix, 0), h, items))
  {
    hide Applied, Clean, Coupled, Step;
    if items == [] {
      NothingApplied(ix, h);
    } else {
      var rest, item := items[..|items| - 1], items[|items| - 1];
      assert items == rest + [item];
      StepsApplied(ix, h, rest);
      StepApplied(ix, h, rest, Steps(Cursor(ix, 0), h, rest), item);
    }
  }

  /** The unspent entries of the outputs that were known before the block and that it spends. */
  function Revived(ix: Index, block: Block): map<UtxoKey, u64> {
    map o | o in ix.outputs && o in Prevouts(Items(block)) ::
      UtxoKey(ix.outputs[o].scriptHash, o) := ix.outputs[o].value
  }

  /** A block that adds no known outpoint at a height with no records, on an index of consistent names. */
  ghost predicate Connectable(naming: Naming, ix: Index, block: Block, h: nat) {
    && Sound(naming, ix) && BlockNamed(naming, block)
    && Clean(ix, h)
    && Fresh(ix, Items(block))
  }

  lemma JournalUndone(ix: Index, h: nat, acts: seq<BlockAction>, c: Cursor)
    requires Clean(ix, h)
    requires Journaled(ix, h, acts, c.ix.byHeight, c.ix.journal, c.seqNo)
    ensures c.ix.journal - Keys(acts) == ix.journal
  {
    forall k | k in Keys(acts) ensures k.height == h {
      var a :| a in acts && a.key == k;
    }
  }

  lemma TreesUndone(ix: Index, h: nat, acts: seq<BlockAction>, prevouts: set<OutPoint>, c: Cursor)
    requires Clean(ix, h)
    requires Recorded(ix, h, HistoryKeys(acts), c.ix.stored, c.ix.history)
    requires Moved(ix, prevouts, Created(acts), Spent(acts), c.ix.outputs, c.ix.utxos)
    ensures c.ix.stored - HistoryKeys(acts) == ix.stored
    ensures c.ix.outputs - Created(acts) == ix.outputs
  {
  }

  lemma UtxosUndone(ix: Index, block: Block, start: Index, acts: seq<BlockAction>)
    requires Coupled(ix.outputs, ix.utxos)
    requires Coupled(UndoAll(start, acts).outputs, UndoAll(start, acts).utxos)
    requires Moved(ix, Prevouts(Items(block)), Created(acts), Spent(acts), start.outputs, start.utxos)
    requires UndoAll(start, acts).outputs == ix.outputs
    ensures UndoAll(start, acts).utxos == ix.utxos + Revived(ix, block)
  {
    var u, revived := UndoAll(start, acts), ix.utxos + Revived(ix, block);
    hide Items, UndoAll;
    forall k: UtxoKey | k.outpoint in ix.outputs
      ensures k in u.utxos <==> k in revived
    {
      UndoAllUtxos(start, acts, k);
    }
  }

  lemma UndoneApplied(naming: Naming, ix: Index, h: nat, block: Block, c: Cursor, start: Index)
    requires Clean(ix, h) && Coupled(ix.outputs, ix.utxos) && Applied(ix, h, Items(block), c)
    requires Sound(naming, start)
    requires start == c.ix.(byHeight := ix.byHeight, tip := h)
    ensures UndoAll(start, Get(c.ix.byHeight, h))
         == ix.(utxos := ix.utxos + Revived(ix, block), history := c.ix.history, tip := h)
  {
    hide Clean, Coupled, Moved, Journaled, Recorded, Items, UndoAll, Revived;
    var acts := Get(c.ix.byHeight, h);
    UndoAllTrees(start, acts);
    UndoAllSound(naming, start, acts);
    JournalUndone(ix, h, acts, c);
    TreesUndone(ix, h, acts, Prevouts(Items(block)), c);
    UtxosUndone(ix, block, start, acts);
  }

  lemma HistoryRestored(ix: Index, c: Cursor, h: nat)
    requires Clean(ix, h)
    requires forall sh :: Retain(Get(c.ix.history, sh), h) == Get(ix.history, sh)
    ensures DropHeight(c.ix.history, h) == ix.history
  {
    var kept := DropHeight(c.ix.history, h);
    forall sh ensures Get(kept, sh) == Get(ix.history, sh) && (sh in kept <==> sh in ix.history) {
      assert Retain(Get(c.ix.history, sh), h) == Get(ix.history, sh);
    }
  }

  lemma BlockApplied(naming: Naming, ix: Index, block: Block, h: nat)
    requires Connectable(naming, ix, block, h)
    ensures var c := Steps(Cursor(ix, 0), h, Items(block));
      Applied(ix, h, Items(block), c) && Sound(naming, c.ix)
  {
    StepsApplied(ix, h, Items(block));
    ItemsNamed(naming, block);
    StepsSound(naming, Cursor(ix, 0), h, Items(block));
  }

  lemma JournaledRollback(naming: Naming, ix: Index, block: Block, h: nat, c: Cursor)
    requires Clean(ix, h) && Coupled(ix.outputs, ix.utxos) && Applied(ix, h, Items(block), c)
    requires Sound(naming, c.ix) && h in c.ix.byHeight
    ensures Rollback(c.ix.(tip := h), h)
         == ix.(utxos := ix.utxos + Revived(ix, block), tip := SaturatingPred(h))
  {
    hide Clean, Coupled, OutputsNamed, Moved, Items, UndoAll, Revived, DropHeight, HistoryKeys;
    var start := c.ix.(byHeight := ix.byHeight, tip := h);
    assert h !in ix.byHeight by { UnusedHeight(ix, h); }
    assert c.ix.byHeight - {h} == ix.byHeight;
    UndoneApplied(naming, ix, h, block, c, start);
    HistoryRestored(ix, c, h);
  }

  lemma NothingRevived(ix: Index, block: Block, utxos: map<UtxoKey, u64>)
    requires Moved(ix, Prevouts(Items(block)), {}, {}, ix.outputs, utxos)
    ensures ix.utxos + Revived(ix, block) == ix.utxos
  {
    assert Revived(ix, block) == map[];
  }

  /**
   * Rolling back the block just connected restores every tree and cache except that each known
   * output the block spends is live again afterwards, whether or not it was live before.
   */
  lemma UndoFormula(naming: Naming, ix: Index, block: Block, h: nat)
    requires Connectable(naming, ix, block, h)
    ensures Rollback(Apply(ix, block, h), h)
         == ix.(utxos := ix.utxos + Revived(ix, block), tip := SaturatingPred(h))
  {
    hide Clean, Coupled, Moved, Recorded, Items, UndoAll, Revived;
    var c := Steps(Cursor(ix, 0), h, Items(block));
    BlockApplied(naming, ix, block, h);
    var acts := Get(c.ix.byHeight, h);
    if acts == [] {
      assert h !in ix.byHeight by { UnusedHeight(ix, h); }
      assert Created(acts) == {} && Spent(acts) == {};
      NothingRevived(ix, block, c.ix.utxos);
    } else {
      JournaledRollback(naming, ix, block, h, c);
    }
  }

  lemma UnusedHeight(ix: Index, h: nat)
    requires Clean(ix, h)
    ensures h !in ix.byHeight
  {
  }

  /** Every known output the block spends is unspent before the block. */
  ghost predicate SpendsLive(ix: Index, block: Block) {
    forall o | o in ix.outputs && o in Prevouts(Items(block)) :: UtxoKey(ix.outputs[o].scriptHash, o) in ix.utxos
  }

  lemma LiveUnchanged(ix: Index, block: Block)
    requires Coupled(ix.outputs, ix.utxos)
    ensures ix.utxos + Revived(ix, block) == ix.utxos <==> SpendsLive(ix, block)
  {
    hide Items;
    var after := ix.utxos + Revived(ix, block);
    if SpendsLive(ix, block) {
      assert after == ix.utxos;
    } else {
      var o :| o in ix.outputs && o in Prevouts(Items(block)) && UtxoKey(ix.outputs[o].scriptHash, o) !in ix.utxos;
      assert UtxoKey(ix.outputs[o].scriptHash, o) in after;
    }
  }

  /** Undo is exact precisely when the tip was the block's parent and all known spends are live. */
  lemma ExactUndo(naming: Naming, ix: Index, block: Block, h: nat)
    requires Connectable(naming, ix, block, h)
    ensures Rollback(Apply(ix, block, h), h) == ix
       <==> ix.tip == SaturatingPred(h) && SpendsLive(ix, block)
  {
    hide Rollback, Apply, SpendsLive, Revived, Coupled, OutputsNamed, Clean, Fresh, BlockNamed;
    UndoFormula(naming, ix, block, h);
    LiveUnchanged(ix, block);
  }
}
