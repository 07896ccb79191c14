/** What the loops of the indexer have computed part of the way: one small fact per step of a loop. */
module Progress {
  import opened Chain
  import opened Confirmed
  import opened Model
  import opened Pending
  import opened Notify
  import opened Queries
  import opened Sorting
  import opened Sums
  import opened Restart
  import opened Fees

  /** Each height holds its records once, in some order. */
  ghost predicate Collected(journal: map<JournalKey, Payload>, byHeight: map<nat, seq<BlockAction>>) {
    && (forall h | h in byHeight :: byHeight[h] != [])
    && (forall h, a :: multiset(Get(byHeight, h))[a] == if IsRecord(journal, h, a) then 1 else 0)
  }

  lemma CollectedNext(journal: map<JournalKey, Payload>, byHeight: map<nat, seq<BlockAction>>,
                    key: JournalKey, payload: Payload)
    requires Collected(journal, byHeight) && key !in journal
    ensures Collected(journal[key := payload], Append(byHeight, key.height, BlockAction(payload, key)))
  {
    var action := BlockAction(payload, key);
    var more := Append(byHeight, key.height, action);
    assert multiset(Get(byHeight, key.height) + [action]) == multiset(Get(byHeight, key.height)) + multiset{action};
    forall h, a
      ensures multiset(Get(more, h))[a] == if IsRecord(journal[key := payload], h, a) then 1 else 0
    {
      hide Append;
      CountAction(byHeight, key.height, action, h, a);
      assert multiset(Get(byHeight, h))[a] == if IsRecord(journal, h, a) then 1 else 0;
    }
  }

  lemma CountAction(byHeight: map<nat, seq<BlockAction>>, k: nat, v: BlockAction, h: nat, a: BlockAction)
    ensures multiset(Get(Append(byHeight, k, v), h))[a]
         == multiset(Get(byHeight, h))[a] + if h == k && a == v then 1 else 0
  {
    assert multiset(Get(byHeight, k) + [v]) == multiset(Get(byHeight, k)) + multiset{v};
  }

  lemma ConfirmedNext(journal: map<JournalKey, Payload>, key: JournalKey, payload: Payload)
    requires key !in journal
    ensures ConfirmedIds(journal[key := payload])
         == if payload.TxMined? then ConfirmedIds(journal) + {payload.txid} else ConfirmedIds(journal)
  {
    var more := journal[key := payload];
    forall id | id in ConfirmedIds(journal) ensures id in ConfirmedIds(more) {
      var k :| k in journal && journal[k].TxMined? && journal[k].txid == id;
      assert k in more && more[k] == journal[k];
    }
    if payload.TxMined? {
      assert more[key].txid in ConfirmedIds(more);
    }
  }

  lemma SpentByNext(pool: Pool, id: Txid, tx: Tx)
    requires id !in pool
    ensures SpentBy(pool[id := tx]) == SpentBy(pool) + Spends(tx)
  {
    var more := pool[id := tx];
    forall o | o in SpentBy(pool) ensures o in SpentBy(more) {
      var x :| x in pool && o in Spends(pool[x]);
      assert x in more && more[x] == pool[x];
    }
    forall o | o in Spends(tx) ensures o in SpentBy(more) {
      assert o in Spends(more[id]);
    }
  }

  lemma SortKept(journal: map<JournalKey, Payload>, byHeight: map<nat, seq<BlockAction>>, h: nat,
                 sorted: seq<BlockAction>)
    requires Collected(journal, byHeight) && h in byHeight && multiset(sorted) == multiset(byHeight[h])
    ensures Collected(journal, byHeight[h := sorted])
  {
    assert |multiset(sorted)| == |sorted| && |multiset(byHeight[h])| == |byHeight[h]|;
    forall g, a ensures multiset(Get(byHeight[h := sorted], g))[a] == if IsRecord(journal, g, a) then 1 else 0 {
      assert multiset(Get(byHeight, g))[a] == if IsRecord(journal, g, a) then 1 else 0;
    }
  }

  // ---- The walk over a pending chain ----------------------------------------------------------

  /** Everything visited or queued is a descendant, and spenders of the visited are not lost. */
  ghost predicate Walk(pool: Pool, root: Txid, seen: set<Txid>, queue: seq<Txid>) {
    && seen + Elements(queue) <= Descendants(pool, root)
    && root in seen + Elements(queue)
    && forall id | id in pool && Parents(pool[id]) * seen != {} :: id in seen + Elements(queue)
  }

  lemma WalkStart(pool: Pool, root: Txid)
    ensures Walk(pool, root, {}, [root])
  {
    hide Reaches;
    DescendantsRoot(pool, root);
  }

  lemma WalkPop(pool: Pool, root: Txid, seen: set<Txid>, queue: seq<Txid>)
    requires Walk(pool, root, seen, queue) && queue != []
    ensures queue[0] in Descendants(pool, root) && (queue[0] == root || queue[0] in pool)
    ensures queue[0] in seen ==> Walk(pool, root, seen, queue[1..])
    ensures Elements(queue) == Elements(queue[1..]) + {queue[0]}
  {
    hide Reaches;
    assert queue == [queue[0]] + queue[1..];
  }

  lemma WalkVisit(pool: Pool, root: Txid, seen: set<Txid>, rest: seq<Txid>, id: Txid, more: seq<Txid>)
    requires Walk(pool, root, seen, [id] + rest)
    requires Elements(more) == Elements(rest) + set x | x in pool && x !in seen + {id} && id in Parents(pool[x])
    ensures Walk(pool, root, seen + {id}, more)
  {
    hide Descendants;
    assert Elements([id] + rest) == Elements(rest) + {id};
    forall x | x in Elements(more) ensures x in Descendants(pool, root) {
      if x !in Elements(rest) {
        DescendantsStep(pool, root, id, x);
      }
    }
  }

  lemma WalkMore(pool: Pool, root: Txid, seen: set<Txid>, queue: seq<Txid>)
    requires Walk(pool, root, seen, queue) && queue != []
    ensures queue == [queue[0]] + queue[1..]
    ensures queue[0] in Descendants(pool, root) && (queue[0] == root || queue[0] in pool)
    ensures queue[0] in seen ==> Walk(pool, root, seen, queue[1..])
  {
    WalkPop(pool, root, seen, queue);
  }

  lemma WalkDone(pool: Pool, root: Txid, seen: set<Txid>)
    requires Walk(pool, root, seen, [])
    ensures seen == Descendants(pool, root)
  {
    hide Reaches;
    DescendantsLeast(pool, root, seen);
  }

  ghost function Collect(cache: map<OutPoint, Output>, pool: Pool, outputs: map<OutPoint, Output>, tx: Tx,
                         seen: set<Txid>): set<ScriptHash>
  {
    set id, sh | id in seen && (id == tx.txid || id in pool) && sh in Touched(cache, pool, outputs, At(pool, tx, id))
      :: sh
  }

  lemma CollectNext(cache: map<OutPoint, Output>, pool: Pool, outputs: map<OutPoint, Output>, tx: Tx,
                    seen: set<Txid>, id: Txid)
    requires id == tx.txid || id in pool
    ensures Collect(cache, pool, outputs, tx, seen + {id})
         == Collect(cache, pool, outputs, tx, seen) + Touched(cache, pool, outputs, At(pool, tx, id))
  {
    hide Touched;
  }

  lemma CollectAll(cache: map<OutPoint, Output>, pool: Pool, outputs: map<OutPoint, Output>, tx: Tx)
    ensures Collect(cache, pool, outputs, tx, Descendants(pool, tx.txid)) == Affected(cache, pool, outputs, tx)
  {
    hide Touched, Reaches;
  }

  ghost function CollectChain(pool: Pool, outputs: map<OutPoint, Output>, seen: set<Txid>): set<ScriptHash> {
    set id, sh | id in seen && id in pool && sh in Affected(View(pool), pool, outputs, pool[id]) :: sh
  }

  lemma CollectChainNext(pool: Pool, outputs: map<OutPoint, Output>, seen: set<Txid>, id: Txid)
    ensures CollectChain(pool, outputs, seen + {id}) == CollectChain(pool, outputs, seen)
      + if id in pool then Affected(View(pool), pool, outputs, pool[id]) else {}
  {
    hide Affected, View;
  }

  lemma CollectNone(cache: map<OutPoint, Output>, pool: Pool, outputs: map<OutPoint, Output>, tx: Tx)
    ensures Collect(cache, pool, outputs, tx, {}) == {}
  {
  }

  lemma CollectChainNone(pool: Pool, outputs: map<OutPoint, Output>)
    ensures CollectChain(pool, outputs, {}) == {}
  {
  }

  lemma CollectChainAll(pool: Pool, outputs: map<OutPoint, Output>, root: Txid)
    ensures CollectChain(pool, outputs, Descendants(pool, root)) == ChainAffected(pool, outputs, root)
  {
    hide Affected, View, Reaches;
  }

  // ---- Removing from the list -----------------------------------------------------------------

  lemma {:induction false} UnlistNone(listed: seq<Txid>)
    ensures Unlist(listed, {}) == listed
  {
    if listed != [] {
      UnlistNone(listed[..|listed| - 1]);
    }
  }

  lemma {:induction false} UnlistTwice(listed: seq<Txid>, a: set<Txid>, b: set<Txid>)
    ensures Unlist(Unlist(listed, a), b) == Unlist(listed, a + b)
  {
    if listed != [] {
      var rest, last := listed[..|listed| - 1], listed[|listed| - 1];
      UnlistTwice(rest, a, b);
      assert (Unlist(rest, a) + [last])[..|Unlist(rest, a)|] == Unlist(rest, a);
    }
  }

  /** The state after evicting the chains of `order`, one after another. */
  ghost function Evicted(st: Model.State, order: seq<Txid>): Model.State {
    if order == [] then st
    else
      var before := Evicted(st, order[..|order| - 1]);
      Remove(before, Descendants(before.pool, order[|order| - 1]))
  }

  lemma NoElements()
    ensures Elements([]) == {}
  {
  }

  lemma {:induction false} EvictedPool(st: Model.State, order: seq<Txid>)
    ensures Evicted(st, order).pool == EvictAll(st.pool, order)
  {
    if order != [] {
      EvictedPool(st, order[..|order| - 1]);
    }
  }

  lemma EvictedSnoc(st: Model.State, outputs: map<OutPoint, Output>, order: seq<Txid>, id: Txid)
    ensures var before := Evicted(st, order);
      && Evicted(st, order + [id]) == Remove(before, Descendants(before.pool, id))
      && EvictAffected(st.pool, outputs, order + [id])
         == EvictAffected(st.pool, outputs, order) + ChainAffected(before.pool, outputs, id)
  {
    assert (order + [id])[..|order|] == order;
    EvictedPool(st, order);
  }

  /** Chain after chain removes the union of the chains, from the pool and from the list. */
  lemma {:induction false} EvictedAll(st: Model.State, order: seq<Txid>)
    ensures Evicted(st, order) == Remove(st, Chains(st.pool, Elements(order)))
    ensures Evicted(st, order).pool == EvictAll(st.pool, order)
  {
    EvictedPool(st, order);
    EvictAllChains(st.pool, order);
    EvictedList(st, order);
    EvictedRest(st, order);
  }

  lemma {:induction false} EvictedRest(st: Model.State, order: seq<Txid>)
    ensures Evicted(st, order).ix == st.ix && Evicted(st, order).txs == st.txs
  {
    if order != [] {
      EvictedRest(st, order[..|order| - 1]);
    }
  }

  lemma {:induction false} EvictedList(st: Model.State, order: seq<Txid>)
    ensures Evicted(st, order).listed == Unlist(st.listed, Chains(st.pool, Elements(order)))
  {
    hide Closed, Descendants, Evict, Unlist;
    if order == [] {
      assert Chains(st.pool, Elements(order)) == {};
      UnlistNone(st.listed);
    } else {
      var rest, root := order[..|order| - 1], order[|order| - 1];
      var gone := Chains(st.pool, Elements(rest));
      EvictedList(st, rest);
      EvictedPool(st, rest);
      EvictAllChains(st.pool, rest);
      ChainsClosed(st.pool, Elements(rest));
      DescendantsAfter(st.pool, gone, root);
      UnlistTwice(st.listed, gone, Descendants(st.pool - gone, root));
      assert Elements(order) == Elements(rest) + {root};
      ChainsUnion(st.pool, Elements(rest), root);
    }
  }

  // ---- Blocks, transaction by transaction ---------------------------------------------------

  lemma BlockPrefix(block: Block, t: nat)
    requires t < |block|
    ensures Items(block[..t + 1]) == Items(block[..t]) + TxItems(block[t])
    ensures Txids(block[..t + 1]) == Txids(block[..t]) + {block[t].txid}
    ensures forall txs :: StoreAll(txs, block[..t + 1]) == StoreAll(txs, block[..t])[block[t].txid := block[t]]
  {
    assert block[..t + 1][..t] == block[..t];
    assert forall tx :: tx in block[..t + 1] <==> tx in block[..t] || tx == block[t];
  }

  lemma TxItemsSteps(c: Cursor, h: nat, tx: Tx)
    ensures Steps(c, h, TxItems(tx))
         == Steps(Steps(Step(c, h, TxItem(tx.txid)), h, InputItems(tx, |tx.inputs|)), h, OutputItems(tx, |tx.outputs|))
  {
    hide Step;
    var a, b := InputItems(tx, |tx.inputs|), OutputItems(tx, |tx.outputs|);
    StepsSnoc(c, h, [], TxItem(tx.txid));
    assert [] + [TxItem(tx.txid)] == [TxItem(tx.txid)];
    StepsConcat(c, h, [TxItem(tx.txid)], a);
    StepsConcat(c, h, [TxItem(tx.txid)] + a, b);
  }

  lemma AppliedSteps(ix: Index, block: Block, h: nat)
    ensures Apply(ix, block, h) == Steps(Cursor(ix, 0), h, Items(block)).ix.(tip := h)
  {
  }

  lemma NoneConnected(st: Model.State, block: Block, h: nat)
    ensures Steps(Cursor(st.ix, 0), h, Items(block[..0])) == Cursor(st.ix, 0)
    ensures StoreAll(st.txs, block[..0]) == st.txs
    ensures Txids(block[..0]) == {} && Unlist(st.listed, Txids(block[..0])) == st.listed
  {
    UnlistNone(st.listed);
    assert Txids(block[..0]) == {};
  }

  lemma StoredKeyed(txs: map<Txid, Tx>, tx: Tx)
    requires TxsKeyed(txs)
    ensures TxsKeyed(txs[tx.txid := tx])
  {
  }

  lemma UndoNext(ix: Index, entries: seq<BlockAction>, i: nat)
    requires i < |entries|
    ensures UndoAll(ix, entries[..i + 1]) == UndoAll(Undo(ix, entries[i]), entries[..i])
    ensures MinedBy(entries[i..]) == MinedBy(entries[i + 1..]) + MinedBy([entries[i]])
  {
    hide Undo, MinedBy;
    assert entries[..i + 1][..i] == entries[..i];
    assert entries[i..] == [entries[i]] + entries[i + 1..];
    MinedCons(entries[i], entries[i + 1..]);
  }

  lemma UndoNone(ix: Index)
    ensures UndoAll(ix, []) == ix
  {
  }

  lemma FewerKeyed(txs: map<Txid, Tx>, ids: set<Txid>)
    requires TxsKeyed(txs)
    ensures TxsKeyed(txs - ids) && txs - {} == txs
  {
  }

  lemma NoneMined()
    ensures MinedBy([]) == {}
  {
  }

  lemma NoneUndone(entries: seq<BlockAction>)
    ensures entries[..|entries|] == entries && MinedBy(entries[|entries|..]) == {}
  {
  }

  lemma MinedCons(action: BlockAction, rest: seq<BlockAction>)
    ensures MinedBy([action] + rest) == MinedBy(rest) + MinedBy([action])
  {
    assert forall a :: a in [action] + rest <==> a in rest || a == action;
  }

  lemma NonePaid(pool: Pool, outputs: map<OutPoint, Output>)
    ensures Sum({}, Paying(pool, outputs)) == 0
  {
  }

  lemma PaidNext(pool: Pool, outputs: map<OutPoint, Output>, seen: set<OutPoint>, o: OutPoint)
    requires o !in seen
    ensures Sum(seen + {o}, Paying(pool, outputs)) == Sum(seen, Paying(pool, outputs)) + ValueAt(pool, outputs, o)
    ensures 0 <= Sum(seen, Paying(pool, outputs))
  {
    SumAdd(seen, o, Paying(pool, outputs));
    SumNonNegative(seen, Paying(pool, outputs));
  }

  // ---- Mempool answers, transaction by transaction ------------------------------------------

  ghost function EntriesOf(pool: Pool, outputs: map<OutPoint, Output>, ids: set<Txid>): set<MempoolEntry> {
    set id | id in ids && id in pool :: MempoolEntryOf(pool, outputs, id)
  }

  ghost function MempoolEntryOf(pool: Pool, outputs: map<OutPoint, Output>, id: Txid): MempoolEntry
    requires id in pool
  {
    MempoolEntry(id, MempoolHeight(outputs, pool[id]), Fee(pool, outputs, pool[id]))
  }

  lemma EntriesNext(pool: Pool, outputs: map<OutPoint, Output>, ids: set<Txid>, id: Txid)
    requires id in pool && id !in ids
    ensures multiset(EntriesOf(pool, outputs, ids + {id}))
         == multiset(EntriesOf(pool, outputs, ids)) + multiset{MempoolEntryOf(pool, outputs, id)}
  {
    hide Fee, MempoolHeight;
    var before, e := EntriesOf(pool, outputs, ids), MempoolEntryOf(pool, outputs, id);
    assert EntriesOf(pool, outputs, ids + {id}) == before + {e};
    assert e !in before;
    assert multiset(before + {e}) == multiset(before) + multiset{e};
  }

  lemma EntriesAll(pool: Pool, outputs: map<OutPoint, Output>, sh: ScriptHash)
    ensures EntriesOf(pool, outputs, Touching(pool, outputs, sh)) == MempoolEntries(pool, outputs, sh)
  {
    hide Touching, Fee, MempoolHeight;
    var a, b := EntriesOf(pool, outputs, Touching(pool, outputs, sh)), MempoolEntries(pool, outputs, sh);
    forall id | id in Touching(pool, outputs, sh)
      ensures MempoolEntryOf(pool, outputs, id) in a && MempoolEntryOf(pool, outputs, id) in b
    {
    }
  }

  // ---- The unconfirmed delta, spend by spend ------------------------------------------------

  ghost function SpentSoFar(pool: Pool, outputs: map<OutPoint, Output>, sh: ScriptHash, seen: set<OutPoint>): int {
    Wrap(-Sum(FromScript(pool, outputs, sh, seen), Signed(Paying(pool, outputs))))
  }

  function FromScript(pool: Pool, outputs: map<OutPoint, Output>, sh: ScriptHash, seen: set<OutPoint>): set<OutPoint> {
    set o | o in seen && Resolve(View(pool), pool, outputs, o) == Some(sh)
  }

  lemma WrapAdd(a: int, b: int)
    ensures Wrap(Wrap(a) + b) == Wrap(a + b)
  {
    var k := (a + TWO_63) / TWO_64;
    assert Wrap(a) == a - k * TWO_64;
    WrapPeriod(a + b, -k);
  }

  lemma WrapPeriod(a: int, k: int)
    ensures Wrap(a + k * TWO_64) == Wrap(a)
  {
    var q, r := (a + TWO_63) / TWO_64, (a + TWO_63) % TWO_64;
    assert a + k * TWO_64 + TWO_63 == (q + k) * TWO_64 + r;
  }

  lemma NoneSpent(pool: Pool, outputs: map<OutPoint, Output>, sh: ScriptHash)
    ensures SpentSoFar(pool, outputs, sh, {}) == 0 && SpentBy(map[]) == {}
  {
    hide Resolve, View;
    assert FromScript(pool, outputs, sh, {}) == {};
  }

  lemma SpentNext(pool: Pool, outputs: map<OutPoint, Output>, sh: ScriptHash, seen: set<OutPoint>, o: OutPoint)
    requires o !in seen
    ensures SpentSoFar(pool, outputs, sh, seen + {o}) ==
      if Resolve(View(pool), pool, outputs, o) == Some(sh)
      then Wrap(SpentSoFar(pool, outputs, sh, seen) - AsI64(ValueAt(pool, outputs, o)))
      else SpentSoFar(pool, outputs, sh, seen)
  {
    hide Resolve, View, Wrap, Sum, AsI64;
    var before, after := FromScript(pool, outputs, sh, seen), FromScript(pool, outputs, sh, seen + {o});
    if Resolve(View(pool), pool, outputs, o) == Some(sh) {
      assert after == before + {o};
      SumAdd(before, o, Signed(Paying(pool, outputs)));
      WrapAdd(-Sum(before, Signed(Paying(pool, outputs))), -AsI64(ValueAt(pool, outputs, o)));
    } else {
      assert after == before;
    }
  }

  lemma SpentAll(pool: Pool, outputs: map<OutPoint, Output>, sh: ScriptHash)
    ensures FromScript(pool, outputs, sh, SpentBy(pool)) == SpentFrom(pool, outputs, sh)
  {
  }

  lemma NoneUnclaimed(pool: Pool)
    ensures Sum({}, Signed(InView(pool))) == 0
  {
  }

  lemma UnclaimedNext(pool: Pool, before: set<OutPoint>, o: OutPoint, spent: int)
    requires o !in before && o in View(pool)
    ensures Wrap(Sum(before + {o}, Signed(InView(pool))) - spent)
         == Wrap(Wrap(Sum(before, Signed(InView(pool))) - spent) + AsI64(View(pool)[o].value))
  {
    hide View, Wrap;
    SumAdd(before, o, Signed(InView(pool)));
    WrapAdd(Sum(before, Signed(InView(pool))) - spent, AsI64(View(pool)[o].value));
  }

  // ---- Listing and histogram ----------------------------------------------------------------

  function WithoutSpent(us: seq<Unspent>, spent: set<OutPoint>): seq<Unspent> {
    if us == [] then []
    else
      var rest, last := WithoutSpent(us[..|us| - 1], spent), us[|us| - 1];
      if last.outpoint in spent then rest else rest + [last]
  }

  lemma {:induction false} WithoutSpentCount(us: seq<Unspent>, spent: set<OutPoint>, u: Unspent)
    ensures multiset(WithoutSpent(us, spent))[u] == if u.outpoint in spent then 0 else multiset(us)[u]
  {
    if us != [] {
      WithoutSpentCount(us[..|us| - 1], spent, u);
      assert us == us[..|us| - 1] + [us[|us| - 1]];
    }
  }

  lemma KeptUnspent(utxos: map<UtxoKey, u64>, outputs: map<OutPoint, Output>, pool: Pool, sh: ScriptHash,
                    us: seq<Unspent>)
    requires multiset(us) == multiset(set k | k in ScriptKeys(utxos, sh) :: UnspentOf(utxos, outputs, k))
    ensures multiset(WithoutSpent(us, SpentBy(pool))) == multiset(ConfirmedUnspent(utxos, outputs, pool, sh))
  {
    hide SpentBy;
    var all := set k | k in ScriptKeys(utxos, sh) :: UnspentOf(utxos, outputs, k);
    var free := ConfirmedUnspent(utxos, outputs, pool, sh);
    forall u ensures multiset(WithoutSpent(us, SpentBy(pool)))[u] == multiset(free)[u] {
      WithoutSpentCount(us, SpentBy(pool), u);
      assert u in free <==> u in all && u.outpoint !in SpentBy(pool);
    }
  }

  function RateOf(fee: nat, vsize: nat): nat {
    fee / (if vsize < 1 then 1 else vsize)
  }

  lemma FeeOf(pool: Pool, outputs: map<OutPoint, Output>, tx: Tx)
    ensures 0 <= InputValue(pool, outputs, tx) <= U64_MAX && 0 <= OutputValue(tx) <= U64_MAX
    ensures Fee(pool, outputs, tx)
         == if InputValue(pool, outputs, tx) < OutputValue(tx) then 0
            else InputValue(pool, outputs, tx) - OutputValue(tx)
  {
    SumNonNegative(Spends(tx), Paying(pool, outputs));
  }

  lemma RateOfFee(pool: Pool, outputs: map<OutPoint, Output>, tx: Tx)
    ensures RateOf(Fee(pool, outputs, tx), Vsize(tx)) == Rate(pool, outputs, tx)
    ensures Fee(pool, outputs, tx) == 0 ==> Rate(pool, outputs, tx) == 0
  {
    hide Fee;
  }

  ghost predicate Bucketed(ids: set<Txid>, rates: Txid -> nat, sizes: Txid -> int, buckets: map<nat, nat>) {
    && (forall rate | rate in buckets ::
          AtRate(ids, rates, rate) != {} && buckets[rate] == Sum(AtRate(ids, rates, rate), sizes))
    && (forall id | id in ids :: rates(id) in buckets)
  }

  lemma EligiblePending(pool: Pool, outputs: map<OutPoint, Output>)
    ensures Eligible(pool, outputs) <= pool.Keys
  {
    hide FeeKnown, Rate;
  }

  lemma NoBuckets(rates: Txid -> nat, sizes: Txid -> int)
    ensures Bucketed({}, rates, sizes, map[])
  {
  }

  lemma BucketNext(ids: set<Txid>, rates: Txid -> nat, sizes: Txid -> int, buckets: map<nat, nat>, id: Txid)
    requires Bucketed(ids, rates, sizes, buckets) && id !in ids && 0 <= sizes(id)
    ensures var rate := rates(id);
      Bucketed(ids + {id}, rates, sizes,
               buckets[rate := (if rate in buckets then buckets[rate] else 0) + sizes(id)])
  {
    var rate := rates(id);
    forall r ensures AtRate(ids + {id}, rates, r) ==
      if r == rate then AtRate(ids, rates, r) + {id} else AtRate(ids, rates, r)
    {
    }
    SumAdd(AtRate(ids, rates, rate), id, sizes);
    if rate !in buckets {
      assert AtRate(ids, rates, rate) == {};
    }
  }

  function RowKey(row: Row): Key {
    Key(-(row.rate as int), 0, 0)
  }

  lemma SortedDecreasing(out: seq<Row>, rows: seq<Row>)
    requires multiset(out) == multiset(rows) && Sorted(rows, RowKey)
    requires forall i, j | 0 <= i < j < |out| :: out[i].rate != out[j].rate
    ensures Decreasing(rows) && forall row :: row in rows <==> row in out
  {
    forall row ensures row in rows <==> row in out {
      assert row in multiset(rows) <==> row in multiset(out);
    }
    forall i, j | 0 <= i < j < |rows| ensures rows[i].rate > rows[j].rate {
      assert Le(RowKey(rows[i]), RowKey(rows[j]));
      RowsApart(out, rows, i, j);
    }
  }

  lemma RowsApart(out: seq<Row>, rows: seq<Row>, i: nat, j: nat)
    requires multiset(out) == multiset(rows) && i < j < |rows|
    requires forall i, j | 0 <= i < j < |out| :: out[i].rate != out[j].rate
    ensures rows[i].rate != rows[j].rate
  {
    assert rows[i] in multiset(out) && rows[j] in multiset(out);
    DistinctCount(out, rows[i]);
    assert rows == rows[..j] + [rows[j]] + rows[j + 1..];
    assert rows[i] in multiset(rows[..j]);
    assert multiset(rows)[rows[j]] <= 1 by { DistinctCount(out, rows[j]); }
    var a :| 0 <= a < |out| && out[a] == rows[i];
    var b :| 0 <= b < |out| && out[b] == rows[j];
  }

  lemma RowsHistogram(ids: set<Txid>, rates: Txid -> nat, sizes: Txid -> int, buckets: map<nat, nat>, rows: seq<Row>)
    requires Bucketed(ids, rates, sizes, buckets) && Decreasing(rows)
    requires forall row :: row in rows <==> row.rate in buckets && buckets[row.rate] == row.vsize
    ensures IsHistogram(ids, rates, sizes, rows)
  {
    forall id | id in ids ensures exists row :: row in rows && row.rate == rates(id) {
      assert Row(rates(id), buckets[rates(id)]) in rows;
    }
  }
}
