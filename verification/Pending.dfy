/**
 * The pending transactions as a graph: the derived output cache, descendant chains, replacement,
 * and the script hashes that a change must be announced for.
 */
module Pending {
  import opened Chain

  type Pool = map<Txid, Tx>

  ghost predicate Keyed(pool: Pool) {
    forall id | id in pool :: pool[id].txid == id
  }

  function Spends(tx: Tx): set<OutPoint> {
    set i | 0 <= i < |tx.inputs| && tx.inputs[i] != NULL_OUTPOINT :: tx.inputs[i]
  }

  function Parents(tx: Tx): set<Txid> {
    set o | o in Spends(tx) :: o.txid
  }

  function SpentBy(pool: Pool): set<OutPoint> {
    set id, o | id in pool && o in Spends(pool[id]) :: o
  }

  function PoolOutpoints(pool: Pool): set<OutPoint> {
    set id, vout | id in pool && 0 <= vout < |pool[id].outputs| :: OutPoint(id, vout)
  }

  function PoolOutput(pool: Pool, o: OutPoint): Option<Output> {
    if o.txid in pool && o.vout < |pool[o.txid].outputs| then
      var out := pool[o.txid].outputs[o.vout];
      Some(Output(out.scriptHash, out.value, 0))
    else None
  }

  /** The outputs of pending transactions that no pending transaction spends. */
  function View(pool: Pool): map<OutPoint, Output> {
    map o | o in PoolOutpoints(pool) && o !in SpentBy(pool) :: PoolOutput(pool, o).value
  }

  /** The lookup through the cache, which may be stale while a transaction is being removed. */
  function CachedOutput(cache: map<OutPoint, Output>, pool: Pool, o: OutPoint): Option<Output> {
    if o in cache then Some(cache[o]) else PoolOutput(pool, o)
  }

  /** With an up-to-date cache every lookup equals the direct one. */
  lemma CacheAgrees(pool: Pool, o: OutPoint)
    ensures CachedOutput(View(pool), pool, o) == PoolOutput(pool, o)
  {
  }

  function Resolve(cache: map<OutPoint, Output>, pool: Pool, outputs: map<OutPoint, Output>, o: OutPoint)
    : Option<ScriptHash>
  {
    match CachedOutput(cache, pool, o)
    case Some(out) => Some(out.scriptHash)
    case None => if o in outputs then Some(outputs[o].scriptHash) else None
  }

  /** The script hashes a transaction pays to or is seen to spend from. */
  function Touched(cache: map<OutPoint, Output>, pool: Pool, outputs: map<OutPoint, Output>, tx: Tx)
    : set<ScriptHash>
  {
    (set o | o in Spends(tx) && Resolve(cache, pool, outputs, o).Some? :: Resolve(cache, pool, outputs, o).value)
    + (set i | 0 <= i < |tx.outputs| :: tx.outputs[i].scriptHash)
  }

  // ---- Descendants --------------------------------------------------------------------------

  /** Each transaction of the path but the first is pending and spends its predecessor. */
  ghost predicate IsPath(pool: Pool, path: seq<Txid>) {
    && path != []
    && forall i | 0 < i < |path| :: path[i] in pool && path[i - 1] in Parents(pool[path[i]])
  }

  ghost predicate Reaches(pool: Pool, root: Txid, id: Txid) {
    exists path :: IsPath(pool, path) && path[0] == root && path[|path| - 1] == id
  }

  /** The root and every pending transaction that directly or indirectly spends it. */
  ghost function Descendants(pool: Pool, root: Txid): set<Txid> {
    set id | id in pool.Keys + {root} && Reaches(pool, root, id)
  }

  ghost predicate Closed(pool: Pool, ids: set<Txid>) {
    forall id | id in pool && Parents(pool[id]) * ids != {} :: id in ids
  }

  lemma DescendantsRoot(pool: Pool, root: Txid)
    ensures root in Descendants(pool, root)
  {
    assert IsPath(pool, [root]);
  }

  lemma DescendantsStep(pool: Pool, root: Txid, parent: Txid, child: Txid)
    requires parent in Descendants(pool, root) && child in pool && parent in Parents(pool[child])
    ensures child in Descendants(pool, root)
  {
    var path :| IsPath(pool, path) && path[0] == root && path[|path| - 1] == parent;
    assert IsPath(pool, path + [child]);
  }

  lemma DescendantsClosed(pool: Pool, root: Txid)
    ensures Closed(pool, Descendants(pool, root))
  {
    forall id | id in pool && Parents(pool[id]) * Descendants(pool, root) != {}
      ensures id in Descendants(pool, root)
    {
      var parent :| parent in Parents(pool[id]) * Descendants(pool, root);
      DescendantsStep(pool, root, parent, id);
    }
  }

  lemma {:induction false} PathWithin(pool: Pool, path: seq<Txid>, ids: set<Txid>)
    requires IsPath(pool, path) && path[0] in ids && Closed(pool, ids)
    ensures path[|path| - 1] in ids
  {
    if |path| > 1 {
      PathWithin(pool, path[..|path| - 1], ids);
      assert path[|path| - 2] in Parents(pool[path[|path| - 1]]) * ids;
    }
  }

  /** Descendants are the least closed set with the root. */
  lemma DescendantsLeast(pool: Pool, root: Txid, ids: set<Txid>)
    requires root in ids && Closed(pool, ids)
    ensures Descendants(pool, root) <= ids
  {
    forall id | id in Descendants(pool, root) ensures id in ids {
      var path :| IsPath(pool, path) && path[0] == root && path[|path| - 1] == id;
      PathWithin(pool, path, ids);
    }
  }

  // ---- Evicting chains ----------------------------------------------------------------------

  ghost function Evict(pool: Pool, root: Txid): Pool {
    pool - Descendants(pool, root)
  }

  /** No survivor of an eviction spends a removed transaction. */
  lemma EvictLeavesNoOrphan(pool: Pool, root: Txid, id: Txid)
    requires id in Evict(pool, root)
    ensures id != root && Parents(pool[id]) * Descendants(pool, root) == {}
  {
    DescendantsRoot(pool, root);
    DescendantsClosed(pool, root);
  }

  /** The loop over conflicts evicts one chain after another, in whatever order it meets them. */
  ghost function EvictAll(pool: Pool, order: seq<Txid>): Pool {
    if order == [] then pool else Evict(EvictAll(pool, order[..|order| - 1]), order[|order| - 1])
  }

  ghost function Chains(pool: Pool, roots: set<Txid>): set<Txid> {
    set root, id | root in roots && id in Descendants(pool, root) :: id
  }

  lemma ChainsClosed(pool: Pool, roots: set<Txid>)
    ensures Closed(pool, Chains(pool, roots)) && roots <= Chains(pool, roots)
  {
    forall id | id in pool && Parents(pool[id]) * Chains(pool, roots) != {}
      ensures id in Chains(pool, roots)
    {
      var parent :| parent in Parents(pool[id]) * Chains(pool, roots);
      var root :| root in roots && parent in Descendants(pool, root);
      DescendantsStep(pool, root, parent, id);
    }
    forall root | root in roots ensures root in Chains(pool, roots) {
      DescendantsRoot(pool, root);
    }
  }

  /** Once a closed set is gone, a further chain removes just what is missing from the union. */
  lemma DescendantsAfter(pool: Pool, gone: set<Txid>, root: Txid)
    requires Closed(pool, gone)
    ensures gone + Descendants(pool - gone, root) == gone + Descendants(pool, root)
  {
    var rest := pool - gone;
    DescendantsRoot(rest, root);
    DescendantsClosed(rest, root);
    DescendantsRoot(pool, root);
    DescendantsClosed(pool, root);
    DescendantsLeast(pool, root, gone + Descendants(rest, root));
    DescendantsLeast(rest, root, Descendants(pool, root));
  }

  lemma ChainsUnion(pool: Pool, roots: set<Txid>, root: Txid)
    ensures Chains(pool, roots + {root}) == Chains(pool, roots) + Descendants(pool, root)
  {
    hide Descendants;
  }

  function Elements(order: seq<Txid>): set<Txid> {
    set id | id in order
  }

  lemma EvictNext(pool: Pool, gone: set<Txid>, root: Txid)
    requires Closed(pool, gone)
    ensures Evict(pool - gone, root) == pool - (gone + Descendants(pool, root))
  {
    hide Closed, Descendants;
    DescendantsAfter(pool, gone, root);
    var d, d' := Descendants(pool - gone, root), Descendants(pool, root);
    assert forall id :: id in gone || id in d <==> id in gone + d;
    assert forall id :: id in gone || id in d' <==> id in gone + d';
  }

  /** Eviction is independent of the order in which conflicts are met. */
  lemma {:induction false} EvictAllChains(pool: Pool, order: seq<Txid>)
    ensures EvictAll(pool, order) == pool - Chains(pool, Elements(order))
  {
    hide Closed, Evict, Descendants;
    if order != [] {
      var rest, root := order[..|order| - 1], order[|order| - 1];
      EvictAllChains(pool, rest);
      ChainsClosed(pool, Elements(rest));
      EvictNext(pool, Chains(pool, Elements(rest)), root);
      assert Elements(order) == Elements(rest) + {root};
      ChainsUnion(pool, Elements(rest), root);
    }
  }

  // ---- Replacement --------------------------------------------------------------------------

  /** Pending transactions, other than direct parents, that share a prevout with `tx`. */
  function Conflicts(pool: Pool, tx: Tx): set<Txid> {
    set id | id in pool && id !in Parents(tx) && Spends(pool[id]) * Spends(tx) != {}
  }

  ghost function Track(pool: Pool, tx: Tx): Pool {
    (pool - Chains(pool, Conflicts(pool, tx)))[tx.txid := tx]
  }

  /** A chain of pending spenders leads to it from a transaction, not a direct parent, that shares a prevout. */
  ghost predicate Displaced(pool: Pool, tx: Tx, id: Txid) {
    exists root :: root in pool && root !in Parents(tx) && Spends(pool[root]) * Spends(tx) != {}
      && Reaches(pool, root, id)
  }

  /** Tracking files the transaction and loses exactly the displaced ones. */
  lemma TrackMeaning(pool: Pool, tx: Tx, id: Txid)
    ensures tx.txid in Track(pool, tx) && Track(pool, tx)[tx.txid] == tx
    ensures id != tx.txid ==>
      && (id in Track(pool, tx) <==> id in pool && !Displaced(pool, tx, id))
      && (id in Track(pool, tx) ==> Track(pool, tx)[id] == pool[id])
  {
    hide Reaches, Parents, Spends;
    if id in pool && Displaced(pool, tx, id) {
      var root :| root in pool && root !in Parents(tx) && Spends(pool[root]) * Spends(tx) != {}
        && Reaches(pool, root, id);
      assert root in Conflicts(pool, tx) && id in Descendants(pool, root);
    }
  }

  ghost predicate NoDoubleSpend(pool: Pool) {
    forall a, b | a in pool && b in pool && a != b :: Spends(pool[a]) * Spends(pool[b]) == {}
  }

  /** A direct parent that survives the evictions and spends an output that `tx` also spends. */
  ghost predicate SharesWithParent(pool: Pool, tx: Tx) {
    exists id ::
      && id in pool && id in Parents(tx) && id != tx.txid
      && id !in Chains(pool, Conflicts(pool, tx))
      && Spends(pool[id]) * Spends(tx) != {}
  }

  /** Tracking keeps the pool free of double spends exactly when no surviving parent is one. */
  lemma TrackNoDoubleSpend(pool: Pool, tx: Tx)
    requires NoDoubleSpend(pool)
    ensures NoDoubleSpend(Track(pool, tx)) <==> !SharesWithParent(pool, tx)
  {
    hide Chains, Parents, Spends;
    var after := Track(pool, tx);
    ChainsClosed(pool, Conflicts(pool, tx));
    if SharesWithParent(pool, tx) {
      var id :| && id in pool && id in Parents(tx) && id != tx.txid
        && id !in Chains(pool, Conflicts(pool, tx)) && Spends(pool[id]) * Spends(tx) != {};
      assert id in after && tx.txid in after;
    } else {
      forall id | id in after && id != tx.txid ensures Spends(after[id]) * Spends(tx) == {} {
        assert id !in Conflicts(pool, tx);
      }
    }
  }

  /** It can fail: a child that spends its parent's own input next to the parent's output. */
  lemma SharedWithParentDoubleSpends(id: Txid, child: Txid, o: OutPoint)
    requires id != child && o != NULL_OUTPOINT && o.txid !in {id, child}
    ensures var parent := Tx(id, [o], [TxOut(0, 1)], 1);
      var both := Tx(child, [o, OutPoint(id, 0)], [], 1);
      NoDoubleSpend(map[id := parent]) && !NoDoubleSpend(Track(map[id := parent], both))
  {
    hide Track, Descendants;
    var parent, both := Tx(id, [o], [TxOut(0, 1)], 1), Tx(child, [o, OutPoint(id, 0)], [], 1);
    var pool := map[id := parent];
    assert both.inputs[0] == o && both.inputs[1] == OutPoint(id, 0) && parent.inputs[0] == o;
    assert o in Spends(both) && OutPoint(id, 0) in Spends(both) && o in Spends(parent);
    assert id in Parents(both);
    assert Conflicts(pool, both) == {};
    assert Chains(pool, {}) == {};
    assert o in Spends(pool[id]) * Spends(both);
    assert SharesWithParent(pool, both);
    TrackNoDoubleSpend(pool, both);
  }

  lemma RemovalNoDoubleSpend(pool: Pool, ids: set<Txid>)
    requires NoDoubleSpend(pool)
    ensures NoDoubleSpend(pool - ids)
  {
  }

  /** A chain is the root alone exactly when no other pending transaction spends the root. */
  lemma ChildlessAlone(pool: Pool, root: Txid)
    ensures Descendants(pool, root) == {root} <==> Childless(pool, root)
  {
    DescendantsRoot(pool, root);
    if Childless(pool, root) {
      DescendantsLeast(pool, root, {root});
    } else {
      var id :| id in pool && id != root && root in Parents(pool[id]);
      DescendantsStep(pool, root, root, id);
    }
  }

  predicate Childless(pool: Pool, root: Txid) {
    forall id | id in pool :: id == root || root !in Parents(pool[id])
  }

  /**
   * Tracking a pending transaction again keeps the whole pool exactly when nothing else conflicts with it
   * and, if it conflicts with itself, no other pending transaction spends it.
   */
  lemma RetrackKeepsPool(pool: Pool, tx: Tx)
    requires tx.txid in pool
    ensures Track(pool, tx).Keys == pool.Keys
       <==> Conflicts(pool, tx) <= {tx.txid} && (tx.txid in Conflicts(pool, tx) ==> Childless(pool, tx.txid))
  {
    hide Descendants, Conflicts, Childless;
    var conflicts := Conflicts(pool, tx);
    ChainsClosed(pool, conflicts);
    ChildlessAlone(pool, tx.txid);
    DescendantsRoot(pool, tx.txid);
    ConflictsPending(pool, tx);
    if Track(pool, tx).Keys == pool.Keys {
      forall id | id in Chains(pool, conflicts) ensures id == tx.txid {
        ChainsPending(pool, conflicts, id);
        assert id in Track(pool, tx);
      }
      if tx.txid in conflicts {
        forall id | id in Descendants(pool, tx.txid) ensures id == tx.txid {
          assert id in Chains(pool, conflicts);
        }
      }
    } else {
      var id :| id in pool && id != tx.txid && id in Chains(pool, conflicts);
      var root :| root in conflicts && id in Descendants(pool, root);
    }
  }

  lemma ConflictsPending(pool: Pool, tx: Tx)
    ensures Conflicts(pool, tx) <= pool.Keys
  {
  }

  lemma ChainsPending(pool: Pool, roots: set<Txid>, id: Txid)
    requires roots <= pool.Keys && id in Chains(pool, roots)
    ensures id in pool
  {
  }

  /** Re-tracking a pending transaction that spends anything drops its descendants. */
  lemma RetrackDropsDescendants(pool: Pool, tx: Tx, id: Txid)
    requires tx.txid in pool && pool[tx.txid].inputs == tx.inputs
    requires Spends(tx) != {} && tx.txid !in Parents(tx)
    requires id in Descendants(pool, tx.txid) && id != tx.txid
    ensures id !in Track(pool, tx)
  {
    assert tx.txid in Conflicts(pool, tx);
    assert id in Chains(pool, Conflicts(pool, tx));
  }

  /** Without double spends, re-tracking is harmless exactly for a transaction that spends nothing or is childless. */
  lemma RetrackHarmless(pool: Pool, tx: Tx)
    requires NoDoubleSpend(pool) && tx.txid in pool && pool[tx.txid].inputs == tx.inputs
    requires tx.txid !in Parents(tx)
    ensures Track(pool, tx).Keys == pool.Keys <==> Spends(tx) == {} || Childless(pool, tx.txid)
  {
    hide Track, Childless;
    RetrackKeepsPool(pool, tx);
    assert Spends(pool[tx.txid]) == Spends(tx);
    assert Conflicts(pool, tx) <= {tx.txid};
    assert tx.txid in Conflicts(pool, tx) <==> Spends(tx) != {};
  }
}
