/**
 * The script hashes announced for a change of the pending pool, and why they are enough: every
 * script hash whose list of pending (txid, height) entries changes is among them.
 */
module Notify {
  import opened Chain
  import opened Pending

  /** -1 when some input is not a stored output, else 0. */
  function MempoolHeight(outputs: map<OutPoint, Output>, tx: Tx): int {
    if Spends(tx) <= outputs.Keys then 0 else -1
  }

  /** The pending transactions that touch a script hash. */
  function Touching(pool: Pool, outputs: map<OutPoint, Output>, sh: ScriptHash): (ids: set<Txid>)
    ensures ids <= pool.Keys
  {
    set id | id in pool && sh in Touched(View(pool), pool, outputs, pool[id])
  }

  /** The pending (txid, height) entries of a script hash. */
  function Entries(pool: Pool, outputs: map<OutPoint, Output>, sh: ScriptHash): set<(Txid, int)> {
    set id | id in Touching(pool, outputs, sh) :: (id, MempoolHeight(outputs, pool[id]))
  }

  function At(pool: Pool, tx: Tx, id: Txid): Tx
    requires id == tx.txid || id in pool
  {
    if id == tx.txid then tx else pool[id]
  }

  /** What the walk over `tx` and its pending descendants touches. */
  ghost function Affected(cache: map<OutPoint, Output>, pool: Pool, outputs: map<OutPoint, Output>, tx: Tx)
    : set<ScriptHash>
  {
    set id, sh | id in Descendants(pool, tx.txid) && sh in Touched(cache, pool, outputs, At(pool, tx, id)) :: sh
  }

  ghost function ChainAffected(pool: Pool, outputs: map<OutPoint, Output>, root: Txid): set<ScriptHash> {
    set id, sh | id in Descendants(pool, root) && id in pool && sh in Affected(View(pool), pool, outputs, pool[id])
      :: sh
  }

  ghost function EvictAffected(pool: Pool, outputs: map<OutPoint, Output>, order: seq<Txid>): set<ScriptHash> {
    if order == [] then {}
    else
      var rest := order[..|order| - 1];
      EvictAffected(pool, outputs, rest) + ChainAffected(EvictAll(pool, rest), outputs, order[|order| - 1])
  }

  /** Replacing the conflicts in the order met, then adding the transaction. */
  ghost function TrackAffected(pool: Pool, outputs: map<OutPoint, Output>, order: seq<Txid>, tx: Tx)
    : set<ScriptHash>
  {
    var after := EvictAll(pool, order)[tx.txid := tx];
    EvictAffected(pool, outputs, order) + Affected(View(after), after, outputs, tx)
  }

  // ---- When two pools see a transaction alike -----------------------------------------------

  lemma TouchedAlike(p: Pool, q: Pool, outputs: map<OutPoint, Output>, tx: Tx)
    requires forall o | o in Spends(tx) ::
      Resolve(View(p), p, outputs, o) == Resolve(View(q), q, outputs, o)
    ensures Touched(View(p), p, outputs, tx) == Touched(View(q), q, outputs, tx)
  {
    hide Resolve, View;
  }

  lemma ResolveAlike(p: Pool, q: Pool, outputs: map<OutPoint, Output>, o: OutPoint)
    requires PoolOutput(p, o) == PoolOutput(q, o)
    ensures Resolve(View(p), p, outputs, o) == Resolve(View(q), q, outputs, o)
  {
    hide View, CachedOutput;
    CacheAgrees(p, o);
    CacheAgrees(q, o);
  }

  /** Removing transactions cannot change how a transaction that spends none of them is seen. */
  lemma UnrelatedAlike(pool: Pool, gone: set<Txid>, outputs: map<OutPoint, Output>, tx: Tx)
    requires Parents(tx) * gone * pool.Keys == {}
    ensures Touched(View(pool), pool, outputs, tx) == Touched(View(pool - gone), pool - gone, outputs, tx)
  {
    hide View;
    forall o | o in Spends(tx)
      ensures Resolve(View(pool), pool, outputs, o) == Resolve(View(pool - gone), pool - gone, outputs, o)
    {
      assert o.txid !in Parents(tx) * gone * pool.Keys;
      ResolveAlike(pool, pool - gone, outputs, o);
    }
    TouchedAlike(pool, pool - gone, outputs, tx);
  }

  lemma EntriesAlike(p: Pool, q: Pool, outputs: map<OutPoint, Output>, sh: ScriptHash)
    requires forall id | id in p.Keys + q.Keys ::
      && (id in p && sh in Touched(View(p), p, outputs, p[id])
          <==> id in q && sh in Touched(View(q), q, outputs, q[id]))
      && (id in p && id in q ==> Spends(p[id]) == Spends(q[id]))
    ensures Entries(p, outputs, sh) == Entries(q, outputs, sh)
  {
    hide View, Touched;
  }

  // ---- Evicting a chain ---------------------------------------------------------------------

  lemma SelfAffected(cache: map<OutPoint, Output>, pool: Pool, outputs: map<OutPoint, Output>, tx: Tx)
    ensures Touched(cache, pool, outputs, tx) <= Affected(cache, pool, outputs, tx)
  {
    hide Touched, Reaches;
    DescendantsRoot(pool, tx.txid);
    assert At(pool, tx, tx.txid) == tx;
  }

  lemma ChainComplete(pool: Pool, outputs: map<OutPoint, Output>, root: Txid, sh: ScriptHash)
    requires sh !in ChainAffected(pool, outputs, root)
    ensures Entries(pool, outputs, sh) == Entries(Evict(pool, root), outputs, sh)
  {
    hide View, Touched, Affected, Reaches;
    var gone, rest := Descendants(pool, root), Evict(pool, root);
    DescendantsClosed(pool, root);
    forall id | id in pool
      ensures sh in Touched(View(pool), pool, outputs, pool[id])
         <==> id in rest && sh in Touched(View(rest), rest, outputs, rest[id])
    {
      if id in gone {
        SelfAffected(View(pool), pool, outputs, pool[id]);
      } else {
        UnrelatedAlike(pool, gone, outputs, pool[id]);
      }
    }
    EntriesAlike(pool, rest, outputs, sh);
  }

  lemma {:induction false} EvictComplete(pool: Pool, outputs: map<OutPoint, Output>, order: seq<Txid>, sh: ScriptHash)
    requires sh !in EvictAffected(pool, outputs, order)
    ensures Entries(pool, outputs, sh) == Entries(EvictAll(pool, order), outputs, sh)
  {
    hide ChainAffected, Entries, Evict;
    if order != [] {
      EvictComplete(pool, outputs, order[..|order| - 1], sh);
      ChainComplete(EvictAll(pool, order[..|order| - 1]), outputs, order[|order| - 1], sh);
    }
  }

  /** What some of the pending transactions touch. */
  function TouchedBy(pool: Pool, outputs: map<OutPoint, Output>, ids: set<Txid>): set<ScriptHash> {
    set id, sh | id in ids && id in pool && sh in Touched(View(pool), pool, outputs, pool[id]) :: sh
  }

  /** The walk from each removed transaction finds nothing that the removed ones do not touch. */
  lemma ChainAffectedExact(pool: Pool, outputs: map<OutPoint, Output>, root: Txid)
    requires Keyed(pool)
    ensures ChainAffected(pool, outputs, root) == TouchedBy(pool, outputs, Descendants(pool, root))
  {
    hide Touched, View, Reaches;
    var ids := Descendants(pool, root);
    DescendantsClosed(pool, root);
    forall id, x | id in ids && id in pool && x in Descendants(pool, id) ensures x in ids && x in pool {
      DescendantsLeast(pool, id, ids);
    }
    forall id | id in ids && id in pool
      ensures Touched(View(pool), pool, outputs, pool[id]) <= Affected(View(pool), pool, outputs, pool[id])
    {
      SelfAffected(View(pool), pool, outputs, pool[id]);
    }
  }

  lemma TouchedByRest(pool: Pool, outputs: map<OutPoint, Output>, gone: set<Txid>, ids: set<Txid>)
    requires Closed(pool, gone)
    ensures TouchedBy(pool - gone, outputs, ids) == TouchedBy(pool, outputs, ids - gone)
  {
    hide Touched, View, Parents;
    forall id | id in ids - gone && id in pool
      ensures Touched(View(pool), pool, outputs, pool[id])
           == Touched(View(pool - gone), pool - gone, outputs, pool[id])
    {
      UnrelatedAlike(pool, gone, outputs, pool[id]);
    }
    forall sh ensures sh in TouchedBy(pool - gone, outputs, ids) <==> sh in TouchedBy(pool, outputs, ids - gone) {
      if sh in TouchedBy(pool, outputs, ids - gone) {
        var id :| id in ids - gone && id in pool && sh in Touched(View(pool), pool, outputs, pool[id]);
        assert id in pool - gone && (pool - gone)[id] == pool[id];
      }
    }
  }

  lemma TouchedByUnion(pool: Pool, outputs: map<OutPoint, Output>, a: set<Txid>, b: set<Txid>)
    ensures TouchedBy(pool, outputs, a + b) == TouchedBy(pool, outputs, a) + TouchedBy(pool, outputs, b)
  {
    hide Touched, View;
  }

  /** Whatever the order of evictions, exactly what the removed transactions touch is announced. */
  lemma {:induction false} EvictAffectedExact(pool: Pool, outputs: map<OutPoint, Output>, order: seq<Txid>)
    requires Keyed(pool)
    ensures EvictAffected(pool, outputs, order) == TouchedBy(pool, outputs, Chains(pool, Elements(order)))
  {
    hide TouchedBy, ChainAffected, Closed, Descendants, Chains;
    if order == [] {
      NoChains(pool, outputs);
    } else {
      var rest, root := order[..|order| - 1], order[|order| - 1];
      var gone := Chains(pool, Elements(rest));
      EvictAffectedExact(pool, outputs, rest);
      EvictAllChains(pool, rest);
      ChainAffectedExact(pool - gone, outputs, root);
      ChainsClosed(pool, Elements(rest));
      TouchedByRest(pool, outputs, gone, Descendants(pool - gone, root));
      DescendantsAfter(pool, gone, root);
      assert Elements(order) == Elements(rest) + {root};
      ChainsUnion(pool, Elements(rest), root);
      TouchedByUnion(pool, outputs, gone, Descendants(pool - gone, root) - gone);
      assert gone + (Descendants(pool - gone, root) - gone) == gone + Descendants(pool, root);
    }
  }

  lemma NoChains(pool: Pool, outputs: map<OutPoint, Output>)
    ensures TouchedBy(pool, outputs, Chains(pool, Elements([]))) == {}
  {
    hide Touched, Descendants;
  }

  // ---- Adding a transaction -----------------------------------------------------------------

  /** Stored outputs under this txid are the transaction's own. */
  predicate OutputsOf(outputs: map<OutPoint, Output>, tx: Tx) {
    forall o | o in outputs && o.txid == tx.txid ::
      o.vout < |tx.outputs| && tx.outputs[o.vout].scriptHash == outputs[o].scriptHash
  }

  predicate SameBody(a: Tx, b: Tx) {
    a.txid == b.txid && a.inputs == b.inputs && a.outputs == b.outputs
  }

  lemma ChildAlike(pool: Pool, outputs: map<OutPoint, Output>, tx: Tx, child: Tx, sh: ScriptHash)
    requires OutputsOf(outputs, tx) && (tx.txid in pool ==> SameBody(pool[tx.txid], tx))
    requires var after := pool[tx.txid := tx];
      tx.txid in Parents(child) ==> sh !in Touched(View(after), after, outputs, child)
    ensures var after := pool[tx.txid := tx];
      sh in Touched(View(pool), pool, outputs, child) <==> sh in Touched(View(after), after, outputs, child)
  {
    hide View, Resolve;
    var after := pool[tx.txid := tx];
    forall o | o in Spends(child)
      ensures Resolve(View(pool), pool, outputs, o) == Resolve(View(after), after, outputs, o)
           || (&& Resolve(View(pool), pool, outputs, o) == None && o.txid in Parents(child)
               && o.txid == tx.txid)
    {
      ResolveInserted(pool, outputs, tx, o);
    }
  }

  /** A stored output that a new pending transaction shadows has the same script hash. */
  lemma ResolveInserted(pool: Pool, outputs: map<OutPoint, Output>, tx: Tx, o: OutPoint)
    requires OutputsOf(outputs, tx) && (tx.txid in pool ==> SameBody(pool[tx.txid], tx))
    ensures var after := pool[tx.txid := tx];
      || Resolve(View(pool), pool, outputs, o) == Resolve(View(after), after, outputs, o)
      || (Resolve(View(pool), pool, outputs, o) == None && o.txid == tx.txid)
  {
    hide View, CachedOutput;
    CacheAgrees(pool, o);
    CacheAgrees(pool[tx.txid := tx], o);
  }

  lemma InsertComplete(pool: Pool, outputs: map<OutPoint, Output>, tx: Tx, sh: ScriptHash)
    requires OutputsOf(outputs, tx) && (tx.txid in pool ==> SameBody(pool[tx.txid], tx))
    requires var after := pool[tx.txid := tx]; sh !in Affected(View(after), after, outputs, tx)
    ensures Entries(pool, outputs, sh) == Entries(pool[tx.txid := tx], outputs, sh)
  {
    hide View, Touched, Reaches;
    var after := pool[tx.txid := tx];
    forall id | id in pool
      ensures sh in Touched(View(pool), pool, outputs, pool[id])
         <==> sh in Touched(View(after), after, outputs, after[id])
    {
      if tx.txid in Parents(after[id]) {
        DescendantsRoot(after, tx.txid);
        DescendantsStep(after, tx.txid, tx.txid, id);
        assert At(after, tx, id) == after[id];
      }
      ChildAlike(pool, outputs, tx, after[id], sh);
      if id == tx.txid {
        SameBodyTouched(View(pool), pool, outputs, pool[id], tx);
      }
    }
    SelfAffected(View(after), after, outputs, tx);
    EntriesAlike(pool, after, outputs, sh);
  }

  lemma SameBodyTouched(cache: map<OutPoint, Output>, pool: Pool, outputs: map<OutPoint, Output>, a: Tx, b: Tx)
    requires SameBody(a, b)
    ensures Touched(cache, pool, outputs, a) == Touched(cache, pool, outputs, b)
  {
    hide Resolve;
    assert Spends(a) == Spends(b);
  }

  /** Tracking announces every script hash whose entries change, whatever the order of evictions. */
  lemma TrackComplete(pool: Pool, outputs: map<OutPoint, Output>, order: seq<Txid>, tx: Tx, sh: ScriptHash)
    requires OutputsOf(outputs, tx) && (tx.txid in pool ==> SameBody(pool[tx.txid], tx))
    requires Elements(order) == Conflicts(pool, tx)
    requires sh !in TrackAffected(pool, outputs, order, tx)
    ensures Entries(pool, outputs, sh) == Entries(Track(pool, tx), outputs, sh)
  {
    hide Entries, Affected, EvictAffected;
    EvictAllChains(pool, order);
    EvictComplete(pool, outputs, order, sh);
    InsertComplete(EvictAll(pool, order), outputs, tx, sh);
  }

  // ---- Forgetting one transaction -----------------------------------------------------------

  /** The cache is stale while the walk runs, but every outpoint it looks up is a spent one. */
  lemma StaleCacheUnseen(pool: Pool, gone: set<Txid>, outputs: map<OutPoint, Output>, id: Txid)
    requires id in pool
    ensures Touched(View(pool), pool - gone, outputs, pool[id])
         == Touched(View(pool - gone), pool - gone, outputs, pool[id])
  {
    hide PoolOutpoints;
    var rest := pool - gone;
    forall o | o in Spends(pool[id])
      ensures Resolve(View(pool), rest, outputs, o) == Resolve(View(rest), rest, outputs, o)
    {
      assert o in SpentBy(pool);
      CacheAgrees(rest, o);
    }
  }

  lemma ForgetComplete(pool: Pool, outputs: map<OutPoint, Output>, id: Txid, sh: ScriptHash)
    requires Keyed(pool) && id in pool
    requires sh !in Affected(View(pool), pool - {id}, outputs, pool[id])
    ensures Entries(pool, outputs, sh) == Entries(pool - {id}, outputs, sh)
  {
    hide View, Touched, Reaches;
    var rest := pool - {id};
    SelfAffected(View(pool), rest, outputs, pool[id]);
    forall x | x in pool
      ensures sh in Touched(View(pool), pool, outputs, pool[x])
         <==> x in rest && sh in Touched(View(rest), rest, outputs, rest[x])
    {
      if x == id || id in Parents(pool[x]) {
        if x != id {
          DescendantsRoot(rest, id);
          DescendantsStep(rest, id, id, x);
          assert At(rest, pool[id], x) == pool[x];
        }
        StaleCacheUnseen(pool, {id}, outputs, x);
        ForgottenAlike(pool, outputs, id, x, sh);
      } else {
        UnrelatedAlike(pool, {id}, outputs, pool[x]);
      }
    }
    EntriesAlike(pool, rest, outputs, sh);
  }

  /** A child of the forgotten transaction resolves to the same script hash or to one of its outputs. */
  lemma ForgottenAlike(pool: Pool, outputs: map<OutPoint, Output>, id: Txid, x: Txid, sh: ScriptHash)
    requires id in pool && x in pool
    requires sh !in Touched(View(pool), pool - {id}, outputs, pool[id])
    requires sh !in Touched(View(pool - {id}), pool - {id}, outputs, pool[x])
    ensures sh !in Touched(View(pool), pool, outputs, pool[x])
  {
    hide View, CachedOutput;
    var rest := pool - {id};
    forall o | o in Spends(pool[x])
      ensures Resolve(View(pool), pool, outputs, o) != Some(sh)
    {
      CacheAgrees(pool, o);
      CacheAgrees(rest, o);
      assert Resolve(View(rest), rest, outputs, o) != Some(sh);
    }
  }
}
