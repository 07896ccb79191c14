/**
 * Which pending transactions concern a script hash, what a pending change announces, and that it leaves the
 * balance and the listing of every script hash that it does not announce.
 */
module Effects {
  import opened Announce
  import opened Chain
  import opened Chronicle
  import opened Confirmed
  import opened Model
  import opened Notify
  import opened Pending
  import opened Queries
  import opened Sorting
  import opened Sums

  // ---- Which pending transactions concern a script hash -----------------------------------

  /** The outpoint is a stored or a pending output of the script hash. */
  predicate PaidKnown(outputs: map<OutPoint, Output>, pool: Pool, o: OutPoint, sh: ScriptHash) {
    (o in outputs && outputs[o].scriptHash == sh) || (o.txid in pool && PaysScript(pool[o.txid], o, sh))
  }

  /** The transaction pays the script hash, or an input spends a known output of it. */
  ghost predicate Touches(outputs: map<OutPoint, Output>, pool: Pool, tx: Tx, sh: ScriptHash) {
    || (exists i :: 0 <= i < |tx.outputs| && tx.outputs[i].scriptHash == sh)
    || (exists i :: 0 <= i < |tx.inputs| && tx.inputs[i] != NULL_OUTPOINT
          && PaidKnown(outputs, pool, tx.inputs[i], sh))
  }

  /** A stored and a pending output under one outpoint are the same, so the order of the two lookups is immaterial. */
  lemma ResolveMeaning(naming: Naming, pool: Pool, outputs: map<OutPoint, Output>, o: OutPoint, sh: ScriptHash)
    requires OutputsNamed(naming, outputs) && TxsNamed(naming, pool)
    ensures Resolve(View(pool), pool, outputs, o) == Some(sh) <==> PaidKnown(outputs, pool, o, sh)
  {
    hide View, CachedOutput;
    CacheAgrees(pool, o);
  }

  lemma TouchedMeaning(naming: Naming, pool: Pool, outputs: map<OutPoint, Output>, tx: Tx, sh: ScriptHash)
    requires OutputsNamed(naming, outputs) && TxsNamed(naming, pool)
    ensures sh in Touched(View(pool), pool, outputs, tx) <==> Touches(outputs, pool, tx, sh)
  {
    hide View, Resolve, PaidKnown, OutputsNamed, TxsNamed;
    forall o ensures Resolve(View(pool), pool, outputs, o) == Some(sh) <==> PaidKnown(outputs, pool, o, sh) {
      ResolveMeaning(naming, pool, outputs, o, sh);
    }
    if i :| 0 <= i < |tx.inputs| && tx.inputs[i] != NULL_OUTPOINT && PaidKnown(outputs, pool, tx.inputs[i], sh) {
      assert tx.inputs[i] in Spends(tx);
    }
  }

  lemma TouchingMeaning(naming: Naming, pool: Pool, outputs: map<OutPoint, Output>, sh: ScriptHash, id: Txid)
    requires OutputsNamed(naming, outputs) && TxsNamed(naming, pool)
    ensures id in Touching(pool, outputs, sh) <==> id in pool && Touches(outputs, pool, pool[id], sh)
  {
    hide Touched, Touches;
    if id in pool {
      TouchedMeaning(naming, pool, outputs, pool[id], sh);
    }
  }

  /** The pending transactions that spend from a script hash or pay it are in its history and mempool answers. */
  lemma MoversTouch(naming: Naming, pool: Pool, outputs: map<OutPoint, Output>, sh: ScriptHash, o: OutPoint)
    requires OutputsNamed(naming, outputs) && TxsNamed(naming, pool)
    ensures o in Unclaimed(pool, sh) || o in Chained(pool, sh) ==> o.txid in Touching(pool, outputs, sh)
    ensures o in SpentFrom(pool, outputs, sh) ==>
      forall id | id in pool && o in Spends(pool[id]) :: id in Touching(pool, outputs, sh)
  {
    hide Touches, OutputsNamed, TxsNamed, Chained;
    UnclaimedPays(naming, pool, sh, o);
    if o.txid in pool && PaysScript(pool[o.txid], o, sh) {
      assert Touches(outputs, pool, pool[o.txid], sh) by { PayerTouches(outputs, pool, pool[o.txid], o.vout, sh); }
      TouchingMeaning(naming, pool, outputs, sh, o.txid);
    }
  }

  lemma PayerTouches(outputs: map<OutPoint, Output>, pool: Pool, tx: Tx, vout: nat, sh: ScriptHash)
    requires vout < |tx.outputs| && tx.outputs[vout].scriptHash == sh
    ensures Touches(outputs, pool, tx, sh)
  {
  }

  lemma UnclaimedPays(naming: Naming, pool: Pool, sh: ScriptHash, o: OutPoint)
    requires TxsNamed(naming, pool)
    ensures o in Unclaimed(pool, sh) || o in Chained(pool, sh) ==> o.txid in pool && PaysScript(pool[o.txid], o, sh)
  {
  }

  /** Some of these pending transactions touches the script hash. */
  ghost predicate SomeTouches(pool: Pool, outputs: map<OutPoint, Output>, ids: set<Txid>, sh: ScriptHash) {
    exists id :: id in ids && id in pool && Touches(outputs, pool, pool[id], sh)
  }

  lemma SomeMeaning(naming: Naming, pool: Pool, outputs: map<OutPoint, Output>, ids: set<Txid>, sh: ScriptHash)
    requires OutputsNamed(naming, outputs) && TxsNamed(naming, pool)
    ensures sh in TouchedBy(pool, outputs, ids) <==> SomeTouches(pool, outputs, ids, sh)
  {
    hide Touches, Touched, View, OutputsNamed, TxsNamed;
    forall id | id in pool
      ensures sh in Touched(View(pool), pool, outputs, pool[id]) <==> Touches(outputs, pool, pool[id], sh)
    {
      TouchedMeaning(naming, pool, outputs, pool[id], sh);
    }
  }

  /** An eviction of chains, in any order, announces exactly what a removed transaction touches. */
  lemma EvictedAnnounced(naming: Naming, pool: Pool, outputs: map<OutPoint, Output>, order: seq<Txid>, sh: ScriptHash)
    requires OutputsNamed(naming, outputs) && TxsNamed(naming, pool)
    ensures sh in EvictAffected(pool, outputs, order)
       <==> SomeTouches(pool, outputs, Chains(pool, Elements(order)), sh)
  {
    hide SomeTouches, Chains, EvictAffected, TouchedBy;
    EvictAffectedExact(pool, outputs, order);
    SomeMeaning(naming, pool, outputs, Chains(pool, Elements(order)), sh);
  }

  /** Tracking announces exactly what a displaced transaction touched or one that spends the new one touches now. */
  lemma TrackAnnounced(naming: Naming, pool: Pool, outputs: map<OutPoint, Output>, order: seq<Txid>, tx: Tx,
                       sh: ScriptHash)
    requires OutputsNamed(naming, outputs) && TxsNamed(naming, pool) && Named(naming, tx)
    requires Elements(order) == Conflicts(pool, tx)
    ensures var after := Pending.Track(pool, tx);
      sh in TrackAffected(pool, outputs, order, tx) <==>
        || SomeTouches(pool, outputs, Chains(pool, Conflicts(pool, tx)), sh)
        || SomeTouches(after, outputs, Descendants(after, tx.txid), sh)
  {
    hide SomeTouches, Chains, EvictAffected, TouchedBy, Conflicts, Elements, Descendants, Affected, OutputsNamed, View;
    EvictedAnnounced(naming, pool, outputs, order, sh);
    EvictAllChains(pool, order);
    var after := Pending.Track(pool, tx);
    SomeMeaning(naming, after, outputs, Descendants(after, tx.txid), sh);
    WalkExact(after, outputs, tx);
  }

  /** A walk over a pending transaction and its descendants finds what they touch. */
  lemma WalkExact(pool: Pool, outputs: map<OutPoint, Output>, tx: Tx)
    requires tx.txid in pool && pool[tx.txid] == tx
    ensures Affected(View(pool), pool, outputs, tx) == TouchedBy(pool, outputs, Descendants(pool, tx.txid))
  {
    hide Touched, View, Reaches;
    assert forall id | id in Descendants(pool, tx.txid) :: id in pool && At(pool, tx, id) == pool[id];
    forall sh
      ensures sh in Affected(View(pool), pool, outputs, tx)
         <==> sh in TouchedBy(pool, outputs, Descendants(pool, tx.txid))
    {
    }
  }

  // ---- What an unannounced change leaves alone --------------------------------------------

  /** Both pools have the same transactions of the script hash. */
  ghost predicate Alike(naming: Naming, p: Pool, q: Pool, ix: Index, sh: ScriptHash) {
    && Sound(naming, ix) && TxsNamed(naming, p) && TxsNamed(naming, q)
    && Touching(p, ix.outputs, sh) == Touching(q, ix.outputs, sh)
  }

  /** Whoever pays or spends from the script hash in one pool is in the other. */
  lemma TouchesAlike(naming: Naming, p: Pool, q: Pool, ix: Index, sh: ScriptHash, id: Txid)
    requires Alike(naming, p, q, ix, sh) && id in p && Touches(ix.outputs, p, p[id], sh)
    ensures id in q && SameBody(p[id], q[id]) && Spends(p[id]) == Spends(q[id])
  {
    hide Touching, Touches, Coupled;
    TouchingMeaning(naming, p, ix.outputs, sh, id);
  }

  lemma SpenderTouches(outputs: map<OutPoint, Output>, pool: Pool, id: Txid, o: OutPoint, sh: ScriptHash)
    requires id in pool && o in Spends(pool[id]) && PaidKnown(outputs, pool, o, sh)
    ensures Touches(outputs, pool, pool[id], sh)
  {
    var i :| 0 <= i < |pool[id].inputs| && pool[id].inputs[i] != NULL_OUTPOINT && pool[id].inputs[i] == o;
  }

  lemma SpentAlike(naming: Naming, p: Pool, q: Pool, ix: Index, sh: ScriptHash, o: OutPoint)
    requires Alike(naming, p, q, ix, sh) && o in SpentBy(p) && PaidKnown(ix.outputs, p, o, sh)
    ensures o in SpentBy(q)
  {
    hide Alike, PaidKnown, Touches, SameBody;
    var id :| id in p && o in Spends(p[id]);
    SpenderTouches(ix.outputs, p, id, o, sh);
    TouchesAlike(naming, p, q, ix, sh, id);
  }

  lemma PaidAlike(naming: Naming, p: Pool, q: Pool, ix: Index, sh: ScriptHash, o: OutPoint)
    requires Alike(naming, p, q, ix, sh) && PaidKnown(ix.outputs, p, o, sh)
    ensures PaidKnown(ix.outputs, q, o, sh) && ValueAt(p, ix.outputs, o) == ValueAt(q, ix.outputs, o)
    ensures o.txid in p && PaysScript(p[o.txid], o, sh) ==> PoolOutput(p, o) == PoolOutput(q, o)
  {
    hide Touching, Touches, Coupled;
    if o.txid in p && PaysScript(p[o.txid], o, sh) {
      PayerTouches(ix.outputs, p, p[o.txid], o.vout, sh);
      TouchesAlike(naming, p, q, ix, sh, o.txid);
    }
  }

  lemma SpentFromAlike(naming: Naming, p: Pool, q: Pool, ix: Index, sh: ScriptHash)
    requires Alike(naming, p, q, ix, sh)
    ensures SpentFrom(p, ix.outputs, sh) <= SpentFrom(q, ix.outputs, sh)
    ensures forall o | o in SpentFrom(p, ix.outputs, sh) ::
      ValueAt(p, ix.outputs, o) == ValueAt(q, ix.outputs, o)
  {
    hide PaidKnown, SpentBy, View, Resolve, Touching, ValueAt, Coupled;
    forall o | o in SpentFrom(p, ix.outputs, sh)
      ensures o in SpentFrom(q, ix.outputs, sh) && ValueAt(p, ix.outputs, o) == ValueAt(q, ix.outputs, o)
    {
      ResolveMeaning(naming, p, ix.outputs, o, sh);
      SpentAlike(naming, p, q, ix, sh, o);
      PaidAlike(naming, p, q, ix, sh, o);
      ResolveMeaning(naming, q, ix.outputs, o, sh);
    }
  }

  lemma UnclaimedAlike(naming: Naming, p: Pool, q: Pool, ix: Index, sh: ScriptHash)
    requires Alike(naming, p, q, ix, sh)
    ensures Unclaimed(p, sh) <= Unclaimed(q, sh)
    ensures forall o | o in Unclaimed(p, sh) :: PendingOf(p, o) == PendingOf(q, o)
  {
    hide SpentBy, Touching, Coupled;
    forall o | o in Unclaimed(p, sh)
      ensures o in Unclaimed(q, sh) && PendingOf(p, o) == PendingOf(q, o)
    {
      UnclaimedPays(naming, p, sh, o);
      PaidAlike(naming, p, q, ix, sh, o);
      if o in SpentBy(q) {
        SpentAlike(naming, q, p, ix, sh, o);
      }
    }
  }

  lemma FreeAlike(naming: Naming, p: Pool, q: Pool, ix: Index, sh: ScriptHash)
    requires Alike(naming, p, q, ix, sh)
    ensures FreeKeys(ix.utxos, p, sh) <= FreeKeys(ix.utxos, q, sh)
  {
    hide SpentBy, Touching;
    forall k | k in FreeKeys(ix.utxos, p, sh) ensures k.outpoint !in SpentBy(q) {
      if k.outpoint in SpentBy(q) {
        SpentAlike(naming, q, p, ix, sh, k.outpoint);
      }
    }
  }

  /** The same transactions of a script hash give it the same delta, spendable outputs and listings. */
  lemma BalancesAlike(naming: Naming, p: Pool, q: Pool, ix: Index, sh: ScriptHash)
    requires Alike(naming, p, q, ix, sh)
    ensures Delta(p, ix.outputs, sh) == Delta(q, ix.outputs, sh)
    ensures FreeKeys(ix.utxos, p, sh) == FreeKeys(ix.utxos, q, sh) && PendingUnspent(p, sh) == PendingUnspent(q, sh)
    ensures forall out :: IsUnspent(ix.utxos, ix.outputs, p, sh, out)
                     <==> IsUnspent(ix.utxos, ix.outputs, q, sh, out)
  {
    hide *;
    DeltaAlike(naming, p, q, ix, sh);
    ListingAlike(naming, p, q, ix, sh);
  }

  lemma AlikeBack(naming: Naming, p: Pool, q: Pool, ix: Index, sh: ScriptHash)
    requires Alike(naming, p, q, ix, sh)
    ensures Alike(naming, q, p, ix, sh)
  {
    hide Touching;
  }

  lemma DeltaAlike(naming: Naming, p: Pool, q: Pool, ix: Index, sh: ScriptHash)
    requires Alike(naming, p, q, ix, sh)
    ensures Delta(p, ix.outputs, sh) == Delta(q, ix.outputs, sh)
  {
    hide SpentFrom, Unclaimed, Sum, View, ValueAt, Alike, Wrap;
    AlikeBack(naming, p, q, ix, sh);
    SpentFromAlike(naming, p, q, ix, sh);
    SpentFromAlike(naming, q, p, ix, sh);
    UnclaimedAlike(naming, p, q, ix, sh);
    UnclaimedAlike(naming, q, p, ix, sh);
    SumEqual(SpentFrom(p, ix.outputs, sh), Signed(Paying(p, ix.outputs)), Signed(Paying(q, ix.outputs)));
    forall o | o in Unclaimed(p, sh) ensures Signed(InView(p))(o) == Signed(InView(q))(o) {
      assert PendingOf(p, o) == PendingOf(q, o);
    }
    SumEqual(Unclaimed(p, sh), Signed(InView(p)), Signed(InView(q)));
    assert SpentFrom(p, ix.outputs, sh) == SpentFrom(q, ix.outputs, sh) && Unclaimed(p, sh) == Unclaimed(q, sh);
  }

  lemma ListingAlike(naming: Naming, p: Pool, q: Pool, ix: Index, sh: ScriptHash)
    requires Alike(naming, p, q, ix, sh)
    ensures FreeKeys(ix.utxos, p, sh) == FreeKeys(ix.utxos, q, sh) && PendingUnspent(p, sh) == PendingUnspent(q, sh)
    ensures forall out :: IsUnspent(ix.utxos, ix.outputs, p, sh, out)
                     <==> IsUnspent(ix.utxos, ix.outputs, q, sh, out)
  {
    hide Unclaimed, FreeKeys, PendingOf, UnspentOf, Dedup, Alike, Sorted;
    AlikeBack(naming, p, q, ix, sh);
    UnclaimedAlike(naming, p, q, ix, sh);
    UnclaimedAlike(naming, q, p, ix, sh);
    FreeAlike(naming, p, q, ix, sh);
    FreeAlike(naming, q, p, ix, sh);
    assert PendingUnspent(p, sh) == PendingUnspent(q, sh);
    assert ConfirmedUnspent(ix.utxos, ix.outputs, p, sh) == ConfirmedUnspent(ix.utxos, ix.outputs, q, sh);
  }

  lemma EntriesTouching(p: Pool, q: Pool, outputs: map<OutPoint, Output>, sh: ScriptHash)
    requires Entries(p, outputs, sh) == Entries(q, outputs, sh)
    ensures Touching(p, outputs, sh) == Touching(q, outputs, sh)
  {
    hide Touching, MempoolHeight;
    forall id ensures id in Touching(p, outputs, sh) <==> id in Touching(q, outputs, sh) {
      if id in Touching(p, outputs, sh) {
        assert (id, MempoolHeight(outputs, p[id])) in Entries(q, outputs, sh);
      }
      if id in Touching(q, outputs, sh) {
        assert (id, MempoolHeight(outputs, q[id])) in Entries(p, outputs, sh);
      }
    }
  }

  /** A pending change announces every script hash whose balance, delta or listing it changes. */
  lemma BalancesQuiet(naming: Naming, st: State, e: Event, order: seq<Txid>, sh: ScriptHash)
    requires Consistent(naming, st) && EventNamed(naming, e) && IsPendingEvent(e) && InOrder(st, e, order)
    requires Announced(st, e, order).Some? ==> sh !in Announced(st, e, order).value
    ensures var st', ix := Model.Next(st, e), st.ix;
      && st'.ix == ix
      && Delta(st.pool, ix.outputs, sh) == Delta(st'.pool, ix.outputs, sh)
      && FreeKeys(ix.utxos, st.pool, sh) == FreeKeys(ix.utxos, st'.pool, sh)
      && PendingUnspent(st.pool, sh) == PendingUnspent(st'.pool, sh)
      && forall out :: IsUnspent(ix.utxos, ix.outputs, st.pool, sh, out)
                  <==> IsUnspent(ix.utxos, ix.outputs, st'.pool, sh, out)
  {
    hide *;
    PendingQuiet(naming, st, e, order, sh);
    NextConsistent(naming, st, e);
    var st' := Model.Next(st, e);
    EntriesTouching(st.pool, st'.pool, st.ix.outputs, sh);
    BothAlike(naming, st, st', sh);
    BalancesAlike(naming, st.pool, st'.pool, st.ix, sh);
  }

  lemma BothAlike(naming: Naming, st: State, st': State, sh: ScriptHash)
    requires Consistent(naming, st) && Consistent(naming, st') && st.ix == st'.ix
    requires Touching(st.pool, st.ix.outputs, sh) == Touching(st'.pool, st.ix.outputs, sh)
    ensures Alike(naming, st.pool, st'.pool, st.ix, sh)
  {
    hide Touching;
  }
}
