/** The unspent listing of a script hash: its order, what deduplication keeps, and what is listed after a run. */
module Listings {
  import opened Answers
  import opened Chain
  import opened Chronicle
  import opened Confirmed
  import opened Model
  import opened Pending
  import opened Queries
  import opened Sorting
  import Announce
  import Reorg

  // ---- Order and deduplication ------------------------------------------------------------

  predicate Before(u: Unspent, v: Unspent) {
    || u.height < v.height
    || (u.height == v.height
        && (u.outpoint.txid < v.outpoint.txid
            || (u.outpoint.txid == v.outpoint.txid && u.outpoint.vout < v.outpoint.vout)))
  }

  predicate NotAfter(u: Unspent, v: Unspent) {
    Before(u, v) || (u.height == v.height && u.outpoint == v.outpoint)
  }

  /** By height, then txid, then output index, and no outpoint twice at one height or in a row. */
  ghost predicate InListingOrder(us: seq<Unspent>) {
    && (forall i, j | 0 <= i < j < |us| :: Before(us[i], us[j]))
    && (forall i | 0 < i < |us| :: us[i - 1].outpoint != us[i].outpoint)
  }

  /** The list has an entry of the same outpoint, at most as high. */
  ghost predicate Stands(kept: seq<Unspent>, u: Unspent) {
    exists v :: v in kept && v.outpoint == u.outpoint && v.height <= u.height
  }

  /** Everything kept was there, and everything there has an entry that stands for it. */
  ghost predicate Keeps(us: seq<Unspent>, kept: seq<Unspent>) {
    (forall u | u in kept :: u in us) && (forall u | u in us :: Stands(kept, u))
  }

  lemma {:induction false} DedupOrder(us: seq<Unspent>)
    requires Sorted(us, UnspentKey)
    ensures InListingOrder(Dedup(us)) && Keeps(us, Dedup(us)) && (us != [] ==> Dedup(us) != [])
  {
    hide InListingOrder, Keeps;
    if |us| < 2 {
      FewKept(us);
    } else {
      var rest, last := us[..|us| - 1], us[|us| - 1];
      var kept := Dedup(rest);
      assert us == rest + [last];
      SortedInit(rest, last);
      DedupOrder(rest);
      OneKept(rest, kept, last);
    }
  }

  lemma FewKept(us: seq<Unspent>)
    requires |us| < 2
    ensures InListingOrder(us) && Keeps(us, us)
  {
  }

  lemma SortedInit(rest: seq<Unspent>, last: Unspent)
    requires Sorted(rest + [last], UnspentKey)
    ensures Sorted(rest, UnspentKey) && forall u | u in rest :: NotAfter(u, last)
  {
    var us := rest + [last];
    assert forall i | 0 <= i < |rest| :: us[i] == rest[i];
    assert us[|rest|] == last;
    assert forall i | 0 <= i < |rest| :: Le(UnspentKey(us[i]), UnspentKey(us[|rest|]));
  }

  /** One more entry, not before the others, is kept unless it repeats the last outpoint. */
  lemma OneKept(rest: seq<Unspent>, kept: seq<Unspent>, last: Unspent)
    requires kept != [] && InListingOrder(kept) && Keeps(rest, kept)
    requires forall u | u in rest :: NotAfter(u, last)
    ensures var more := if kept[|kept| - 1].outpoint == last.outpoint then kept else kept + [last];
      InListingOrder(more) && Keeps(rest + [last], more)
  {
    hide InListingOrder, Keeps, NotAfter;
    var v := kept[|kept| - 1];
    assert v in rest by { LastThere(rest, kept); }
    if v.outpoint == last.outpoint {
      Repeated(rest, kept, last);
    } else {
      OrderMore(kept, last);
      StandsMore(rest, kept, last);
    }
  }

  lemma LastThere(rest: seq<Unspent>, kept: seq<Unspent>)
    requires kept != [] && Keeps(rest, kept)
    ensures kept[|kept| - 1] in rest
  {
    assert kept[|kept| - 1] in kept;
  }

  lemma Repeated(rest: seq<Unspent>, kept: seq<Unspent>, last: Unspent)
    requires kept != [] && Keeps(rest, kept)
    requires NotAfter(kept[|kept| - 1], last) && kept[|kept| - 1].outpoint == last.outpoint
    ensures Keeps(rest + [last], kept)
  {
    hide Stands;
    assert Stands(kept, last) by { StandsItself(kept, kept[|kept| - 1], last); }
  }

  lemma StandsItself(kept: seq<Unspent>, v: Unspent, u: Unspent)
    requires v in kept && v.outpoint == u.outpoint && NotAfter(v, u)
    ensures Stands(kept, u)
  {
  }

  lemma OrderMore(kept: seq<Unspent>, last: Unspent)
    requires kept != [] && InListingOrder(kept) && NotAfter(kept[|kept| - 1], last)
    requires kept[|kept| - 1].outpoint != last.outpoint
    ensures InListingOrder(kept + [last])
  {
    hide Before;
    var n := |kept| - 1;
    forall i | 0 <= i < n ensures Before(kept[i], last) {
      BeforeTransitive(kept[i], kept[n], last);
    }
  }

  lemma BeforeTransitive(u: Unspent, v: Unspent, w: Unspent)
    requires Before(u, v) && Before(v, w)
    ensures Before(u, w)
  {
  }

  lemma StandsMore(rest: seq<Unspent>, kept: seq<Unspent>, last: Unspent)
    requires Keeps(rest, kept)
    ensures Keeps(rest + [last], kept + [last])
  {
    forall u | u in rest + [last] ensures Stands(kept + [last], u) {
      if u in rest {
        var v :| v in kept && v.outpoint == u.outpoint && v.height <= u.height;
        assert v in kept + [last];
      } else {
        assert last in kept + [last];
      }
    }
  }

  // ---- What is listed after a run ---------------------------------------------------------

  /** A confirmed output of the script hash, at its height, that nothing confirmed or pending spends. */
  ghost predicate ConfirmedEntry(ps: seq<Placed>, pool: Pool, sh: ScriptHash, u: Unspent) {
    && UnspentIn(ps, u.outpoint, TxOut(sh, u.value))
    && CreatedIn(ps, u.outpoint, Output(sh, u.value, u.height))
    && forall id | id in pool :: u.outpoint !in Spends(pool[id])
  }

  /** An output of a pending transaction to the script hash that no pending transaction spends. */
  ghost predicate PendingEntry(pool: Pool, sh: ScriptHash, u: Unspent) {
    && u.height == 0 && u.outpoint.txid in pool && Pays(pool[u.outpoint.txid], u.outpoint, TxOut(sh, u.value))
    && forall id | id in pool :: u.outpoint !in Spends(pool[id])
  }

  lemma ConfirmedMeaning(ps: seq<Placed>, st: State, sh: ScriptHash, u: Unspent)
    requires Chronicled(ps, st.ix)
    ensures u in ConfirmedUnspent(st.ix.utxos, st.ix.outputs, st.pool, sh) <==> ConfirmedEntry(ps, st.pool, sh, u)
  {
    hide UnspentIn, CreatedIn, SaysKeys, Spends;
    var k := UtxoKey(sh, u.outpoint);
    assert k in st.ix.utxos && st.ix.utxos[k] == u.value <==> UnspentIn(ps, k.outpoint, TxOut(k.scriptHash, u.value));
    assert u.outpoint in st.ix.outputs && st.ix.outputs[u.outpoint] == Output(sh, u.value, u.height)
      <==> CreatedIn(ps, u.outpoint, Output(sh, u.value, u.height));
    assert u in ConfirmedUnspent(st.ix.utxos, st.ix.outputs, st.pool, sh)
      <==> k in FreeKeys(st.ix.utxos, st.pool, sh) && u == UnspentOf(st.ix.utxos, st.ix.outputs, k);
    if k in st.ix.utxos {
      UnspentCreatedAt(ps, st.ix, k);
    }
  }

  lemma UnspentCreatedAt(ps: seq<Placed>, ix: Index, k: UtxoKey)
    requires Chronicled(ps, ix) && k in ix.utxos
    ensures k.outpoint in ix.outputs
    ensures ix.outputs[k.outpoint] == Output(k.scriptHash, ix.utxos[k], ix.outputs[k.outpoint].height)
  {
    assert UnspentIn(ps, k.outpoint, TxOut(k.scriptHash, ix.utxos[k]));
    var n :| 0 <= n < |ps| && Pays(ps[n].tx, k.outpoint, TxOut(k.scriptHash, ix.utxos[k]));
    assert CreatedIn(ps, k.outpoint, Output(k.scriptHash, ix.utxos[k], ps[n].height));
  }

  lemma PendingMeaning(pool: Pool, sh: ScriptHash, u: Unspent)
    requires Keyed(pool)
    ensures u in PendingUnspent(pool, sh) <==> PendingEntry(pool, sh, u)
  {
    hide Spends;
    assert u in PendingUnspent(pool, sh) <==> u.outpoint in Unclaimed(pool, sh) && u == PendingOf(pool, u.outpoint);
  }

  /**
   * After any stack-ordered run the listing is in order; it holds confirmed and pending outputs as above and
   * nothing else; and of every such output it holds at least one entry, at most as high.
   */
  lemma ListingMeaning(naming: Naming, base: nat, events: seq<Event>, sh: ScriptHash, out: seq<Unspent>)
    requires Reorg.StackOrdered(naming, base, BlockEvents(events))
    requires forall e | e in events :: Announce.EventNamed(naming, e)
    requires var st := Model.Run(events); IsUnspent(st.ix.utxos, st.ix.outputs, st.pool, sh, out)
    ensures InListingOrder(out)
    ensures var st, ps := Model.Run(events), ChainPlaced(base, Reorg.Survivors(BlockEvents(events)));
      && (forall u | u in out :: ConfirmedEntry(ps, st.pool, sh, u) || PendingEntry(st.pool, sh, u))
      && (forall u | ConfirmedEntry(ps, st.pool, sh, u) || PendingEntry(st.pool, sh, u) ::
            Stands(out, u))
      && (Disjoint(st.pool, st.ix.outputs) ==>
            forall u | ConfirmedEntry(ps, st.pool, sh, u) || PendingEntry(st.pool, sh, u) :: u in out)
  {
    hide *;
    RunMeaning(naming, base, events);
    ListedMeaning(naming, ChainPlaced(base, Reorg.Survivors(BlockEvents(events))), Model.Run(events), sh, out);
  }

  lemma ListedMeaning(naming: Naming, ps: seq<Placed>, st: State, sh: ScriptHash, out: seq<Unspent>)
    requires Announce.Consistent(naming, st) && Chronicled(ps, st.ix)
    requires IsUnspent(st.ix.utxos, st.ix.outputs, st.pool, sh, out)
    ensures InListingOrder(out)
    ensures forall u | u in out :: ConfirmedEntry(ps, st.pool, sh, u) || PendingEntry(st.pool, sh, u)
    ensures forall u | ConfirmedEntry(ps, st.pool, sh, u) || PendingEntry(st.pool, sh, u) ::
      Stands(out, u)
    ensures Disjoint(st.pool, st.ix.outputs) ==>
      forall u | ConfirmedEntry(ps, st.pool, sh, u) || PendingEntry(st.pool, sh, u) :: u in out
  {
    hide Sorted, Dedup, ConfirmedUnspent, PendingUnspent, ConfirmedEntry, PendingEntry, InListingOrder, Disjoint, Keeps,
         Stands, Chronicled, Coupled, OutputsNamed;
    var a, b := ConfirmedUnspent(st.ix.utxos, st.ix.outputs, st.pool, sh), PendingUnspent(st.pool, sh);
    var us :| Sorted(us, UnspentKey) && multiset(us) == multiset(a) + multiset(b) && out == Dedup(us);
    DedupOrder(us);
    forall u ensures u in us <==> ConfirmedEntry(ps, st.pool, sh, u) || PendingEntry(st.pool, sh, u) {
      assert u in us <==> u in multiset(us);
      ConfirmedMeaning(ps, st, sh, u);
      PendingMeaning(st.pool, sh, u);
    }
    KeptMeaning(us, out);
    if Disjoint(st.pool, st.ix.outputs) {
      EntriesApart(st.ix.outputs, st.ix.utxos, st.pool, sh);
      forall u | u in us ensures u in out {
        var v := Standing(out, u);
        assert u in multiset(us) && v in multiset(us);
      }
    }
  }

  lemma KeptMeaning(us: seq<Unspent>, kept: seq<Unspent>)
    requires Keeps(us, kept)
    ensures (forall u | u in kept :: u in us) && (forall u | u in us :: Stands(kept, u))
  {
  }

  lemma Standing(kept: seq<Unspent>, u: Unspent) returns (v: Unspent)
    requires Stands(kept, u)
    ensures v in kept && v.outpoint == u.outpoint
  {
    v :| v in kept && v.outpoint == u.outpoint;
  }
}
