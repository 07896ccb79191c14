/** The per-client side of the server: status text, transaction-status events and notifications. */
module Electrum {
  import opened Announce
  import opened Chain
  import opened Fanout
  import opened Indexer
  import opened Model
  import opened Pending
  import opened Queries
  import opened Status
  import opened Statuses
  import opened Subscriptions

  /** Builds the text entry by entry and hashes it. */
  method ComputeStatusHash(hash: Digest, history: seq<TxEntry>, mempool: seq<MempoolEntry>)
    returns (status: Option<string>)
    ensures status == StatusHash(hash, history, MempoolPairs(mempool))
  {
    hide EntryText;
    if history == [] && mempool == [] {
      return None;
    }
    var data := "";
    var h, m := HistoryPairs(history), MempoolPairs(mempool);
    for i := 0 to |history|
      invariant data == Text(h[..i])
    {
      AppendEntry(h, i);
      data := data + EntryText((history[i].txid, history[i].height));
    }
    assert h[..|history|] == h + m[..0];
    for i := 0 to |mempool|
      invariant data == Text(h + m[..i])
    {
      AppendEntry(h + m, |h| + i);
      assert (h + m)[..|h| + i] == h + m[..i] && (h + m)[..|h| + i + 1] == h + m[..i + 1];
      data := data + EntryText((mempool[i].txid, mempool[i].height));
    }
    assert m[..|mempool|] == m;
    status := Some(hash(data));
  }

  lemma AppendEntry(es: seq<Entry>, i: nat)
    requires i < |es|
    ensures Text(es[..i + 1]) == Text(es[..i]) + EntryText(es[i])
  {
    hide Text, EntryText;
    TextSnoc(es[..i], es[i]);
    assert es[..i + 1] == es[..i] + [es[i]];
  }

  method ScriptStatus(index: IndexState, hash: Digest, sh: ScriptHash) returns (status: Option<string>)
    requires index.Valid()
    ensures Current(hash, index.State(), sh, status)
  {
    var history := index.GetHistory(sh);
    var mempool := index.Mempool(sh);
    status := ComputeStatusHash(hash, history, mempool);
    assert HistoryNow(index.State(), sh, history);
    MempoolPairsNow(index.State(), sh, mempool);
  }

  // ---- Transaction-status events ------------------------------------------------------------

  datatype TxStatusKind = Reverted | Confirmed | Stale | Acknowledged | Other

  predicate StartsWith(s: string, prefix: string) {
    prefix <= s
  }

  function ClassifyTxStatus(status: string): TxStatusKind {
    if status == "transaction has been reverted" then Reverted
    else if StartsWith(status, "transaction was included in block ") then Confirmed
    else if StartsWith(status, "transaction was replaced by ") then Stale
    else if StartsWith(status, "transaction was acknowledged by peer ") then Acknowledged
    else Other
  }

  /** The pool event a status stands for. */
  function EventFor(kind: TxStatusKind, txid: Txid): Option<Event> {
    match kind
    case Reverted => Some(Restored(txid))
    case Confirmed => Some(Forgotten(txid))
    case Stale => Some(ChainForgotten(txid))
    case Acknowledged => None
    case Other => None
  }

  ghost function AfterStatus(st: State, status: string, id: Txid): State {
    match EventFor(ClassifyTxStatus(status), id)
    case Some(e) => Model.Next(st, e)
    case None => st
  }

  /** What a status text does to the pending transactions. */
  ghost predicate PoolAfterStatus(status: string, id: Txid, txs: map<Txid, Tx>, pool: Pool, pool': Pool) {
    if StartsWith(status, "transaction was included in block ") then pool' == pool - {id}
    else if StartsWith(status, "transaction was replaced by ") then
      && (forall x | x in pool' :: x in pool && pool'[x] == pool[x])
      && (forall x | x in pool :: x in pool' <==> !(id in pool && Reaches(pool, id, x)))
    else if status == "transaction has been reverted" && id in txs then
      && id in pool' && pool'[id] == txs[id]
      && (forall x | x in pool' && x != id :: x in pool && pool'[x] == pool[x])
      && (forall x | x in pool && x != id :: x in pool' <==> !Displaced(pool, txs[id], x))
    else pool' == pool
  }

  /**
   * Inclusion removes the one transaction, replacement removes it with all that spend it directly or indirectly,
   * a reversal brings the stored transaction back in place of what it displaces, and no other text does anything.
   */
  lemma StatusMeaning(st: State, status: string, id: Txid)
    requires TxsKeyed(st.txs)
    ensures var st' := AfterStatus(st, status, id);
      && st'.ix == st.ix
      && PoolAfterStatus(status, id, st.txs, st.pool, st'.pool)
      && (StartsWith(status, "transaction was replaced by ") && id in st.pool ==>
            forall x | x in st'.pool :: x != id && Parents(st'.pool[x]) * (st.pool.Keys - st'.pool.Keys) == {})
  {
    hide ClassifyTxStatus, Unlist, List, Reaches, Parents, Displaced, Model.Track;
    ClassifiedByPrefix(status);
    match ClassifyTxStatus(status)
    case Reverted => if id in st.txs { RevertedPool(st, id); }
    case Stale => ReplacedPool(st, id);
    case _ =>
  }

  lemma RevertedPool(st: State, id: Txid)
    requires TxsKeyed(st.txs) && id in st.txs
    ensures var tx, st' := st.txs[id], Model.Track(st, st.txs[id]);
      && st'.ix == st.ix
      && id in st'.pool && st'.pool[id] == tx
      && (forall x | x in st'.pool && x != id :: x in st.pool && st'.pool[x] == st.pool[x])
      && (forall x | x in st.pool && x != id :: x in st'.pool <==> !Displaced(st.pool, tx, x))
  {
    hide Unlist, List, Displaced, Conflicts, Chains;
    forall x
      ensures x != id && x in Pending.Track(st.pool, st.txs[id]) ==>
        x in st.pool && Pending.Track(st.pool, st.txs[id])[x] == st.pool[x]
      ensures x != id && x in st.pool ==>
        (x in Pending.Track(st.pool, st.txs[id]) <==> !Displaced(st.pool, st.txs[id], x))
    {
      TrackMeaning(st.pool, st.txs[id], x);
    }
  }

  lemma ReplacedPool(st: State, id: Txid)
    ensures var st' := Model.Next(st, ChainForgotten(id));
      && st'.ix == st.ix
      && (forall x | x in st'.pool :: x in st.pool && st'.pool[x] == st.pool[x])
      && (forall x | x in st.pool :: x in st'.pool <==> !(id in st.pool && Reaches(st.pool, id, x)))
      && (id in st.pool ==>
            forall x | x in st'.pool :: x != id && Parents(st'.pool[x]) * (st.pool.Keys - st'.pool.Keys) == {})
  {
    hide Unlist, Reaches, Parents;
    var st' := Model.Next(st, ChainForgotten(id));
    if id in st.pool {
      forall x | x in st'.pool
        ensures x != id && Parents(st'.pool[x]) * (st.pool.Keys - st'.pool.Keys) == {}
      {
        EvictLeavesNoOrphan(st.pool, id, x);
      }
    }
  }

  /** The index makes the step of the model, and exactly what it announces is broadcast, at most once. */
  method ApplyTxStatusKind(index: IndexState, changes: Bus<set<ScriptHash>>, txid: Txid, kind: TxStatusKind)
    returns (ghost order: seq<Txid>)
    requires index.Valid()
    modifies index`pendingTxs, index`pendingOutputs, index.store`pendingTxids, index.store`txs, changes
    ensures index.Valid()
    ensures match EventFor(kind, txid)
      case None => index.State() == old(index.State()) && changes.subs == old(changes.subs)
      case Some(e) =>
        && index.State() == Model.Next(old(index.State()), e)
        && InOrder(old(index.State()), e, order)
        && changes.subs == match Announced(old(index.State()), e, order)
             case Some(told) => Delivered(old(changes.subs), told)
             case None => old(changes.subs)
    ensures index.pendingTxs == match kind
      case Confirmed => old(index.pendingTxs) - {txid}
      case Stale =>
        if txid in old(index.pendingTxs) then Evict(old(index.pendingTxs), txid) else old(index.pendingTxs)
      case Reverted =>
        if txid in old(index.store.txs) then Pending.Track(old(index.pendingTxs), old(index.store.txs)[txid])
        else old(index.pendingTxs)
      case _ => old(index.pendingTxs)
  {
    var affected: Option<set<ScriptHash>> := None;
    order := [];
    match kind {
      case Reverted => affected, order := index.Restore(txid);
      case Confirmed => affected := index.Forget(txid);
      case Stale => affected := index.ForgetChain(txid);
      case Acknowledged =>
      case Other =>
    }
    if affected.Some? {
      changes.Broadcast(affected.value);
    }
  }

  /** The tests of the prefixes exclude each other, so their order does not matter. */
  lemma ClassifiedByPrefix(status: string)
    ensures var kind := ClassifyTxStatus(status);
      && (kind == Reverted <==> status == "transaction has been reverted")
      && (kind == Confirmed <==> StartsWith(status, "transaction was included in block "))
      && (kind == Stale <==> StartsWith(status, "transaction was replaced by "))
      && (kind == Acknowledged <==> StartsWith(status, "transaction was acknowledged by peer "))
  {
    var reverted, included := "transaction has been reverted", "transaction was included in block ";
    var replaced, acknowledged := "transaction was replaced by ", "transaction was acknowledged by peer ";
    assert reverted[12] == 'h' && included[12] == 'w' && replaced[12] == 'w' && acknowledged[12] == 'w';
    assert included[16] == 'i' && replaced[16] == 'r' && acknowledged[16] == 'a';
  }

  /**
   * A status event with a malformed txid changes nothing; any other is classified and applied, which leaves
   * the pool as its text says, and what is announced is broadcast.
   */
  method ApplyTxStatusChange(index: IndexState, changes: Bus<set<ScriptHash>>, txid: Option<Txid>, status: string)
    returns (r: Result<()>, ghost order: seq<Txid>)
    requires index.Valid()
    modifies index`pendingTxs, index`pendingOutputs, index.store`pendingTxids, index.store`txs, changes
    ensures index.Valid() && (r.Ok? <==> txid.Some?)
    ensures if txid.None? then index.pendingTxs == old(index.pendingTxs) else
      PoolAfterStatus(status, txid.value, old(index.store.txs), old(index.pendingTxs), index.pendingTxs)
    ensures index.Ix() == old(index.Ix())
    ensures txid.None? || EventFor(ClassifyTxStatus(status), txid.value).None? ==>
      index.State() == old(index.State()) && changes.subs == old(changes.subs)
    ensures txid.Some? && EventFor(ClassifyTxStatus(status), txid.value).Some? ==>
      var e := EventFor(ClassifyTxStatus(status), txid.value).value;
      && index.State() == Model.Next(old(index.State()), e)
      && InOrder(old(index.State()), e, order)
      && changes.subs == match Announced(old(index.State()), e, order)
           case Some(told) => Delivered(old(changes.subs), told)
           case None => old(changes.subs)
  {
    order := [];
    if txid.None? {
      return Err("invalid txid in tx status event"), order;
    }
    hide PoolAfterStatus, ClassifyTxStatus, Model.Next, Reaches, View;
    ghost var st := index.State();
    order := ApplyTxStatusKind(index, changes, txid.value, ClassifyTxStatus(status));
    assert index.State() == AfterStatus(st, status, txid.value);
    StatusMeaning(st, status, txid.value);
    r := Ok(());
  }

  /** A transaction that the peer network accepted is tracked and announced. */
  method TransactionBroadcast(index: IndexState, changes: Bus<set<ScriptHash>>, tx: Tx, accepted: bool)
    returns (r: Result<Txid>, ghost order: seq<Txid>)
    requires index.Valid()
    modifies index`pendingTxs, index`pendingOutputs, index.store`pendingTxids, index.store`txs, changes
    ensures index.Valid() && (r.Ok? <==> accepted) && (r.Ok? ==> r.value == tx.txid)
    ensures !accepted ==> index.State() == old(index.State()) && changes.subs == old(changes.subs)
    ensures accepted ==>
      && index.State() == Model.Next(old(index.State()), Tracked(tx))
      && index.pendingTxs == Pending.Track(old(index.pendingTxs), tx)
      && index.store.txs == old(index.store.txs)[tx.txid := tx]
      && InOrder(old(index.State()), Tracked(tx), order)
      && Announced(old(index.State()), Tracked(tx), order).Some?
      && changes.subs == Delivered(old(changes.subs), Announced(old(index.State()), Tracked(tx), order).value)
  {
    order := [];
    if !accepted {
      return Err("broadcast failed"), order;
    }
    var affected;
    affected, order := index.TrackInternal(tx);
    changes.Broadcast(affected);
    r := Ok(tx.txid);
  }

  // ---- The state of one connection ----------------------------------------------------------

  /** What has to be sent: for each of the script hashes whose status moved, in order, the new status. */
  function Changes(subs: seq<ScriptHash>, before: map<ScriptHash, Option<string>>,
                   after: map<ScriptHash, Option<string>>): seq<(ScriptHash, Option<string>)>
  {
    if subs == [] then []
    else
      var rest, sh := Changes(subs[..|subs| - 1], before, after), subs[|subs| - 1];
      if LastRecorded(before, sh) == LastRecorded(after, sh) then rest else rest + [(sh, LastRecorded(after, sh))]
  }

  /** The first comes before the second among the subscriptions. */
  ghost predicate Earlier(subs: seq<ScriptHash>, a: ScriptHash, b: ScriptHash) {
    exists k, l :: 0 <= k < l < |subs| && subs[k] == a && subs[l] == b
  }

  lemma EarlierSnoc(subs: seq<ScriptHash>, sh: ScriptHash, a: ScriptHash)
    ensures a in subs ==> Earlier(subs + [sh], a, sh)
    ensures forall b | Earlier(subs, a, b) :: Earlier(subs + [sh], a, b)
  {
    var more := subs + [sh];
    if a in subs {
      var k :| 0 <= k < |subs| && subs[k] == a;
      assert more[k] == a && more[|subs|] == sh;
    }
    forall b | Earlier(subs, a, b) ensures Earlier(more, a, b) {
      var k, l :| 0 <= k < l < |subs| && subs[k] == a && subs[l] == b;
      assert more[k] == a && more[l] == b;
    }
  }

  /** Script hash and new status of each one whose status moved, and nothing else, in the order of the subscriptions. */
  lemma {:induction false} ChangesMeaning(subs: seq<ScriptHash>, before: map<ScriptHash, Option<string>>,
                                          after: map<ScriptHash, Option<string>>)
    ensures var changed := Changes(subs, before, after);
      && (forall c :: c in changed <==>
            c.0 in subs && LastRecorded(before, c.0) != LastRecorded(after, c.0) && c.1 == LastRecorded(after, c.0))
      && forall i, j | 0 <= i < j < |changed| :: Earlier(subs, changed[i].0, changed[j].0)
  {
    hide Earlier, LastRecorded;
    if subs != [] {
      var rest, sh := subs[..|subs| - 1], subs[|subs| - 1];
      ChangesMeaning(rest, before, after);
      var some, changed := Changes(rest, before, after), Changes(subs, before, after);
      assert subs == rest + [sh];
      forall i, j | 0 <= i < j < |changed| ensures Earlier(subs, changed[i].0, changed[j].0) {
        EarlierSnoc(rest, sh, changed[i].0);
        assert some[i] in some;
      }
    }
  }

  predicate Distinct(subs: seq<ScriptHash>) {
    forall i, j | 0 <= i < j < |subs| :: subs[i] != subs[j]
  }

  class ClientState {
    var subscribed: seq<ScriptHash>
    var statuses: map<ScriptHash, Option<string>>

    constructor ()
      ensures subscribed == [] && statuses == map[]
    {
      subscribed, statuses := [], map[];
    }

    method ScripthashSubscribe(index: IndexState, hash: Digest, sh: ScriptHash)
      returns (status: Option<string>)
      requires index.Valid() && Distinct(subscribed)
      modifies this
      ensures subscribed == (if sh in old(subscribed) then old(subscribed) else old(subscribed) + [sh])
      ensures Distinct(subscribed)
      ensures statuses == old(statuses)[sh := status] && Current(hash, index.State(), sh, status)
    {
      if sh !in subscribed {
        subscribed := subscribed + [sh];
      }
      status := ScriptStatus(index, hash, sh);
      statuses := statuses[sh := status];
    }

    /**
     * One notification: after a block event every subscribed script hash is looked up again, after a
     * pending change only the affected ones. Returns what is sent to the client.
     */
    method Notify(index: IndexState, hash: Digest, affected: Option<set<ScriptHash>>)
      returns (changed: seq<(ScriptHash, Option<string>)>)
      requires index.Valid() && Distinct(subscribed)
      modifies this`statuses
      ensures statuses.Keys == old(statuses).Keys + Selected(subscribed, affected)
      ensures forall sh | sh in Selected(subscribed, affected) :: Current(hash, index.State(), sh, statuses[sh])
      ensures forall sh | sh in old(statuses) && sh !in Selected(subscribed, affected) ::
        statuses[sh] == old(statuses)[sh]
      ensures changed == Changes(subscribed, old(statuses), statuses)
    {
      hide *;
      changed := [];
      ghost var was, st := statuses, index.State();
      NoneRefreshed(st, hash, affected, was);
      for i := 0 to |subscribed|
        invariant index.Valid() && index.State() == st
        invariant Refreshed(st, hash, subscribed[..i], affected, was, statuses)
        invariant changed == Changes(subscribed[..i], was, statuses)
      {
        var sh := subscribed[i];
        ghost var done, before := subscribed[..i], statuses;
        NotYet(subscribed, i);
        if affected.None? || sh in affected.value {
          var status := ScriptStatus(index, hash, sh);
          var last := LastRecorded(statuses, sh);
          statuses := statuses[sh := status];
          if last != status {
            changed := changed + [(sh, status)];
          }
          OneRefreshed(st, hash, done, affected, was, before, sh, status);
        } else {
          OneSkipped(st, hash, done, affected, was, before, sh);
        }
      }
      assert subscribed[..|subscribed|] == subscribed;
      AllRefreshed(st, hash, subscribed, affected, was, statuses);
    }
  }

  function Selected(subs: seq<ScriptHash>, affected: Option<set<ScriptHash>>): set<ScriptHash> {
    set sh | sh in subs && (affected.None? || sh in affected.value)
  }

  ghost predicate Refreshed(st: State, hash: Digest, subs: seq<ScriptHash>,
                            affected: Option<set<ScriptHash>>, before: map<ScriptHash, Option<string>>,
                            after: map<ScriptHash, Option<string>>)
  {
    && after.Keys == before.Keys + Selected(subs, affected)
    && (forall sh | sh in Selected(subs, affected) :: Current(hash, st, sh, after[sh]))
    && (forall sh | sh in before && sh !in Selected(subs, affected) :: after[sh] == before[sh])
  }

  lemma NoneRefreshed(st: State, hash: Digest, affected: Option<set<ScriptHash>>,
                      was: map<ScriptHash, Option<string>>)
    ensures Refreshed(st, hash, [], affected, was, was) && Changes([], was, was) == []
  {
    hide Current;
  }

  lemma AllRefreshed(st: State, hash: Digest, subs: seq<ScriptHash>, affected: Option<set<ScriptHash>>,
                     was: map<ScriptHash, Option<string>>, now: map<ScriptHash, Option<string>>)
    requires Refreshed(st, hash, subs, affected, was, now)
    ensures now.Keys == was.Keys + Selected(subs, affected)
    ensures forall sh | sh in Selected(subs, affected) :: Current(hash, st, sh, now[sh])
    ensures forall sh | sh in was && sh !in Selected(subs, affected) :: now[sh] == was[sh]
  {
    hide Current;
  }

  lemma NotYet(subs: seq<ScriptHash>, i: nat)
    requires Distinct(subs) && i < |subs|
    ensures subs[i] !in subs[..i] && subs[..i + 1] == subs[..i] + [subs[i]]
  {
  }

  lemma OneRefreshed(st: State, hash: Digest, done: seq<ScriptHash>, affected: Option<set<ScriptHash>>,
                     was: map<ScriptHash, Option<string>>, before: map<ScriptHash, Option<string>>,
                     sh: ScriptHash, status: Option<string>)
    requires Refreshed(st, hash, done, affected, was, before) && sh !in done
    requires (affected.None? || sh in affected.value) && Current(hash, st, sh, status)
    ensures Refreshed(st, hash, done + [sh], affected, was, before[sh := status])
    ensures Changes(done + [sh], was, before[sh := status])
      == Changes(done, was, before) + (if LastRecorded(before, sh) == status then [] else [(sh, status)])
  {
    hide Current, Changes;
    ChangesNext(done, was, before, before[sh := status], sh);
    assert Selected(done + [sh], affected) == Selected(done, affected) + {sh};
  }

  lemma OneSkipped(st: State, hash: Digest, done: seq<ScriptHash>, affected: Option<set<ScriptHash>>,
                   was: map<ScriptHash, Option<string>>, before: map<ScriptHash, Option<string>>, sh: ScriptHash)
    requires Refreshed(st, hash, done, affected, was, before) && sh !in done
    requires affected.Some? && sh !in affected.value
    ensures Refreshed(st, hash, done + [sh], affected, was, before)
    ensures Changes(done + [sh], was, before) == Changes(done, was, before)
  {
    hide Current, Changes;
    ChangesNext(done, was, before, before, sh);
    assert Selected(done + [sh], affected) == Selected(done, affected);
  }

  /** Looking up one more script hash adds at most its own change. */
  lemma ChangesNext(done: seq<ScriptHash>, was: map<ScriptHash, Option<string>>,
                    before: map<ScriptHash, Option<string>>, after: map<ScriptHash, Option<string>>, sh: ScriptHash)
    requires sh !in done && forall x | x != sh :: LastRecorded(before, x) == LastRecorded(after, x)
    ensures Changes(done + [sh], was, after)
      == Changes(done, was, before)
         + (if LastRecorded(was, sh) == LastRecorded(after, sh) then [] else [(sh, LastRecorded(after, sh))])
  {
    assert (done + [sh])[..|done|] == done;
    ChangesAlike(done, was, before, after);
  }

  lemma {:induction false} ChangesAlike(done: seq<ScriptHash>, was: map<ScriptHash, Option<string>>,
                                        before: map<ScriptHash, Option<string>>,
                                        after: map<ScriptHash, Option<string>>)
    requires forall x | x in done :: LastRecorded(before, x) == LastRecorded(after, x)
    ensures Changes(done, was, before) == Changes(done, was, after)
  {
    if done != [] {
      ChangesAlike(done[..|done| - 1], was, before, after);
    }
  }
}
