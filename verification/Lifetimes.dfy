/** Lifetimes: runs of events with stops in between, after each of which the store is reopened. */
module Lifetimes {
  import opened Chain
  import opened Confirmed
  import opened Model
  import opened Pending
  import opened Reorg
  import opened Restart

  // ---- Runs with restarts -------------------------------------------------------------------

  /** What happens to a server over its lifetime: an event, or a stop and a reopening of its store. */
  datatype Life = Live(event: Event) | Restarted

  function LiveEvents(lives: seq<Life>): seq<Event> {
    if lives == [] then []
    else
      var rest := LiveEvents(lives[..|lives| - 1]);
      match lives[|lives| - 1]
      case Live(event) => rest + [event]
      case Restarted => rest
  }

  ghost predicate LifeStep(life: Life, st: State, st': State) {
    match life
    case Live(event) => st' == Model.Next(st, event)
    case Restarted => Reopened(st, st')
  }

  /** `states[i]` is the state before `lives[i]`. */
  ghost predicate Lifetime(lives: seq<Life>, states: seq<State>) {
    && |states| == |lives| + 1 && states[0] == START
    && forall i | 0 <= i < |lives| :: LifeStep(lives[i], states[i], states[i + 1])
  }

  lemma HistoryAgreesSame(stored: set<HistoryKey>, a: map<ScriptHash, seq<TxEntry>>, b: map<ScriptHash, seq<TxEntry>>)
    requires HistoryAgrees(stored, a) && SameHistory(a, b)
    ensures HistoryAgrees(stored, b)
  {
    forall sh, e ensures multiset(Get(b, sh))[e] == KeyCount(stored, sh, e) {
      assert multiset(Get(a, sh)) == multiset(Get(b, sh));
    }
    forall sh | sh in b ensures b[sh] != [] {
      assert sh in a && multiset(Get(a, sh)) == multiset(Get(b, sh));
      assert |multiset(a[sh])| == |multiset(b[sh])|;
    }
  }

  lemma SimilarAgrees(a: State, b: State)
    requires Similar(a, b) && Agrees(a.ix) && Listed(a)
    ensures Agrees(b.ix) && Listed(b)
  {
    hide JournalAgrees, HistoryAgrees, SameHistory, TxsKeyed, Keyed;
    HistoryAgreesSame(a.ix.stored, a.ix.history, b.ix.history);
  }

  lemma SimilarTransitive(a: State, b: State, c: State)
    requires Similar(a, b) && Similar(b, c)
    ensures Similar(a, c)
  {
    forall sh ensures multiset(Get(a.ix.history, sh)) == multiset(Get(c.ix.history, sh)) {
      assert multiset(Get(a.ix.history, sh)) == multiset(Get(b.ix.history, sh));
    }
  }

  lemma SimilarItself(a: State)
    ensures Similar(a, a)
  {
  }

  /** At each stop the state before it has the property. */
  ghost predicate AtStops(lives: seq<Life>, states: seq<State>, property: State -> bool)
    requires |states| == |lives| + 1
  {
    forall i | 0 <= i < |lives| && lives[i].Restarted? :: property(states[i])
  }

  /** A lifetime whose restarts all find an intact pool ends like the run of its events without them. */
  lemma {:induction false} RestartsUnseen(naming: Naming, base: nat, lives: seq<Life>, states: seq<State>)
    requires Lifetime(lives, states) && StackOrdered(naming, base, BlockEvents(LiveEvents(lives)))
    requires AtStops(lives, states, st => Intact(st))
    ensures Similar(Model.Run(LiveEvents(lives)), states[|lives|])
  {
    hide Similar, Reopened, Intact, StackOrdered, BlockEvents, Model.Next;
    if lives == [] {
      SimilarItself(START);
    } else {
      var n := |lives| - 1;
      var events := LiveEvents(lives[..n]);
      var st := states[n];
      match lives[n]
      case Live(event) =>
        assert (events + [event])[..|events|] == events;
        OrderedInit(naming, base, events, event);
        RestartsUnseen(naming, base, lives[..n], states[..n + 1]);
        NextSimilar(Model.Run(events), st, event);
      case Restarted =>
        RestartsUnseen(naming, base, lives[..n], states[..n + 1]);
        assert Intact(st);
        OrderedAgrees(naming, base, events);
        AlwaysListed(events);
        SimilarAgrees(Model.Run(events), st);
        ReopenedSimilar(st, states[n + 1]);
        SimilarTransitive(Model.Run(events), st, states[n + 1]);
    }
  }

  lemma OrderedInit(naming: Naming, base: nat, events: seq<Event>, event: Event)
    requires StackOrdered(naming, base, BlockEvents(events + [event]))
    ensures StackOrdered(naming, base, BlockEvents(events))
  {
    hide ValidNext, Survivors;
    assert (events + [event])[..|events|] == events;
    var rest := BlockEvents(events);
    match event
    case Connected(block, h) => assert (rest + [Reorg.Connected(block, h)])[..|rest|] == rest;
    case Disconnected(h) => assert (rest + [Reorg.Disconnected(h)])[..|rest|] == rest;
    case _ =>
  }

  // ---- The confirmed index ------------------------------------------------------------------

  ghost predicate SimilarIndex(a: Index, b: Index) {
    b == a.(history := b.history) && SameHistory(a.history, b.history)
  }

  lemma SimilarIndexAgrees(a: Index, b: Index)
    requires SimilarIndex(a, b) && Agrees(a)
    ensures Agrees(b)
  {
    hide JournalAgrees, HistoryAgrees, SameHistory;
    HistoryAgreesSame(a.stored, a.history, b.history);
  }

  lemma ReopenedIndex(a: Index, st: State, st': State)
    requires SimilarIndex(a, st.ix) && Agrees(a) && Reopened(st, st')
    ensures SimilarIndex(a, st'.ix)
  {
    SimilarIndexAgrees(a, st.ix);
    JournalReloads(st.ix.journal, st.ix.byHeight, st'.ix.byHeight);
    HistoryReloads(st.ix.stored, st.ix.history, st'.ix.history);
    hide JournalAgrees, HistoryAgrees, JournalLoaded, PoolLoaded;
  }

  lemma LiveIndex(a: Index, st: State, e: Event)
    requires SimilarIndex(a, st.ix)
    ensures SimilarIndex(match e
      case Connected(block, h) => Apply(a, block, h)
      case Disconnected(h) => Rollback(a, h)
      case _ => a, Model.Next(st, e).ix)
  {
    hide Apply, Rollback, Model.Next, SameHistory;
    NextIndex(st, e);
    match e
    case Connected(block, h) => ApplySimilar(a, st.ix, block, h);
    case Disconnected(h) => RollbackSimilar(a, st.ix, h);
    case _ =>
  }

  /** Whatever stops lose of the pool, the index is that of the run without them, up to the order of entries. */
  lemma {:induction false} RestartsKeepIndex(naming: Naming, base: nat, lives: seq<Life>, states: seq<State>)
    requires Lifetime(lives, states) && StackOrdered(naming, base, BlockEvents(LiveEvents(lives)))
    ensures SimilarIndex(Model.Run(LiveEvents(lives)).ix, states[|lives|].ix)
  {
    hide SimilarIndex, Reopened, StackOrdered, BlockEvents, Model.Next, Apply, Rollback;
    if lives == [] {
      IndexItself(START.ix);
    } else {
      var n := |lives| - 1;
      var events := LiveEvents(lives[..n]);
      match lives[n]
      case Live(event) =>
        assert (events + [event])[..|events|] == events;
        OrderedInit(naming, base, events, event);
        RestartsKeepIndex(naming, base, lives[..n], states[..n + 1]);
        NextIndex(Model.Run(events), event);
        LiveIndex(Model.Run(events).ix, states[n], event);
      case Restarted =>
        RestartsKeepIndex(naming, base, lives[..n], states[..n + 1]);
        OrderedAgrees(naming, base, events);
        ReopenedIndex(Model.Run(events).ix, states[n], states[n + 1]);
    }
  }

  lemma IndexItself(ix: Index)
    ensures SimilarIndex(ix, ix)
  {
  }

  // ---- The stored list ----------------------------------------------------------------------

  /** The list names at least the pending transactions, and everything is filed under its own txid. */
  ghost predicate Covered(st: State) {
    st.pool.Keys <= Elements(st.listed) && TxsKeyed(st.txs) && Keyed(st.pool)
  }

  /** Everything listed is unconfirmed and stored. */
  ghost predicate Loadable(st: State) {
    forall id | id in Elements(st.listed) :: id !in ConfirmedIds(st.ix.journal) && id in st.txs
  }

  lemma ReopenedCovered(st: State, st': State)
    requires TxsKeyed(st.txs) && Reopened(st, st')
    ensures Covered(st') && (Listed(st') <==> Loadable(st))
  {
    hide ConfirmedIds, HistoryAgrees, JournalLoaded;
  }

  lemma RemoveCovered(st: State, ids: set<Txid>)
    requires Covered(st)
    ensures Covered(Remove(st, ids))
  {
    hide Unlist;
    UnlistElements(st.listed, ids);
  }

  lemma TrackCovered(st: State, tx: Tx)
    requires Covered(st)
    ensures Covered(Model.Track(st, tx))
  {
    hide Unlist, Chains, Conflicts;
    var kept := Remove(st, Chains(st.pool, Conflicts(st.pool, tx)));
    RemoveCovered(st, Chains(st.pool, Conflicts(st.pool, tx)));
    ElementsSnoc(kept.listed, tx.txid);
  }

  lemma NextCovered(st: State, e: Event)
    requires Covered(st)
    ensures Covered(Model.Next(st, e))
  {
    hide Unlist, Chains, Conflicts, Apply, Rollback, StoreAll, Txids, MinedBy, Descendants, Model.Track, Elements;
    match e
    case Connected(block, h) =>
      RemoveCovered(st, Txids(block));
      StoredAll(st.txs, block);
    case Disconnected(h) =>
    case Tracked(tx) => TrackCovered(st, tx);
    case Restored(id) => if id in st.txs { TrackCovered(st, st.txs[id]); }
    case Forgotten(id) => if id in st.pool { RemoveCovered(st, {id}); }
    case ChainForgotten(id) => if id in st.pool { RemoveCovered(st, Descendants(st.pool, id)); }
    case RawStored(tx) =>
  }

  /** Over every lifetime, whatever its stops lose, the stored list names at least the pending transactions. */
  lemma {:induction false} LifetimeCovered(lives: seq<Life>, states: seq<State>)
    requires Lifetime(lives, states)
    ensures forall k | 0 <= k <= |lives| :: Covered(states[k])
  {
    hide Covered, Reopened, Model.Next;
    if lives == [] {
      StartCovered();
    } else {
      var n := |lives| - 1;
      var before := states[..n + 1];
      LifetimeCovered(lives[..n], before);
      assert forall k | 0 <= k <= n :: before[k] == states[k];
      match lives[n]
      case Live(event) => NextCovered(states[n], event);
      case Restarted =>
        CoveredKeyed(states[n]);
        ReopenedCovered(states[n], states[n + 1]);
    }
  }

  lemma StartCovered()
    ensures Covered(START) && Listed(START)
  {
  }

  lemma CoveredKeyed(st: State)
    requires Covered(st)
    ensures TxsKeyed(st.txs)
  {
  }

  /** It names exactly them throughout a lifetime if and only if each stop finds everything listed loadable. */
  lemma {:induction false} LifetimeListed(lives: seq<Life>, states: seq<State>)
    requires Lifetime(lives, states)
    ensures (forall k | 0 <= k <= |lives| :: Listed(states[k])) <==> AtStops(lives, states, st => Loadable(st))
  {
    hide Covered, Listed, Loadable, Reopened, Model.Next;
    if lives == [] {
      StartCovered();
    } else {
      var n := |lives| - 1;
      var before := states[..n + 1];
      LifetimeListed(lives[..n], before);
      LifetimeCovered(lives, states);
      CoveredKeyed(states[n]);
      assert forall k | 0 <= k <= n :: before[k] == states[k];
      assert forall k | 0 <= k < n :: lives[..n][k] == lives[k];
      assert (forall k | 0 <= k <= n :: Listed(states[k])) <==> (forall k | 0 <= k <= n :: Listed(before[k]));
      match lives[n]
      case Live(event) => if Listed(states[n]) { NextListed(states[n], event); }
      case Restarted => ReopenedCovered(states[n], states[n + 1]);
    }
  }

  // ---- Double spends ------------------------------------------------------------------------

  /** No two listed transactions that a reopening would load spend one output. */
  ghost predicate Clear(st: State) {
    NoDoubleSpend(PoolLoaded(st))
  }

  /** A list that names only the pending transactions is clear if the pool is. */
  lemma ListedClear(st: State)
    requires Elements(st.listed) == st.pool.Keys && NoDoubleSpend(st.pool)
    requires forall id | id in st.pool && id in st.txs :: st.txs[id].inputs == st.pool[id].inputs
    ensures Clear(st)
  {
    hide ConfirmedIds, Spends;
    forall id | id in PoolLoaded(st) ensures Spends(PoolLoaded(st)[id]) == Spends(st.pool[id]) {
      SameSpends(st.txs[id], st.pool[id]);
    }
  }

  lemma SameSpends(a: Tx, b: Tx)
    requires a.inputs == b.inputs
    ensures Spends(a) == Spends(b)
  {
  }

  /** One event keeps the pool free of double spends exactly when it is honest. */
  lemma HonestExact(st: State, e: Event)
    requires NoDoubleSpend(st.pool)
    ensures NoDoubleSpend(Model.Next(st, e).pool) <==> Honest(st, e)
  {
    hide Apply, Rollback, Chains, Descendants, Conflicts, StoreAll, Unlist, Model.List, NoDoubleSpend,
         SharesWithParent;
    match e
    case Connected(block, _) => RemovalNoDoubleSpend(st.pool, Txids(block));
    case Disconnected(_) =>
    case Tracked(tx) => TrackNoDoubleSpend(st.pool, tx);
    case Restored(id) => if id in st.txs { TrackNoDoubleSpend(st.pool, st.txs[id]); }
    case Forgotten(id) => RemovalNoDoubleSpend(st.pool, {id});
    case ChainForgotten(id) => RemovalNoDoubleSpend(st.pool, Descendants(st.pool, id));
    case RawStored(_) =>
  }

  ghost predicate Sane(life: Life, st: State) {
    match life
    case Live(event) => Honest(st, event)
    case Restarted => Clear(st)
  }

  /** No pool of a lifetime holds a double spend if and only if every event is honest and every stop clear. */
  lemma {:induction false} LifetimeNoDoubleSpend(lives: seq<Life>, states: seq<State>)
    requires Lifetime(lives, states)
    ensures (forall k | 0 <= k <= |lives| :: NoDoubleSpend(states[k].pool))
       <==> (forall i | 0 <= i < |lives| :: Sane(lives[i], states[i]))
  {
    hide NoDoubleSpend, Sane, LifeStep;
    if lives == [] {
      NoneDoubleSpent();
    } else {
      var n := |lives| - 1;
      var before := states[..n + 1];
      LifetimeNoDoubleSpend(lives[..n], before);
      assert forall k | 0 <= k <= n :: before[k] == states[k];
      assert (forall k | 0 <= k <= n :: NoDoubleSpend(states[k].pool))
        <==> (forall k | 0 <= k <= n :: NoDoubleSpend(before[k].pool));
      assert (forall i | 0 <= i < n :: Sane(lives[i], states[i]))
        <==> (forall i | 0 <= i < n :: Sane(lives[..n][i], before[i]));
      if NoDoubleSpend(states[n].pool) {
        SaneStep(lives[n], states[n], states[n + 1]);
      }
    }
  }

  lemma SaneStep(life: Life, st: State, st': State)
    requires LifeStep(life, st, st') && NoDoubleSpend(st.pool)
    ensures NoDoubleSpend(st'.pool) <==> Sane(life, st)
  {
    hide NoDoubleSpend, Honest, Model.Next, Reopened, Clear;
    match life
    case Live(event) => HonestExact(st, event);
    case Restarted => ReopenedPool(st, st');
  }

  lemma ReopenedPool(st: State, st': State)
    requires Reopened(st, st')
    ensures NoDoubleSpend(st'.pool) <==> Clear(st)
  {
  }

  lemma ChainsWithin(pool: Pool, roots: set<Txid>, id: Txid)
    requires roots <= pool.Keys && id !in pool
    ensures id !in Chains(pool, roots)
  {
  }

  /**
   * It can fail: a transaction that a stop has lost is still listed, a conflicting one is tracked, the lost
   * one is stored again, and the next stop brings it back beside the other.
   */
  lemma LostReturns(st: State, lost: Tx, tx: Tx, st': State)
    requires lost.txid in Elements(st.listed) && lost.txid !in st.pool && lost.txid != tx.txid
    requires lost.txid !in ConfirmedIds(st.ix.journal) && tx.txid !in ConfirmedIds(st.ix.journal)
    requires Spends(lost) * Spends(tx) != {}
    requires Reopened(Model.Next(Model.Next(st, Tracked(tx)), RawStored(lost)), st')
    ensures lost.txid in st'.pool && tx.txid in st'.pool && !NoDoubleSpend(st'.pool)
  {
    hide ConfirmedIds, HistoryAgrees, JournalLoaded, Chains, Unlist, Spends;
    var gone := Chains(st.pool, Conflicts(st.pool, tx));
    ConflictsPending(st.pool, tx);
    ChainsWithin(st.pool, Conflicts(st.pool, tx), lost.txid);
    UnlistElements(st.listed, gone);
    ElementsSnoc(Unlist(st.listed, gone), tx.txid);
  }
}
