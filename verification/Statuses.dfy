/** The current status of a script hash, made from a history answer and a mempool answer. */
module Statuses {
  import opened Chain
  import opened Model
  import opened Notify
  import opened Pending
  import opened Queries
  import opened Sorting
  import opened Status

  /** SHA-256 as a hexadecimal string, uninterpreted. */
  type Digest = string -> string

  function PairKey(e: Entry): Key {
    Key(e.0 as int, 0, 0)
  }

  /** The (txid, height) pairs of the mempool answer, without the fees. */
  ghost predicate PairsNow(st: State, sh: ScriptHash, ps: seq<Entry>) {
    Sorted(ps, PairKey) && multiset(ps) == multiset(Entries(st.pool, st.ix.outputs, sh))
  }

  ghost predicate HistoryNow(st: State, sh: ScriptHash, h: seq<TxEntry>) {
    IsHistory(Get(st.ix.history, sh), st.pool, st.ix.outputs, sh, h)
  }

  /** The digest of the concatenated entries; None for a script hash without activity. */
  function StatusHash(hash: Digest, h: seq<TxEntry>, ps: seq<Entry>): Option<string> {
    if h == [] && ps == [] then None else Some(hash(Text(HistoryPairs(h) + ps)))
  }

  ghost predicate Current(hash: Digest, st: State, sh: ScriptHash, status: Option<string>) {
    exists h, ps :: HistoryNow(st, sh, h) && PairsNow(st, sh, ps) && status == StatusHash(hash, h, ps)
  }

  lemma DistinctElements(xs: seq<MempoolEntry>, s: set<MempoolEntry>)
    requires multiset(xs) == multiset(s)
    ensures forall i, j | 0 <= i < j < |xs| :: xs[i] != xs[j]
  {
    forall i, j | 0 <= i < j < |xs| ensures xs[i] != xs[j] {
      assert xs == xs[..i] + [xs[i]] + xs[i + 1..j] + [xs[j]] + xs[j + 1..];
      assert multiset(xs)[xs[i]] <= 1;
    }
  }

  lemma {:induction false} OnceEach(ps: seq<Entry>, s: set<Entry>)
    requires forall i, j | 0 <= i < j < |ps| :: ps[i] != ps[j]
    requires forall e :: e in ps <==> e in s
    ensures multiset(ps) == multiset(s)
  {
    if ps == [] {
      assert s == {};
    } else {
      var rest, last := ps[..|ps| - 1], ps[|ps| - 1];
      assert ps == rest + [last];
      OnceEach(rest, s - {last});
      assert multiset(s) == multiset(s - {last}) + multiset{last};
    }
  }

  /** The mempool answer lists exactly the announced entries. */
  lemma MempoolPairsNow(st: State, sh: ScriptHash, m: seq<MempoolEntry>)
    requires IsMempool(st.pool, st.ix.outputs, sh, m)
    ensures PairsNow(st, sh, MempoolPairs(m))
  {
    hide Touching, Fee, MempoolHeight;
    var ps, all := MempoolPairs(m), MempoolEntries(st.pool, st.ix.outputs, sh);
    DistinctElements(m, all);
    forall i | 0 <= i < |m| ensures m[i] in all {
      assert m[i] in multiset(m);
    }
    forall e | e in Entries(st.pool, st.ix.outputs, sh) ensures e in ps {
      var x := MempoolEntry(e.0, e.1, Fee(st.pool, st.ix.outputs, st.pool[e.0]));
      assert x in all && x in multiset(m);
      var i :| 0 <= i < |m| && m[i] == x;
      assert ps[i] == e;
    }
    OnceEach(ps, Entries(st.pool, st.ix.outputs, sh));
  }

  lemma PoolHistoryAlike(st: State, st': State, sh: ScriptHash)
    requires Entries(st.pool, st.ix.outputs, sh) == Entries(st'.pool, st'.ix.outputs, sh)
    ensures PoolHistory(st.pool, st.ix.outputs, sh) == PoolHistory(st'.pool, st'.ix.outputs, sh)
  {
    hide Touching, MempoolHeight;
    var p, p' := PoolHistory(st.pool, st.ix.outputs, sh), PoolHistory(st'.pool, st'.ix.outputs, sh);
    forall e ensures e in p <==> e in p' {
      var a, b := (e.txid, MempoolHeight(st.ix.outputs, PoolTx(st.pool, e.txid))),
                  (e.txid, MempoolHeight(st'.ix.outputs, PoolTx(st'.pool, e.txid)));
      assert e in p <==> a in Entries(st.pool, st.ix.outputs, sh) && e == TxEntry(e.txid, 0, 0);
      assert e in p' <==> b in Entries(st'.pool, st'.ix.outputs, sh) && e == TxEntry(e.txid, 0, 0);
    }
  }

  /** Equal entries and equal confirmed history mean the same answers. */
  lemma SameAnswers(st: State, st': State, sh: ScriptHash)
    requires Get(st.ix.history, sh) == Get(st'.ix.history, sh)
    requires Entries(st.pool, st.ix.outputs, sh) == Entries(st'.pool, st'.ix.outputs, sh)
    ensures forall h :: HistoryNow(st, sh, h) <==> HistoryNow(st', sh, h)
    ensures forall ps :: PairsNow(st, sh, ps) <==> PairsNow(st', sh, ps)
  {
    hide Entries, PoolHistory, Sorted;
    PoolHistoryAlike(st, st', sh);
  }

  function PoolTx(pool: Pool, id: Txid): Tx {
    if id in pool then pool[id] else Tx(id, [], [], 1)
  }

  lemma PairsUnique(st: State, sh: ScriptHash, ps: seq<Entry>, ps': seq<Entry>)
    requires PairsNow(st, sh, ps) && PairsNow(st, sh, ps')
    ensures ps == ps'
  {
    hide Entries, Sorted;
    forall e, f | e in ps && f in ps && PairKey(e) == PairKey(f) ensures e == f {
      assert e in multiset(ps) && f in multiset(ps);
      EntryByTxid(st, sh, e, f);
    }
    assert Injective(ps, PairKey);
    SortedUnique(ps, ps', PairKey);
  }

  /** With heights below the largest u32 there is one current status. */
  lemma CurrentUnique(hash: Digest, st: State, sh: ScriptHash, a: Option<string>, b: Option<string>)
    requires Current(hash, st, sh, a) && Current(hash, st, sh, b)
    requires HeightsBelow(Get(st.ix.history, sh), U32_MAX)
    ensures a == b
  {
    hide StatusHash, IsHistory, PairsNow;
    var h, ps :| HistoryNow(st, sh, h) && PairsNow(st, sh, ps) && a == StatusHash(hash, h, ps);
    var h', ps' :| HistoryNow(st, sh, h') && PairsNow(st, sh, ps') && b == StatusHash(hash, h', ps');
    var confirmed := Get(st.ix.history, sh);
    HistoryDetermined(confirmed, confirmed, st.pool, st.pool, st.ix.outputs, st.ix.outputs, sh, h, h');
    PairsUnique(st, sh, ps, ps');
  }

  lemma EntryByTxid(st: State, sh: ScriptHash, e: Entry, f: Entry)
    requires e in Entries(st.pool, st.ix.outputs, sh) && f in Entries(st.pool, st.ix.outputs, sh) && e.0 == f.0
    ensures e == f
  {
    hide Touching, MempoolHeight;
  }
}
